/**
 Device provisioning by key exchange (client/libclient/kex.go): a provisioner (the
 existing device) and a provisionee (the new one) meet on one of two sessions,
 each keyed by a secret that one of them generated and the user may type into the
 other. All messages go through a mailbox on the server.

 The exchange is a state machine over the steps of both sides. Racing goroutines
 become steps that are enabled together. Messages are never removed from the
 mailbox, so a goroutine that received earlier than it was selected is covered by
 receiving at the moment it is selected.
 */
module Kex {
  import opened Common

  /** A session is named by who generated its secret; `Other` is anything else the user may type. */
  datatype Session = OfX | OfY | Other(id: nat)

  datatype Party = X | Y {
    function Peer(): (p: Party) { if X? then Y else X }
  }

  /** The link that adds the new device to the user's chain, without signatures. */
  datatype Inner = Inner(user: nat, host: nat, role: nat, existing: nat, newKey: nat, seqno: nat)

  /** A signature covers the link together with the signatures already on it. */
  datatype Sig = Sig(signer: nat, inner: Inner, prior: seq<Sig>)
  datatype Link = Link(inner: Inner, sigs: seq<Sig>)

  datatype Msg =
    | Start | Hello(key: nat) | PleaseSign(inner: Inner, tok: nat) | OkSigned(sig: Sig) | Done | Error

  datatype Addr = Addr(session: Session, sender: Party, num: nat)

  /** A provisional secret-store row. */
  datatype Row = Row(key: nat, user: nat, host: nat, role: nat, tok: nat)

  /** One `KexSecret` object. `mine` tells the generated one from one typed by the user. */
  datatype Endpoint = Endpoint(session: Session, mine: bool, send: nat, recv: nat)

  datatype Config = Config(keyX: nat, keyY: nat, user: nat, host: nat, role: nat)

  datatype XPc =
    | XInit | XWaiting | XAgreed | XLinkMade | XLinkSent | XSigChecked | XSigned | XPosted | XFinished
    | XFailing | XStopped

  datatype YPc =
    | YInit | YWaiting | YAgreed | YPut | YStored | YSigned | YSent | YFinished | YFailing | YStopped

  datatype Provisioner = Provisioner(
    pc: XPc, mineSend: nat, agreed: Option<Endpoint>, hello: Option<nat>, inner: Option<Inner>, tok: nat,
    ysig: Option<Sig>, link: Option<Link>, gotError: bool, reported: Option<Addr>)

  /** Progress of the provisionee's typed-secret goroutine through one try. */
  datatype Typed = Idle | Started(session: Session) | HelloSent(session: Session) | Won

  datatype Provisionee = Provisionee(
    pc: YPc, mineSend: nat, typed: Typed, agreed: Option<Endpoint>, inner: Option<Inner>, tok: nat,
    sig: Option<Sig>, gotError: bool, reported: Option<Addr>)

  datatype State = State(
    x: Provisioner, y: Provisionee, box: map<Addr, Msg>, disk: set<Row>, accepted: set<Link>,
    sendFailed: bool)    // some Send has returned an error

  const INITIAL := State(
    Provisioner(XInit, 0, None, None, None, 0, None, None, false, None),
    Provisionee(YInit, 0, Idle, None, None, 0, None, false, None),
    map[], {}, {}, false)

  // ------------------------------------------------------------------- mailbox

  /** A Send is stored, lost on the way, or stored and then reported as failed. */
  datatype Outcome = Delivered | Lost | StoredThenError

  /** The mailbox is keyed by session, sender and number, and refuses to overwrite. */
  predicate Stores(s: State, a: Addr, o: Outcome) { a !in s.box && o != Lost }
  predicate Sends(s: State, a: Addr, o: Outcome) { a !in s.box && o == Delivered }

  function Send(s: State, a: Addr, m: Msg, o: Outcome): (s': State) {
    s.(box := if Stores(s, a, o) then s.box[a := m] else s.box, sendFailed := s.sendFailed || !Sends(s, a, o))
  }

  /** What is stored under this number of this session by the other side. */
  function Receive(s: State, me: Party, session: Session, num: nat): (m: Option<Msg>) {
    var a := Addr(session, me.Peer(), num);
    if a in s.box then Some(s.box[a]) else None
  }

  // ------------------------------------------------------------------- signing

  /** The server takes a link signed by the new device and then countersigned by the existing one. */
  predicate DoublySigned(l: Link) {
    && |l.sigs| == 2
    && l.sigs[0] == Sig(l.inner.newKey, l.inner, [])
    && l.sigs[1] == Sig(l.inner.existing, l.inner, [l.sigs[0]])
  }

  function RowFor(c: Config, inner: Inner, tok: nat): (r: Row) { Row(c.keyY, inner.user, inner.host, inner.role, tok) }

  // --------------------------------------------------------------------- steps

  /**
   A receive names the number of the message that the mailbox answers with. That can be
   any message of the session: the receiver compares the number sealed inside with the
   one the mailbox put outside, and neither with the one it asked for.
   */
  datatype Action =
    // provisioner
    | XSendStart(o: Outcome) | XAdoptMine(num: nat) | XAdoptTyped(session: Session, num: nat)
    | XMakeLink(seqno: nat, tok: nat) | XSendLink(o: Outcome) | XReceiveSig(num: nat) | XSign
    | XPost(taken: bool, reply: bool) | XSendDone(o: Outcome)
    | XFail | XReport(o: Outcome) | XCrash
    // provisionee
    | YSendHello(o: Outcome) | YType(session: Session, num: nat) | YTypedHello(o: Outcome) | YRetry
    | YAdoptMine(num: nat) | YAdoptTyped(num: nat) | YPutRow | YSaveRow | YSign | YSendOk(o: Outcome)
    | YReceiveDone(num: nat)
    | YFail | YReport(o: Outcome) | YCrash
    // anybody else posting a link to the server
    | ServerTakes(link: Link)

  predicate XRunning(x: Provisioner) { !x.pc.XFinished? && !x.pc.XFailing? && !x.pc.XStopped? }
  predicate YRunning(y: Provisionee) { !y.pc.YFinished? && !y.pc.YFailing? && !y.pc.YStopped? }

  function XWith(s: State, x: Provisioner): (s': State) { s.(x := x) }
  function YWith(s: State, y: Provisionee): (s': State) { s.(y := y) }

  /** An `Error` from the peer ends the run without a reply; any other surprise is an ordinary failure. */
  function XRefuse(s: State, m: Msg): (s': State) {
    if m.Error? then XWith(s, s.x.(pc := XStopped, gotError := true)) else XWith(s, s.x.(pc := XFailing))
  }
  function YRefuse(s: State, m: Msg): (s': State) {
    if m.Error? then YWith(s, s.y.(pc := YStopped, gotError := true)) else YWith(s, s.y.(pc := YFailing))
  }

  function DoXSendStart(s: State, o: Outcome): (s': State) {
    var a := Addr(OfX, X, s.x.mineSend);
    XWith(Send(s, a, Start, o), s.x.(mineSend := s.x.mineSend + 1, pc := if Sends(s, a, o) then XWaiting else XFailing))
  }

  /** Adopts the session a Hello arrived on. A typed secret makes a new endpoint with its own counters. */
  function DoXAdopt(s: State, e: Endpoint, m: Msg): (s': State) {
    if m.Hello? then XWith(s, s.x.(agreed := Some(e), hello := Some(m.key), pc := XAgreed)) else XRefuse(s, m)
  }

  function DoXMakeLink(c: Config, s: State, seqno: nat, tok: nat): (s': State)
    requires s.x.hello.Some?
  {
    var inner := Inner(c.user, c.host, c.role, c.keyX, s.x.hello.value, seqno);
    XWith(s, s.x.(inner := Some(inner), tok := tok, pc := XLinkMade))
  }

  /** Numbers come from the agreed endpoint, which moves on whether or not the Send succeeds. */
  function DoXSend(s: State, m: Msg, o: Outcome, next: XPc): (s': State)
    requires s.x.agreed.Some?
  {
    var e := s.x.agreed.value;
    var a := Addr(e.session, X, e.send);
    XWith(Send(s, a, m, o),
          s.x.(agreed := Some(e.(send := e.send + 1)), pc := if Sends(s, a, o) then next else XFailing))
  }

  function DoXReceiveSig(s: State, m: Msg): (s': State)
    requires s.x.agreed.Some? && s.x.inner.Some? && s.x.hello.Some?
  {
    var e := s.x.agreed.value;
    var s1 := XWith(s, s.x.(agreed := Some(e.(recv := e.recv + 1))));
    if m.OkSigned? && m.sig == Sig(s.x.hello.value, s.x.inner.value, [])
    then XWith(s1, s1.x.(ysig := Some(m.sig), pc := XSigChecked))
    else XRefuse(s1, m)
  }

  function DoXSign(c: Config, s: State): (s': State)
    requires s.x.inner.Some? && s.x.ysig.Some?
  {
    var inner, sig := s.x.inner.value, s.x.ysig.value;
    XWith(s, s.x.(link := Some(Link(inner, [sig, Sig(c.keyX, inner, [sig])])), pc := XSigned))
  }

  /** The server may take the link and the reply still get lost. */
  function DoXPost(s: State, taken: bool, reply: bool): (s': State)
    requires s.x.link.Some?
  {
    var s1 := if taken && DoublySigned(s.x.link.value) then s.(accepted := s.accepted + {s.x.link.value}) else s;
    XWith(s1, s.x.(pc := if taken && reply && DoublySigned(s.x.link.value) then XPosted else XFailing))
  }

  /** `RunKex` reports a failure once, if a session was agreed on, and ignores whether that worked. */
  function DoXReport(s: State, o: Outcome): (s': State) {
    if s.x.agreed.None? then XWith(s, s.x.(pc := XStopped))
    else
      var e := s.x.agreed.value;
      var a := Addr(e.session, X, e.send);
      XWith(Send(s, a, Error, o),
            s.x.(agreed := Some(e.(send := e.send + 1)), pc := XStopped, reported := Some(a)))
  }

  function DoX(c: Config, s: State, a: Action): (r: Option<State>) {
    var x := s.x;
    match a
    case XSendStart(o) => if x.pc.XInit? then Some(DoXSendStart(s, o)) else None
    case XAdoptMine(num) =>
      var m := Receive(s, X, OfX, num);
      if x.pc.XWaiting? && m.Some? then Some(DoXAdopt(s, Endpoint(OfX, true, x.mineSend, 1), m.value)) else None
    case XAdoptTyped(session, num) =>
      var m := Receive(s, X, session, num);
      // A wrong secret, or the wrong message under it, only sends the user back to typing.
      if x.pc.XWaiting? && m.Some? && m.value.Hello?
      then Some(DoXAdopt(s, Endpoint(session, false, 0, 1), m.value)) else None
    case XMakeLink(seqno, tok) => if x.pc.XAgreed? && x.hello.Some? then Some(DoXMakeLink(c, s, seqno, tok)) else None
    case XSendLink(o) =>
      if x.pc.XLinkMade? && x.agreed.Some? && x.inner.Some?
      then Some(DoXSend(s, PleaseSign(x.inner.value, x.tok), o, XLinkSent)) else None
    case XReceiveSig(num) =>
      if x.pc.XLinkSent? && x.agreed.Some? && x.inner.Some? && x.hello.Some? then
        var m := Receive(s, X, x.agreed.value.session, num);
        if m.Some? then Some(DoXReceiveSig(s, m.value)) else None
      else None
    case XSign => if x.pc.XSigChecked? && x.inner.Some? && x.ysig.Some? then Some(DoXSign(c, s)) else None
    case XPost(taken, reply) => if x.pc.XSigned? && x.link.Some? then Some(DoXPost(s, taken, reply)) else None
    case XSendDone(o) => if x.pc.XPosted? && x.agreed.Some? then Some(DoXSend(s, Done, o, XFinished)) else None
    case XFail => if XRunning(x) then Some(XWith(s, x.(pc := XFailing))) else None
    case XReport(o) => if x.pc.XFailing? then Some(DoXReport(s, o)) else None
    case XCrash => if x.pc.XFinished? then None else Some(XWith(s, x.(pc := XStopped)))
    case _ => None
  }

  function DoYSendHello(c: Config, s: State, o: Outcome): (s': State) {
    var a := Addr(OfY, Y, s.y.mineSend);
    YWith(Send(s, a, Hello(c.keyY), o),
          s.y.(mineSend := s.y.mineSend + 1, pc := if Sends(s, a, o) then YWaiting else YFailing))
  }

  /** Typing a secret opens a new endpoint and looks for a Start on it. */
  function DoYType(s: State, session: Session, num: nat): (s': State) {
    match Receive(s, Y, session, num)
    case Some(Start) => YWith(s, s.y.(typed := Started(session)))
    case Some(Error) => if s.y.pc.YWaiting? then YRefuse(s, Error) else s
    case _ => s
  }

  /** A Hello on the typed session; if it fails the user is asked again. */
  function DoYTypedHello(c: Config, s: State, session: Session, o: Outcome): (s': State) {
    var a := Addr(session, Y, 0);
    YWith(Send(s, a, Hello(c.keyY), o), s.y.(typed := if Sends(s, a, o) then HelloSent(session) else Idle))
  }

  function DoYAdopt(s: State, e: Endpoint, m: Msg, typed: Typed): (s': State) {
    if m.PleaseSign?
    then YWith(s, s.y.(agreed := Some(e), inner := Some(m.inner), tok := m.tok, typed := typed, pc := YAgreed))
    else YRefuse(s, m)
  }

  function DoYSaveRow(c: Config, s: State): (s': State)
    requires s.y.inner.Some?
  {
    YWith(s.(disk := s.disk + {RowFor(c, s.y.inner.value, s.y.tok)}), s.y.(pc := YStored))
  }

  function DoYSend(s: State, m: Msg, o: Outcome, next: YPc): (s': State)
    requires s.y.agreed.Some?
  {
    var e := s.y.agreed.value;
    var a := Addr(e.session, Y, e.send);
    YWith(Send(s, a, m, o),
          s.y.(agreed := Some(e.(send := e.send + 1)), pc := if Sends(s, a, o) then next else YFailing))
  }

  function DoYReceiveDone(s: State, m: Msg): (s': State)
    requires s.y.agreed.Some?
  {
    var e := s.y.agreed.value;
    var s1 := YWith(s, s.y.(agreed := Some(e.(recv := e.recv + 1))));
    if m.Done? then YWith(s1, s1.y.(pc := YFinished)) else YRefuse(s1, m)
  }

  function DoYReport(s: State, o: Outcome): (s': State) {
    if s.y.agreed.None? then YWith(s, s.y.(pc := YStopped))
    else
      var e := s.y.agreed.value;
      var a := Addr(e.session, Y, e.send);
      YWith(Send(s, a, Error, o),
            s.y.(agreed := Some(e.(send := e.send + 1)), pc := YStopped, reported := Some(a)))
  }

  function DoY(c: Config, s: State, a: Action): (r: Option<State>) {
    var y := s.y;
    match a
    case YSendHello(o) => if y.pc.YInit? then Some(DoYSendHello(c, s, o)) else None
    // The typed-secret goroutine may outlive the choice made in favour of the other one.
    case YType(session, num) => if !y.pc.YInit? && y.typed.Idle? then Some(DoYType(s, session, num)) else None
    case YTypedHello(o) => if y.typed.Started? then Some(DoYTypedHello(c, s, y.typed.session, o)) else None
    case YRetry => if y.typed.Started? || y.typed.HelloSent? then Some(YWith(s, y.(typed := Idle))) else None
    case YAdoptMine(num) =>
      var m := Receive(s, Y, OfY, num);
      if y.pc.YWaiting? && m.Some?
      then Some(DoYAdopt(s, Endpoint(OfY, true, y.mineSend, 1), m.value, y.typed)) else None
    case YAdoptTyped(num) =>
      if y.pc.YWaiting? && y.typed.HelloSent? then
        var m := Receive(s, Y, y.typed.session, num);
        if m.Some? && (m.value.PleaseSign? || m.value.Error?)
        then Some(DoYAdopt(s, Endpoint(y.typed.session, false, 1, 2), m.value, Won)) else None
      else None
    case YPutRow => if y.pc.YAgreed? then Some(YWith(s, y.(pc := YPut))) else None
    case YSaveRow => if y.pc.YPut? && y.inner.Some? then Some(DoYSaveRow(c, s)) else None
    case YSign =>
      if y.pc.YStored? && y.inner.Some?
      then Some(YWith(s, y.(sig := Some(Sig(c.keyY, y.inner.value, [])), pc := YSigned))) else None
    case YSendOk(o) =>
      if y.pc.YSigned? && y.agreed.Some? && y.sig.Some? then Some(DoYSend(s, OkSigned(y.sig.value), o, YSent)) else None
    case YReceiveDone(num) =>
      if y.pc.YSent? && y.agreed.Some? then
        var m := Receive(s, Y, y.agreed.value.session, num);
        if m.Some? then Some(DoYReceiveDone(s, m.value)) else None
      else None
    case YFail => if YRunning(y) then Some(YWith(s, y.(pc := YFailing))) else None
    case YReport(o) => if y.pc.YFailing? then Some(DoYReport(s, o)) else None
    case YCrash => if y.pc.YFinished? then None else Some(YWith(s, y.(pc := YStopped)))
    case _ => None
  }

  /** Anybody can post, but nobody can make a signature of the provisionee's that it did not make. */
  predicate Postable(c: Config, s: State, l: Link) {
    DoublySigned(l) && (l.sigs[0].signer == c.keyY ==> s.y.sig == Some(l.sigs[0]))
  }

  function Do(c: Config, s: State, a: Action): (r: Option<State>) {
    if a.ServerTakes? then if Postable(c, s, a.link) then Some(s.(accepted := s.accepted + {a.link})) else None
    else if DoX(c, s, a).Some? then DoX(c, s, a)
    else DoY(c, s, a)
  }

  // ----------------------------------------------------------------- invariant

  /** The number of the PleaseSign on each session: it follows the Start on the provisioner's own. */
  function LinkNum(session: Session): (n: nat) { if session.OfX? then 1 else 0 }

  predicate Usable(session: Session) { session.OfX? || session.OfY? }

  /** What each message in the mailbox says about the state; also which number it can have. */
  ghost predicate MsgOk(c: Config, s: State, a: Addr, m: Msg) {
    match m
    case Start => a == Addr(OfX, X, 0)
    case Hello(k) => a.sender == Y && a.num == 0 && k == c.keyY && Usable(a.session)
    case PleaseSign(inner, tok) =>
      && a.sender == X && a.num == LinkNum(a.session) && s.x.inner == Some(inner) && s.x.tok == tok
      && s.x.agreed.Some? && s.x.agreed.value.session == a.session && !s.x.pc.XAgreed? && !s.x.pc.XLinkMade?
    case OkSigned(sig) =>
      && a.sender == Y && a.num == 1 && s.y.sig == Some(sig) && !s.y.pc.YSigned?
      && s.y.agreed.Some? && s.y.agreed.value.session == a.session
    case Done =>
      && a.sender == X && a.num == LinkNum(a.session) + 1 && s.x.link.Some? && s.x.link.value in s.accepted
      && s.x.agreed.Some? && s.x.agreed.value.session == a.session
      && (s.x.pc.XFinished? || s.x.pc.XFailing? || s.x.pc.XStopped?)
    case Error =>
      if a.sender == X then
        && a.num >= LinkNum(a.session) && s.x.reported == Some(a)
        && s.x.agreed.Some? && s.x.agreed.value.session == a.session
      else
        && a.num >= 1 && s.y.reported == Some(a)
        && s.y.agreed.Some? && s.y.agreed.value.session == a.session
  }

  ghost predicate BoxOk(c: Config, s: State) {
    forall a :: a in s.box ==> Usable(a.session) && MsgOk(c, s, a, s.box[a])
  }

  function Base(e: Endpoint): (n: nat) { if e.mine then 1 else 0 }

  ghost predicate XEndpointOk(s: State, e: Endpoint) {
    && Usable(e.session) && (e.mine ==> e.session.OfX?) && e.send >= Base(e)
    && (s.x.pc.XAgreed? || s.x.pc.XLinkMade? ==> e.send == Base(e) && e.recv == 1)
    && (s.x.pc.XLinkSent? ==> e.send == Base(e) + 1 && e.recv == 1)
    && (s.x.pc.XSigChecked? || s.x.pc.XSigned? || s.x.pc.XPosted? ==> e.send == Base(e) + 1 && e.recv == 2)
    // a provisioner that was given its own secret never gets past the PleaseSign
    && (s.x.pc.XLinkSent? || s.x.pc.XSigChecked? || s.x.pc.XSigned? || s.x.pc.XPosted? ==>
          Base(e) == LinkNum(e.session))
  }

  ghost predicate XOk(c: Config, s: State) {
    var x := s.x;
    && (x.pc.XInit? ==> x.mineSend == 0 && x.agreed.None?)
    && (x.pc.XWaiting? ==> x.agreed.None?)
    && (x.pc.XWaiting? || x.agreed.Some? ==> x.mineSend == 1 && Addr(OfX, X, 0) in s.box)
    && (x.agreed.Some? ==> x.hello == Some(c.keyY) && XEndpointOk(s, x.agreed.value))
    && (x.pc.XAgreed? || x.pc.XLinkMade? || x.pc.XLinkSent? || x.pc.XSigChecked? || x.pc.XSigned? || x.pc.XPosted? ==>
          x.agreed.Some?)
    && (x.pc.XInit? || x.pc.XWaiting? || x.pc.XAgreed? ==> x.inner.None? && x.ysig.None? && x.link.None?)
    && (x.inner.Some? ==>
          && x.agreed.Some?
          && x.inner.value == Inner(c.user, c.host, c.role, c.keyX, c.keyY, x.inner.value.seqno))
    && (x.ysig.Some? ==> x.inner.Some? && x.ysig.value == Sig(c.keyY, x.inner.value, []) && s.y.sig == x.ysig)
    && (x.pc.XLinkMade? || x.pc.XLinkSent? ==> x.ysig.None? && x.link.None?)
    && (x.pc.XSigChecked? ==> x.link.None?)
    && (x.link.Some? ==>
          && x.ysig.Some?
          && x.link.value == Link(x.inner.value, [x.ysig.value, Sig(c.keyX, x.inner.value, [x.ysig.value])]))
    && (x.pc.XPosted? || x.pc.XFinished? ==> x.link.Some? && x.link.value in s.accepted)
    && (x.reported.Some? || x.gotError ==> x.pc.XStopped?)
    && (x.gotError ==> x.reported.None?)
  }

  ghost predicate YEndpointOk(s: State, e: Endpoint) {
    && Usable(e.session) && (e.mine <==> e.session.OfY?) && e.send >= 1
    && (s.y.pc.YAgreed? || s.y.pc.YPut? || s.y.pc.YStored? || s.y.pc.YSigned? ==> e.send == 1)
    && (s.y.pc.YSent? ==> e.send == 2)
    && (s.y.pc.YAgreed? || s.y.pc.YPut? || s.y.pc.YStored? || s.y.pc.YSigned? || s.y.pc.YSent? ==>
          e.recv == LinkNum(e.session) + 1)
    && s.y.inner.Some? && Receive(s, Y, e.session, LinkNum(e.session)) == Some(PleaseSign(s.y.inner.value, s.y.tok))
  }

  ghost predicate YOk(c: Config, s: State) {
    var y := s.y;
    && (y.pc.YInit? ==> y.mineSend == 0 && y.typed.Idle?)
    && (y.pc.YInit? || y.pc.YWaiting? ==> y.agreed.None?)
    && (y.pc.YWaiting? ==> y.mineSend == 1)
    && (y.typed.Started? || y.typed.HelloSent? ==> y.typed.session.OfX?)
    && (y.typed.Won? <==> y.agreed.Some? && !y.agreed.value.mine)
    && (y.agreed.Some? ==> YEndpointOk(s, y.agreed.value))
    && (y.pc.YAgreed? || y.pc.YPut? || y.pc.YStored? || y.pc.YSigned? || y.pc.YSent? || y.pc.YFinished? ==>
          y.agreed.Some?)
    && (y.pc.YInit? || y.pc.YWaiting? || y.pc.YAgreed? || y.pc.YPut? || y.pc.YStored? ==> y.sig.None?)
    && (y.pc.YStored? ==> y.inner.Some? && RowFor(c, y.inner.value, y.tok) in s.disk)
    && (y.sig.Some? ==>
          && y.agreed.Some? && y.inner.Some?
          && y.sig.value == Sig(c.keyY, y.inner.value, []) && RowFor(c, y.inner.value, y.tok) in s.disk)
    && (y.pc.YFinished? ==> Receive(s, Y, y.agreed.value.session, LinkNum(y.agreed.value.session) + 1) == Some(Done))
    && (y.reported.Some? || y.gotError ==> y.pc.YStopped?)
    && (y.gotError ==> y.reported.None?)
  }

  ghost predicate AcceptedOk(c: Config, s: State) {
    forall l :: l in s.accepted ==> DoublySigned(l) && (l.inner.newKey == c.keyY ==> s.y.sig == Some(l.sigs[0]))
  }

  ghost predicate Inv(c: Config, s: State) {
    XOk(c, s) && YOk(c, s) && AcceptedOk(c, s) && BoxOk(c, s)
  }

  // -------------------------------------------------------- one step keeps it

  lemma InitialOk(c: Config)
    ensures Inv(c, INITIAL)
  {
  }

  /** The mailbox stays, or gains one message at an unused address. */
  predicate Grown(s: State, s': State, a: Addr, m: Msg) {
    s'.box == s.box || (a !in s.box && s'.box == s.box[a := m])
  }

  /** Fields the mailbox refers to are written once, and program counters do not go back past them. */
  predicate XExtends(x: Provisioner, x': Provisioner) {
    && (x.agreed.Some? ==> x'.agreed.Some? && x'.agreed.value.session == x.agreed.value.session)
    && (x.inner.Some? ==> x'.inner == x.inner && x'.tok == x.tok)
    && (x.link.Some? ==> x'.link == x.link)
    && (x.reported.Some? ==> x'.reported == x.reported)
    && (x.inner.Some? && !x.pc.XAgreed? && !x.pc.XLinkMade? ==> !x'.pc.XAgreed? && !x'.pc.XLinkMade?)
    && (x.pc.XFinished? || x.pc.XFailing? || x.pc.XStopped? ==> x'.pc.XFinished? || x'.pc.XFailing? || x'.pc.XStopped?)
  }

  predicate YExtends(y: Provisionee, y': Provisionee) {
    && (y.agreed.Some? ==> y'.agreed.Some? && y'.agreed.value.session == y.agreed.value.session)
    && (y.sig.Some? ==> y'.sig == y.sig)
    && (y.reported.Some? ==> y'.reported == y.reported)
    && (y.sig.Some? && !y.pc.YSigned? ==> !y'.pc.YSigned?)
  }

  lemma BoxKept(c: Config, s: State, s': State, a: Addr, m: Msg)
    requires BoxOk(c, s) && Grown(s, s', a, m) && XExtends(s.x, s'.x)
    requires YExtends(s.y, s'.y) && s.accepted <= s'.accepted
    requires s'.box != s.box ==> Usable(a.session) && MsgOk(c, s', a, m)
    ensures BoxOk(c, s')
  {
    forall b | b in s'.box ensures Usable(b.session) && MsgOk(c, s', b, s'.box[b]) {
      if b in s.box { assert MsgOk(c, s, b, s.box[b]); }
    }
  }

  lemma YFrame(c: Config, s: State, s': State, a: Addr, m: Msg)
    requires YOk(c, s) && s'.y == s.y && s'.disk == s.disk && Grown(s, s', a, m)
    ensures YOk(c, s')
  {
    assert forall b :: b in s.box ==> b in s'.box && s'.box[b] == s.box[b];
    if s.y.agreed.Some? { assert YEndpointOk(s', s.y.agreed.value); }
  }

  lemma XFrame(c: Config, s: State, s': State, a: Addr, m: Msg)
    requires XOk(c, s) && s'.x == s.x && YExtends(s.y, s'.y) && s.accepted == s'.accepted && Grown(s, s', a, m)
    ensures XOk(c, s')
  {
    if s.x.agreed.Some? { assert XEndpointOk(s', s.x.agreed.value); }
  }

  /** A step of the provisioner that keeps its own part of the invariant keeps all of it. */
  lemma XStepOk(c: Config, s: State, s': State, a: Addr, m: Msg)
    requires Inv(c, s) && s'.y == s.y && s'.disk == s.disk && Grown(s, s', a, m)
    requires XExtends(s.x, s'.x) && s.accepted <= s'.accepted && XOk(c, s') && AcceptedOk(c, s')
    requires s'.box != s.box ==> Usable(a.session) && MsgOk(c, s', a, m)
    ensures Inv(c, s')
  {
    YFrame(c, s, s', a, m);
    BoxKept(c, s, s', a, m);
  }

  /** The same for the provisionee. */
  lemma YStepOk(c: Config, s: State, s': State, a: Addr, m: Msg)
    requires Inv(c, s) && s'.x == s.x && s'.accepted == s.accepted && Grown(s, s', a, m)
    requires YExtends(s.y, s'.y) && YOk(c, s')
    requires s'.box != s.box ==> Usable(a.session) && MsgOk(c, s', a, m)
    ensures Inv(c, s')
  {
    XFrame(c, s, s', a, m);
    BoxKept(c, s, s', a, m);
  }

  // Provisioner

  lemma XSendStartOk(c: Config, s: State, o: Outcome)
    requires XOk(c, s) && s.x.pc.XInit?
    ensures var s' := DoXSendStart(s, o);
            XOk(c, s') && XExtends(s.x, s'.x) && MsgOk(c, s', Addr(OfX, X, s.x.mineSend), Start)
  {
  }

  lemma XAdoptOk(c: Config, s: State, e: Endpoint, m: Msg)
    requires XOk(c, s) && s.x.pc.XWaiting? && Usable(e.session) && (m.Hello? ==> m.key == c.keyY)
    requires e == Endpoint(e.session, e.mine, if e.mine then 1 else 0, 1) && (e.mine ==> e.session.OfX?)
    ensures XOk(c, DoXAdopt(s, e, m)) && XExtends(s.x, DoXAdopt(s, e, m).x)
  {
  }

  lemma XMakeLinkOk(c: Config, s: State, seqno: nat, tok: nat)
    requires XOk(c, s) && s.x.pc.XAgreed?
    ensures XOk(c, DoXMakeLink(c, s, seqno, tok)) && XExtends(s.x, DoXMakeLink(c, s, seqno, tok).x)
  {
  }

  lemma XSendLinkOk(c: Config, s: State, o: Outcome)
    requires XOk(c, s) && s.x.pc.XLinkMade? && s.x.inner.Some?
    ensures var m := PleaseSign(s.x.inner.value, s.x.tok);
            var a := Addr(s.x.agreed.value.session, X, s.x.agreed.value.send);
            var s' := DoXSend(s, m, o, XLinkSent);
            XOk(c, s') && XExtends(s.x, s'.x) && (Stores(s, a, o) ==> Usable(a.session) && MsgOk(c, s', a, m))
  {
  }

  lemma XReceiveSigOk(c: Config, s: State, m: Msg)
    requires XOk(c, s) && s.x.pc.XLinkSent? && s.x.inner.Some? && s.x.agreed.Some?
    requires m.OkSigned? ==> s.y.sig == Some(m.sig)
    ensures XOk(c, DoXReceiveSig(s, m)) && XExtends(s.x, DoXReceiveSig(s, m).x)
  {
  }

  lemma XSignOk(c: Config, s: State)
    requires XOk(c, s) && s.x.pc.XSigChecked? && s.x.ysig.Some?
    ensures XOk(c, DoXSign(c, s)) && XExtends(s.x, DoXSign(c, s).x)
  {
  }

  lemma XPostOk(c: Config, s: State, taken: bool, reply: bool)
    requires XOk(c, s) && AcceptedOk(c, s) && s.x.pc.XSigned? && s.x.link.Some?
    ensures var s' := DoXPost(s, taken, reply); XOk(c, s') && XExtends(s.x, s'.x) && AcceptedOk(c, s')
  {
  }

  lemma XSendDoneOk(c: Config, s: State, o: Outcome)
    requires XOk(c, s) && s.x.pc.XPosted?
    ensures var a := Addr(s.x.agreed.value.session, X, s.x.agreed.value.send);
            var s' := DoXSend(s, Done, o, XFinished);
            XOk(c, s') && XExtends(s.x, s'.x) && Usable(a.session) && MsgOk(c, s', a, Done)
  {
  }

  lemma XReportOk(c: Config, s: State, o: Outcome)
    requires XOk(c, s) && s.x.pc.XFailing?
    ensures XOk(c, DoXReport(s, o)) && XExtends(s.x, DoXReport(s, o).x)
    ensures s.x.agreed.Some? ==>
              var a := Addr(s.x.agreed.value.session, X, s.x.agreed.value.send);
              Stores(s, a, o) ==> Usable(a.session) && MsgOk(c, DoXReport(s, o), a, Error)
  {
  }

  lemma XStopOk(c: Config, s: State, pc: XPc)
    requires XOk(c, s) && !s.x.pc.XFinished? && (pc.XStopped? || (pc.XFailing? && XRunning(s.x)))
    ensures XOk(c, XWith(s, s.x.(pc := pc))) && XExtends(s.x, s.x.(pc := pc))
  {
  }

  // Provisionee

  lemma YSendHelloOk(c: Config, s: State, o: Outcome)
    requires YOk(c, s) && s.y.pc.YInit?
    ensures var s' := DoYSendHello(c, s, o);
            YOk(c, s') && YExtends(s.y, s'.y) && MsgOk(c, s', Addr(OfY, Y, s.y.mineSend), Hello(c.keyY))
  {
  }

  lemma YTypeOk(c: Config, s: State, session: Session, num: nat)
    requires YOk(c, s) && !s.y.pc.YInit? && s.y.typed.Idle?
    requires Receive(s, Y, session, num) == Some(Start) ==> session.OfX?
    ensures YOk(c, DoYType(s, session, num)) && YExtends(s.y, DoYType(s, session, num).y)
  {
  }

  lemma YTypedHelloOk(c: Config, s: State, o: Outcome)
    requires YOk(c, s) && s.y.typed.Started?
    ensures var a := Addr(s.y.typed.session, Y, 0);
            var s' := DoYTypedHello(c, s, s.y.typed.session, o);
            YOk(c, s') && YExtends(s.y, s'.y) && Usable(a.session) && MsgOk(c, s', a, Hello(c.keyY))
  {
    YFrame(c, s, s.(box := DoYTypedHello(c, s, s.y.typed.session, o).box), Addr(s.y.typed.session, Y, 0),
           Hello(c.keyY));
  }

  lemma YAdoptOk(c: Config, s: State, e: Endpoint, m: Msg, typed: Typed)
    requires YOk(c, s) && s.y.pc.YWaiting?
    requires m.PleaseSign? ==> Receive(s, Y, e.session, LinkNum(e.session)) == Some(m)
    requires e == if typed.Won? then Endpoint(OfX, false, 1, 2) else Endpoint(OfY, true, 1, 1)
    requires typed.Won? || typed == s.y.typed
    ensures YOk(c, DoYAdopt(s, e, m, typed)) && YExtends(s.y, DoYAdopt(s, e, m, typed).y)
  {
  }

  lemma YSaveRowOk(c: Config, s: State)
    requires YOk(c, s) && s.y.pc.YPut? && s.y.inner.Some?
    ensures YOk(c, DoYSaveRow(c, s)) && YExtends(s.y, DoYSaveRow(c, s).y)
  {
  }

  lemma YSignOk(c: Config, s: State)
    requires YOk(c, s) && s.y.pc.YStored? && s.y.inner.Some?
    ensures var y := s.y.(sig := Some(Sig(c.keyY, s.y.inner.value, [])), pc := YSigned);
            YOk(c, YWith(s, y)) && YExtends(s.y, y)
  {
  }

  lemma YSendOkOk(c: Config, s: State, o: Outcome)
    requires YOk(c, s) && s.y.pc.YSigned? && s.y.agreed.Some? && s.y.sig.Some?
    ensures var a := Addr(s.y.agreed.value.session, Y, s.y.agreed.value.send);
            var s' := DoYSend(s, OkSigned(s.y.sig.value), o, YSent);
            YOk(c, s') && YExtends(s.y, s'.y) && Usable(a.session) && MsgOk(c, s', a, OkSigned(s.y.sig.value))
  {
    var a, s' := Addr(s.y.agreed.value.session, Y, s.y.agreed.value.send),
      DoYSend(s, OkSigned(s.y.sig.value), o, YSent);
    YFrame(c, s, s.(box := s'.box), a, OkSigned(s.y.sig.value));
  }

  lemma YReceiveDoneOk(c: Config, s: State, m: Msg)
    requires YOk(c, s) && s.y.pc.YSent? && s.y.agreed.Some?
    requires var session := s.y.agreed.value.session;
             m.Done? ==> Receive(s, Y, session, LinkNum(session) + 1) == Some(m)
    ensures YOk(c, DoYReceiveDone(s, m)) && YExtends(s.y, DoYReceiveDone(s, m).y)
  {
  }

  lemma YReportOk(c: Config, s: State, o: Outcome)
    requires YOk(c, s) && s.y.pc.YFailing?
    ensures YOk(c, DoYReport(s, o)) && YExtends(s.y, DoYReport(s, o).y)
    ensures s.y.agreed.Some? ==>
              var a := Addr(s.y.agreed.value.session, Y, s.y.agreed.value.send);
              Usable(a.session) && MsgOk(c, DoYReport(s, o), a, Error)
  {
    if s.y.agreed.Some? {
      YFrame(c, s, s.(box := DoYReport(s, o).box), Addr(s.y.agreed.value.session, Y, s.y.agreed.value.send), Error);
    }
  }

  lemma YMoveOk(c: Config, s: State, pc: YPc, typed: Typed)
    requires YOk(c, s)
    requires || (&& !s.y.pc.YFinished? && typed == s.y.typed
                 && (pc.YStopped? || (YRunning(s.y) && pc.YFailing?) || (s.y.pc.YAgreed? && pc.YPut?)))
             || ((s.y.typed.Started? || s.y.typed.HelloSent?) && typed.Idle? && pc == s.y.pc)
    ensures YOk(c, YWith(s, s.y.(pc := pc, typed := typed))) && YExtends(s.y, s.y.(pc := pc, typed := typed))
  {
  }

  // Every step

  /** What can arrive under a number, whatever happened so far. */
  lemma ArrivingOk(c: Config, s: State, me: Party, session: Session, num: nat)
    requires BoxOk(c, s) && Receive(s, me, session, num).Some?
    ensures Usable(session) && MsgOk(c, s, Addr(session, me.Peer(), num), Receive(s, me, session, num).value)
  {
  }

  ghost predicate XFits(c: Config, s: State, s': State, at: Addr, m: Msg) {
    && s'.y == s.y && s'.disk == s.disk && Grown(s, s', at, m) && s.accepted <= s'.accepted
    && XExtends(s.x, s'.x) && XOk(c, s') && AcceptedOk(c, s')
    && (s'.box != s.box ==> Usable(at.session) && MsgOk(c, s', at, m))
  }

  ghost predicate YFits(c: Config, s: State, s': State, at: Addr, m: Msg) {
    && s'.x == s.x && s'.accepted == s.accepted && Grown(s, s', at, m)
    && YExtends(s.y, s'.y) && YOk(c, s')
    && (s'.box != s.box ==> Usable(at.session) && MsgOk(c, s', at, m))
  }

  predicate Posts(a: Action) {
    || a.XSendStart? || a.XSendLink? || a.XSendDone? || a.XReport?
    || a.YSendHello? || a.YTypedHello? || a.YSendOk? || a.YReport?
  }

  lemma XPostingFits(c: Config, s: State, a: Action) returns (at: Addr, m: Msg)
    requires XOk(c, s) && AcceptedOk(c, s) && DoX(c, s, a).Some? && Posts(a)
    ensures XFits(c, s, DoX(c, s, a).value, at, m)
  {
    var x := s.x;
    at := if x.agreed.Some? then Addr(x.agreed.value.session, X, x.agreed.value.send) else Addr(OfX, X, x.mineSend);
    match a {
      case XSendStart(o) => XSendStartOk(c, s, o); m := Start;
      case XSendLink(o) => XSendLinkOk(c, s, o); m := PleaseSign(x.inner.value, x.tok);
      case XSendDone(o) => XSendDoneOk(c, s, o); m := Done;
      case XReport(o) => XReportOk(c, s, o); m := Error;
    }
  }

  lemma XReceivingFits(c: Config, s: State, a: Action)
    requires XOk(c, s) && AcceptedOk(c, s) && BoxOk(c, s) && DoX(c, s, a).Some?
    requires a.XAdoptMine? || a.XAdoptTyped? || a.XReceiveSig?
    ensures XFits(c, s, DoX(c, s, a).value, Addr(OfX, X, 0), Start)
  {
    var x := s.x;
    match a {
      case XAdoptMine(num) =>
        ArrivingOk(c, s, X, OfX, num);
        XAdoptOk(c, s, Endpoint(OfX, true, x.mineSend, 1), Receive(s, X, OfX, num).value);
      case XAdoptTyped(session, num) =>
        ArrivingOk(c, s, X, session, num);
        XAdoptOk(c, s, Endpoint(session, false, 0, 1), Receive(s, X, session, num).value);
      case XReceiveSig(num) =>
        ArrivingOk(c, s, X, x.agreed.value.session, num);
        XReceiveSigOk(c, s, Receive(s, X, x.agreed.value.session, num).value);
    }
  }

  lemma XWorkingFits(c: Config, s: State, a: Action)
    requires XOk(c, s) && AcceptedOk(c, s) && DoX(c, s, a).Some?
    requires a.XMakeLink? || a.XSign? || a.XPost? || a.XFail? || a.XCrash?
    ensures XFits(c, s, DoX(c, s, a).value, Addr(OfX, X, 0), Start)
  {
    match a {
      case XMakeLink(seqno, tok) => XMakeLinkOk(c, s, seqno, tok);
      case XSign => XSignOk(c, s);
      case XPost(taken, reply) => XPostOk(c, s, taken, reply);
      case XFail => XStopOk(c, s, XFailing);
      case XCrash => XStopOk(c, s, XStopped);
    }
  }

  lemma XQuietFits(c: Config, s: State, a: Action)
    requires XOk(c, s) && AcceptedOk(c, s) && BoxOk(c, s) && DoX(c, s, a).Some? && !Posts(a)
    ensures XFits(c, s, DoX(c, s, a).value, Addr(OfX, X, 0), Start)
  {
    if a.XAdoptMine? || a.XAdoptTyped? || a.XReceiveSig? {
      XReceivingFits(c, s, a);
    } else {
      XWorkingFits(c, s, a);
    }
  }

  lemma YPostingFits(c: Config, s: State, a: Action) returns (at: Addr, m: Msg)
    requires YOk(c, s) && DoY(c, s, a).Some? && Posts(a)
    ensures YFits(c, s, DoY(c, s, a).value, at, m)
  {
    var y := s.y;
    at := if y.agreed.Some? then Addr(y.agreed.value.session, Y, y.agreed.value.send) else Addr(OfY, Y, y.mineSend);
    match a {
      case YSendHello(o) => YSendHelloOk(c, s, o); m := Hello(c.keyY);
      case YTypedHello(o) => YTypedHelloOk(c, s, o); at, m := Addr(y.typed.session, Y, 0), Hello(c.keyY);
      case YSendOk(o) => YSendOkOk(c, s, o); m := OkSigned(y.sig.value);
      case YReport(o) => YReportOk(c, s, o); m := Error;
    }
  }

  lemma YAdoptingFits(c: Config, s: State, a: Action)
    requires YOk(c, s) && BoxOk(c, s) && DoY(c, s, a).Some? && (a.YAdoptMine? || a.YAdoptTyped?)
    ensures YFits(c, s, DoY(c, s, a).value, Addr(OfY, Y, 0), Hello(c.keyY))
  {
    var y := s.y;
    if a.YAdoptMine? {
      ArrivingOk(c, s, Y, OfY, a.num);
      YAdoptOk(c, s, Endpoint(OfY, true, y.mineSend, 1), Receive(s, Y, OfY, a.num).value, y.typed);
    } else {
      ArrivingOk(c, s, Y, y.typed.session, a.num);
      YAdoptOk(c, s, Endpoint(y.typed.session, false, 1, 2), Receive(s, Y, y.typed.session, a.num).value, Won);
    }
  }

  lemma YHearingFits(c: Config, s: State, a: Action)
    requires YOk(c, s) && BoxOk(c, s) && DoY(c, s, a).Some? && (a.YType? || a.YReceiveDone?)
    ensures YFits(c, s, DoY(c, s, a).value, Addr(OfY, Y, 0), Hello(c.keyY))
  {
    if a.YType? {
      if Receive(s, Y, a.session, a.num).Some? { ArrivingOk(c, s, Y, a.session, a.num); }
      YTypeOk(c, s, a.session, a.num);
    } else {
      var session := s.y.agreed.value.session;
      ArrivingOk(c, s, Y, session, a.num);
      YReceiveDoneOk(c, s, Receive(s, Y, session, a.num).value);
    }
  }

  lemma YWorkingFits(c: Config, s: State, a: Action)
    requires YOk(c, s) && DoY(c, s, a).Some?
    requires a.YRetry? || a.YPutRow? || a.YSaveRow? || a.YSign? || a.YFail? || a.YCrash?
    ensures YFits(c, s, DoY(c, s, a).value, Addr(OfY, Y, 0), Hello(c.keyY))
  {
    var y := s.y;
    match a {
      case YRetry => YMoveOk(c, s, y.pc, Idle);
      case YPutRow => YMoveOk(c, s, YPut, y.typed);
      case YSaveRow => YSaveRowOk(c, s);
      case YSign => YSignOk(c, s);
      case YFail => YMoveOk(c, s, YFailing, y.typed);
      case YCrash => YMoveOk(c, s, YStopped, y.typed);
    }
  }

  lemma YQuietFits(c: Config, s: State, a: Action)
    requires YOk(c, s) && BoxOk(c, s) && DoY(c, s, a).Some? && !Posts(a)
    ensures YFits(c, s, DoY(c, s, a).value, Addr(OfY, Y, 0), Hello(c.keyY))
  {
    if a.YAdoptMine? || a.YAdoptTyped? {
      YAdoptingFits(c, s, a);
    } else if a.YType? || a.YReceiveDone? {
      YHearingFits(c, s, a);
    } else {
      YWorkingFits(c, s, a);
    }
  }

  lemma XStepKeepsInv(c: Config, s: State, a: Action)
    requires Inv(c, s) && DoX(c, s, a).Some?
    ensures Inv(c, DoX(c, s, a).value)
  {
    var at, m := Addr(OfX, X, 0), Start;
    if Posts(a) { at, m := XPostingFits(c, s, a); } else { XQuietFits(c, s, a); }
    XStepOk(c, s, DoX(c, s, a).value, at, m);
  }

  lemma YStepKeepsInv(c: Config, s: State, a: Action)
    requires Inv(c, s) && DoY(c, s, a).Some?
    ensures Inv(c, DoY(c, s, a).value)
  {
    var at, m := Addr(OfY, Y, 0), Hello(c.keyY);
    if Posts(a) { at, m := YPostingFits(c, s, a); } else { YQuietFits(c, s, a); }
    YStepOk(c, s, DoY(c, s, a).value, at, m);
  }

  /** Every step of either side, of the network, of the user and of the server keeps the invariant. */
  lemma StepKeepsInv(c: Config, s: State, a: Action)
    requires Inv(c, s) && Do(c, s, a).Some?
    ensures Inv(c, Do(c, s, a).value)
  {
    if a.ServerTakes? {
      XStepOk(c, s, Do(c, s, a).value, Addr(OfX, X, 0), Start);
    } else if DoX(c, s, a).Some? {
      XStepKeepsInv(c, s, a);
    } else {
      YStepKeepsInv(c, s, a);
    }
  }

  // --------------------------------------------------------------- main results

  /** A run: any interleaving of steps from the start. */
  ghost predicate Run(c: Config, ss: seq<State>, acts: seq<Action>) {
    && |ss| == |acts| + 1 && ss[0] == INITIAL
    && forall i {:trigger acts[i]} :: 0 <= i < |acts| ==> Do(c, ss[i], acts[i]) == Some(ss[i + 1])
  }

  lemma {:induction false} RunKeepsInv(c: Config, ss: seq<State>, acts: seq<Action>, n: nat)
    requires Run(c, ss, acts) && n < |ss|
    ensures Inv(c, ss[n])
  {
    if n == 0 {
      InitialOk(c);
    } else {
      RunKeepsInv(c, ss, acts, n - 1);
      assert Do(c, ss[n - 1], acts[n - 1]) == Some(ss[n - 1 + 1]);
      StepKeepsInv(c, ss[n - 1], acts[n - 1]);
    }
  }

  /**
   Crash safety. Whenever the server has taken a link for the new device, the new
   device has its key on disk, with the user, host and role of that same link.
   Crashes are steps, so this holds after any crash of either side.
   */
  lemma AcceptedLinkHasRow(c: Config, ss: seq<State>, acts: seq<Action>, n: nat, l: Link)
    requires Run(c, ss, acts) && n < |ss| && l in ss[n].accepted && l.inner.newKey == c.keyY
    ensures exists row :: row in ss[n].disk && row.key == c.keyY
                          && row.user == l.inner.user && row.host == l.inner.host && row.role == l.inner.role
    ensures DoublySigned(l)
  {
    RunKeepsInv(c, ss, acts, n);
    var s := ss[n];
    assert RowFor(c, s.y.inner.value, s.y.tok) in s.disk;
  }

  /** The row also has the token that the provisioner posts along with the link. */
  lemma AcceptedLinkHasRowWithToken(c: Config, ss: seq<State>, acts: seq<Action>, n: nat)
    requires Run(c, ss, acts) && n < |ss| && ss[n].x.link.Some?
    ensures ss[n].x.inner.Some? && RowFor(c, ss[n].x.inner.value, ss[n].x.tok) in ss[n].disk
  {
    RunKeepsInv(c, ss, acts, n);
    var s := ss[n];
    SessionsAgreeIn(c, s);
  }

  /** Whoever settles on a session settles on the peer's, and both hold the same link. */
  lemma SessionsAgreeIn(c: Config, s: State)
    requires Inv(c, s) && s.y.agreed.Some?
    ensures s.x.agreed.Some? && s.x.agreed.value.session == s.y.agreed.value.session
    ensures s.x.inner == s.y.inner && s.x.tok == s.y.tok
  {
    var session := s.y.agreed.value.session;
    var a := Addr(session, X, LinkNum(session));
    assert a in s.box && MsgOk(c, s, a, s.box[a]);
  }

  /** Channel agreement, for every interleaving and whatever secrets the user types where. */
  lemma ChannelsAgree(c: Config, ss: seq<State>, acts: seq<Action>, n: nat)
    requires Run(c, ss, acts) && n < |ss| && ss[n].y.agreed.Some?
    ensures ss[n].x.agreed.Some? && ss[n].x.agreed.value.session == ss[n].y.agreed.value.session
    ensures ss[n].x.inner == ss[n].y.inner && ss[n].x.tok == ss[n].y.tok
  {
    RunKeepsInv(c, ss, acts, n);
    SessionsAgreeIn(c, ss[n]);
  }

  /** A provisionee that finishes was provisioned: its own link, doubly signed, is on the server. */
  lemma FinishedIsProvisioned(c: Config, ss: seq<State>, acts: seq<Action>, n: nat)
    requires Run(c, ss, acts) && n < |ss| && ss[n].y.pc.YFinished?
    ensures ss[n].y.inner.Some?
    ensures exists l :: l in ss[n].accepted && l.inner == ss[n].y.inner.value && DoublySigned(l)
                        && l.inner.newKey == c.keyY && l.inner.existing == c.keyX
  {
    RunKeepsInv(c, ss, acts, n);
    var s := ss[n];
    SessionsAgreeIn(c, s);
    var session := s.y.agreed.value.session;
    var a := Addr(session, X, LinkNum(session) + 1);
    assert a in s.box && MsgOk(c, s, a, s.box[a]);
    assert s.x.link.value in s.accepted;
  }

  /** Each side reports at most one error, and none after having been told of one. */
  lemma OneErrorEach(c: Config, ss: seq<State>, acts: seq<Action>, n: nat, a: Addr, b: Addr)
    requires Run(c, ss, acts) && n < |ss| && a in ss[n].box && ss[n].box[a].Error?
    ensures b in ss[n].box && ss[n].box[b].Error? && b.sender == a.sender ==> a == b
    ensures if a.sender == X then !ss[n].x.gotError else !ss[n].y.gotError
  {
    RunKeepsInv(c, ss, acts, n);
    assert MsgOk(c, ss[n], a, ss[n].box[a]);
    if b in ss[n].box { assert MsgOk(c, ss[n], b, ss[n].box[b]); }
  }

  /** The message type a side waits for next on its agreed session. */
  predicate Expects(s: State, p: Party, session: Session, num: nat, m: Msg) {
    if p == X then
      || (s.x.pc.XWaiting? && session.OfX? && num == 0 && m.Hello?)
      || (&& s.x.pc.XLinkSent? && m.OkSigned? && s.x.agreed.Some?
          && s.x.agreed.value.session == session && s.x.agreed.value.recv == num)
    else
      || (s.y.pc.YWaiting? && session.OfY? && num == 0 && m.PleaseSign?)
      || (s.y.pc.YWaiting? && s.y.typed.HelloSent? && s.y.typed.session == session && num == 1 && m.PleaseSign?)
      || (&& s.y.pc.YSent? && m.Done? && s.y.agreed.Some?
          && s.y.agreed.value.session == session && s.y.agreed.value.recv == num)
  }

  /** Where a side waits, some type of message is expected, and it is never the wrong one that arrives. */
  lemma NeverTheWrongMessage(c: Config, ss: seq<State>, acts: seq<Action>, n: nat, p: Party, session: Session,
                             num: nat, e: Msg)
    requires Run(c, ss, acts) && n < |ss| && Expects(ss[n], p, session, num, e)
    requires Receive(ss[n], p, session, num).Some?
    ensures var m := Receive(ss[n], p, session, num).value; m.Error? || Expects(ss[n], p, session, num, m)
  {
    RunKeepsInv(c, ss, acts, n);
    ArrivingOk(c, ss[n], p, session, num);
  }
}
