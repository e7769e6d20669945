/**
 When the message numbers of a key exchange are in step (client/libclient/kex.go). A
 sender spends a number whether or not the Send works, so a lost message leaves a hole
 in the numbers of its session, which matters from the moment the sender posts again.
 */
module KexAlignment {
  import opened Common
  import opened Kex

  // ------------------------------------------------------- sequence alignment

  /** How many messages a side has sent on a session, going by its counters. */
  function Count(s: State, session: Session, p: Party): (n: nat) {
    match (p, session)
    case (X, OfX) => if s.x.agreed.Some? && s.x.agreed.value.mine then s.x.agreed.value.send else s.x.mineSend
    case (X, OfY) => if s.x.agreed.Some? && s.x.agreed.value.session.OfY? then s.x.agreed.value.send else 0
    case (Y, OfY) => if s.y.agreed.Some? && s.y.agreed.value.mine then s.y.agreed.value.send else s.y.mineSend
    case (Y, OfX) =>
      if s.y.agreed.Some? && !s.y.agreed.value.mine then s.y.agreed.value.send
      else if Addr(OfX, Y, 0) in s.box then 1 else 0
    case _ => 0
  }

  /** The numbers in use on a session are exactly the first ones, as many as were sent. */
  ghost predicate Consecutive(s: State) {
    forall a :: a in s.box <==> a.num < Count(s, a.session, a.sender)
  }

  /** What must have arrived for a side to be where it is. */
  ghost predicate Arrived(s: State) {
    && (s.y.typed.HelloSent? ==> Addr(OfX, Y, 0) in s.box)
    && (s.y.typed.Started? || s.y.typed.HelloSent? ==> Addr(OfX, X, 0) in s.box)
    && (s.x.agreed.Some? ==> Addr(s.x.agreed.value.session, Y, 0) in s.box)
    && (s.y.typed.Won? ==> Addr(OfX, Y, 0) in s.box)
  }

  /** A provisioner given its own secret has not yet tried to send under it. */
  ghost predicate OwnSecretUnused(s: State) {
    s.x.agreed.Some? && !s.x.agreed.value.mine && s.x.agreed.value.session.OfX? ==> s.x.agreed.value.send == 0
  }

  ghost predicate Aligned(s: State) {
    !s.sendFailed ==> Consecutive(s) && Arrived(s) && OwnSecretUnused(s)
  }

  lemma SendOneMore(s: State, s': State, at: Addr)
    requires Consecutive(s) && at.num == Count(s, at.session, at.sender) && s'.box.Keys == s.box.Keys + {at}
    requires Count(s', at.session, at.sender) == at.num + 1
    requires forall session, p :: session != at.session || p != at.sender ==>
              Count(s', session, p) == Count(s, session, p)
    ensures Consecutive(s')
  {
  }

  lemma XSendAligned(c: Config, s: State, m: Msg, o: Outcome, next: XPc)
    requires XOk(c, s) && Aligned(s) && s.x.agreed.Some?
    ensures Aligned(DoXSend(s, m, o, next))
  {
    var e, s' := s.x.agreed.value, DoXSend(s, m, o, next);
    if !s'.sendFailed {
      assert Addr(e.session, X, e.send) !in s.box;
      SendOneMore(s, s', Addr(e.session, X, e.send));
    }
  }

  lemma XStartAligned(c: Config, s: State, o: Outcome)
    requires XOk(c, s) && Aligned(s) && s.x.pc.XInit?
    ensures Aligned(DoXSendStart(s, o))
  {
    var s' := DoXSendStart(s, o);
    if !s'.sendFailed { SendOneMore(s, s', Addr(OfX, X, 0)); }
  }

  /** A report is a send that stops the run. */
  lemma XReportAligned(c: Config, s: State, o: Outcome)
    requires XOk(c, s) && Aligned(s)
    ensures Aligned(DoXReport(s, o))
  {
    if s.x.agreed.Some? {
      XSendAligned(c, s, Error, o, XStopped);
      NoSendAligned(DoXSend(s, Error, o, XStopped), DoXReport(s, o));
    } else {
      NoSendAligned(s, DoXReport(s, o));
    }
  }

  lemma XPostingAligned(c: Config, s: State, a: Action)
    requires XOk(c, s) && Aligned(s) && DoX(c, s, a).Some? && Posts(a)
    ensures Aligned(DoX(c, s, a).value)
  {
    match a {
      case XSendStart(o) => XStartAligned(c, s, o);
      case XSendLink(o) => XSendAligned(c, s, PleaseSign(s.x.inner.value, s.x.tok), o, XLinkSent);
      case XSendDone(o) => XSendAligned(c, s, Done, o, XFinished);
      case XReport(o) => XReportAligned(c, s, o);
    }
  }

  lemma YSendAligned(c: Config, s: State, m: Msg, o: Outcome, next: YPc)
    requires YOk(c, s) && Aligned(s) && s.y.agreed.Some?
    ensures Aligned(DoYSend(s, m, o, next))
  {
    var e, s' := s.y.agreed.value, DoYSend(s, m, o, next);
    if !s'.sendFailed { SendOneMore(s, s', Addr(e.session, Y, e.send)); }
  }

  lemma YHelloAligned(c: Config, s: State, o: Outcome)
    requires YOk(c, s) && Aligned(s) && s.y.pc.YInit?
    ensures Aligned(DoYSendHello(c, s, o))
  {
    var s' := DoYSendHello(c, s, o);
    if !s'.sendFailed { SendOneMore(s, s', Addr(OfY, Y, 0)); }
  }

  lemma YReportAligned(c: Config, s: State, o: Outcome)
    requires YOk(c, s) && Aligned(s)
    ensures Aligned(DoYReport(s, o))
  {
    if s.y.agreed.Some? {
      YSendAligned(c, s, Error, o, YStopped);
      NoSendAligned(DoYSend(s, Error, o, YStopped), DoYReport(s, o));
    } else {
      NoSendAligned(s, DoYReport(s, o));
    }
  }

  lemma YPostingAligned(c: Config, s: State, a: Action)
    requires YOk(c, s) && Aligned(s) && DoY(c, s, a).Some? && Posts(a)
    ensures Aligned(DoY(c, s, a).value)
  {
    match a {
      case YSendHello(o) => YHelloAligned(c, s, o);
      case YTypedHello(o) => YTypedHelloAligned(c, s, o);
      case YSendOk(o) => YSendAligned(c, s, OkSigned(s.y.sig.value), o, YSent);
      case YReport(o) => YReportAligned(c, s, o);
    }
  }

  lemma YTypedHelloAligned(c: Config, s: State, o: Outcome)
    requires YOk(c, s) && Aligned(s) && s.y.typed.Started?
    ensures Aligned(DoYTypedHello(c, s, s.y.typed.session, o))
  {
    var s' := DoYTypedHello(c, s, s.y.typed.session, o);
    if !s'.sendFailed {
      SendOneMore(s, s', Addr(OfX, Y, 0));
    }
  }

  /** The same endpoint, perhaps after a receive. */
  predicate SameSends(e: Option<Endpoint>, e': Option<Endpoint>) {
    e.Some? == e'.Some? && (e.Some? ==> e'.value == e.value.(recv := e'.value.recv))
  }

  lemma NoSendAligned(s: State, s': State)
    requires Aligned(s) && s'.box == s.box && s'.sendFailed == s.sendFailed
    requires s'.x.mineSend == s.x.mineSend && SameSends(s.x.agreed, s'.x.agreed)
    requires s'.y.mineSend == s.y.mineSend && SameSends(s.y.agreed, s'.y.agreed)
    requires s'.y.typed == s.y.typed || s'.y.typed.Idle? || (s'.y.typed.Started? && Addr(OfX, X, 0) in s.box)
    ensures Aligned(s')
  {
    assert forall session, p :: Count(s', session, p) == Count(s, session, p);
  }

  /** A step that changes nothing the counters depend on, by the provisioner. */
  lemma XIdleAligned(s: State, s': State)
    requires Aligned(s) && s' == s.(x := s'.x, accepted := s'.accepted)
    requires s'.x.mineSend == s.x.mineSend && SameSends(s.x.agreed, s'.x.agreed)
    ensures Aligned(s')
  {
    NoSendAligned(s, s');
  }

  /** And by the provisionee. */
  lemma YIdleAligned(s: State, s': State)
    requires Aligned(s) && s' == s.(y := s'.y, disk := s'.disk)
    requires s'.y.mineSend == s.y.mineSend && SameSends(s.y.agreed, s'.y.agreed)
    requires s'.y.typed == s.y.typed || s'.y.typed.Idle?
    ensures Aligned(s')
  {
    NoSendAligned(s, s');
  }

  lemma XAdoptAligned(s: State, e: Endpoint, m: Msg)
    requires Aligned(s) && s.x.agreed.None? && (m.Hello? ==> Addr(e.session, Y, 0) in s.box)
    requires e == Endpoint(e.session, e.mine, if e.mine then s.x.mineSend else 0, 1) && (e.mine ==> e.session.OfX?)
    ensures Aligned(DoXAdopt(s, e, m))
  {
    if m.Hello? {
      assert forall session, p :: Count(DoXAdopt(s, e, m), session, p) == Count(s, session, p);
    } else {
      XIdleAligned(s, DoXAdopt(s, e, m));
    }
  }

  lemma XReceiveSigAligned(s: State, m: Msg)
    requires Aligned(s) && s.x.agreed.Some? && s.x.inner.Some? && s.x.hello.Some?
    ensures Aligned(DoXReceiveSig(s, m))
  {
    XIdleAligned(s, DoXReceiveSig(s, m));
  }

  lemma XReceivingAligned(c: Config, s: State, a: Action)
    requires XOk(c, s) && BoxOk(c, s) && Aligned(s) && DoX(c, s, a).Some?
    requires a.XAdoptMine? || a.XAdoptTyped? || a.XReceiveSig?
    ensures Aligned(DoX(c, s, a).value)
  {
    match a {
      case XAdoptMine(num) =>
        ArrivingOk(c, s, X, OfX, num);
        XAdoptAligned(s, Endpoint(OfX, true, s.x.mineSend, 1), Receive(s, X, OfX, num).value);
      case XAdoptTyped(session, num) =>
        ArrivingOk(c, s, X, session, num);
        XAdoptAligned(s, Endpoint(session, false, 0, 1), Receive(s, X, session, num).value);
      case XReceiveSig(num) =>
        XReceiveSigAligned(s, Receive(s, X, s.x.agreed.value.session, num).value);
    }
  }

  lemma XWorkingAligned(c: Config, s: State, a: Action)
    requires Aligned(s) && DoX(c, s, a).Some?
    requires a.XMakeLink? || a.XSign? || a.XPost? || a.XFail? || a.XCrash?
    ensures Aligned(DoX(c, s, a).value)
  {
    match a {
      case XMakeLink(seqno, tok) => XIdleAligned(s, DoXMakeLink(c, s, seqno, tok));
      case XSign => XIdleAligned(s, DoXSign(c, s));
      case XPost(taken, reply) => XIdleAligned(s, DoXPost(s, taken, reply));
      case XFail => XIdleAligned(s, XWith(s, s.x.(pc := XFailing)));
      case XCrash => XIdleAligned(s, XWith(s, s.x.(pc := XStopped)));
    }
  }

  lemma YAdoptAligned(s: State, e: Endpoint, m: Msg, typed: Typed)
    requires Aligned(s) && s.y.agreed.None?
    requires e == (if typed.Won? then Endpoint(OfX, false, 1, 2) else Endpoint(OfY, true, s.y.mineSend, 1))
    requires if typed.Won? then s.y.typed.HelloSent? else typed == s.y.typed
    ensures Aligned(DoYAdopt(s, e, m, typed))
  {
    if m.PleaseSign? {
      assert !s.sendFailed ==> forall session, p :: Count(DoYAdopt(s, e, m, typed), session, p) == Count(s, session, p);
    } else {
      YIdleAligned(s, DoYAdopt(s, e, m, typed));
    }
  }

  lemma YTypeAligned(c: Config, s: State, session: Session, num: nat)
    requires BoxOk(c, s) && Aligned(s) && s.y.typed.Idle?
    ensures Aligned(DoYType(s, session, num))
  {
    if Receive(s, Y, session, num).Some? { ArrivingOk(c, s, Y, session, num); }
    NoSendAligned(s, DoYType(s, session, num));
  }

  lemma YReceiveDoneAligned(s: State, m: Msg)
    requires Aligned(s) && s.y.agreed.Some?
    ensures Aligned(DoYReceiveDone(s, m))
  {
    YIdleAligned(s, DoYReceiveDone(s, m));
  }

  lemma YReceivingAligned(c: Config, s: State, a: Action)
    requires YOk(c, s) && BoxOk(c, s) && Aligned(s) && DoY(c, s, a).Some?
    requires a.YType? || a.YAdoptMine? || a.YAdoptTyped? || a.YReceiveDone?
    ensures Aligned(DoY(c, s, a).value)
  {
    match a {
      case YType(session, num) => YTypeAligned(c, s, session, num);
      case YAdoptMine(num) =>
        YAdoptAligned(s, Endpoint(OfY, true, s.y.mineSend, 1), Receive(s, Y, OfY, num).value, s.y.typed);
      case YAdoptTyped(num) =>
        YAdoptAligned(s, Endpoint(s.y.typed.session, false, 1, 2), Receive(s, Y, s.y.typed.session, num).value, Won);
      case YReceiveDone(num) => YReceiveDoneAligned(s, Receive(s, Y, s.y.agreed.value.session, num).value);
    }
  }

  lemma YWorkingAligned(c: Config, s: State, a: Action)
    requires Aligned(s) && DoY(c, s, a).Some?
    requires a.YRetry? || a.YPutRow? || a.YSaveRow? || a.YSign? || a.YFail? || a.YCrash?
    ensures Aligned(DoY(c, s, a).value)
  {
    match a {
      case YRetry => YIdleAligned(s, YWith(s, s.y.(typed := Idle)));
      case YPutRow => YIdleAligned(s, YWith(s, s.y.(pc := YPut)));
      case YSaveRow => YIdleAligned(s, DoYSaveRow(c, s));
      case YSign => YIdleAligned(s, YWith(s, s.y.(sig := Some(Sig(c.keyY, s.y.inner.value, [])), pc := YSigned)));
      case YFail => YIdleAligned(s, YWith(s, s.y.(pc := YFailing)));
      case YCrash => YIdleAligned(s, YWith(s, s.y.(pc := YStopped)));
    }
  }

  lemma XQuietAligned(c: Config, s: State, a: Action)
    requires XOk(c, s) && BoxOk(c, s) && Aligned(s) && DoX(c, s, a).Some? && !Posts(a)
    ensures Aligned(DoX(c, s, a).value)
  {
    if a.XAdoptMine? || a.XAdoptTyped? || a.XReceiveSig? {
      XReceivingAligned(c, s, a);
    } else {
      XWorkingAligned(c, s, a);
    }
  }

  lemma YQuietAligned(c: Config, s: State, a: Action)
    requires YOk(c, s) && BoxOk(c, s) && Aligned(s) && DoY(c, s, a).Some? && !Posts(a)
    ensures Aligned(DoY(c, s, a).value)
  {
    if a.YType? || a.YAdoptMine? || a.YAdoptTyped? || a.YReceiveDone? {
      YReceivingAligned(c, s, a);
    } else {
      YWorkingAligned(c, s, a);
    }
  }

  lemma StepAligned(c: Config, s: State, a: Action)
    requires Inv(c, s) && Aligned(s) && Do(c, s, a).Some?
    ensures Aligned(Do(c, s, a).value)
  {
    if a.ServerTakes? {
      NoSendAligned(s, Do(c, s, a).value);
    } else if DoX(c, s, a).Some? {
      if Posts(a) { XPostingAligned(c, s, a); } else { XQuietAligned(c, s, a); }
    } else {
      if Posts(a) { YPostingAligned(c, s, a); } else { YQuietAligned(c, s, a); }
    }
  }

  lemma {:induction false} RunIsAligned(c: Config, ss: seq<State>, acts: seq<Action>, n: nat)
    requires Run(c, ss, acts) && n < |ss|
    ensures Aligned(ss[n])
  {
    if n > 0 {
      RunIsAligned(c, ss, acts, n - 1);
      RunKeepsInv(c, ss, acts, n - 1);
      StepAligned(c, ss[n - 1], acts[n - 1]);
    }
  }

  /**
   Sequence alignment: as long as no Send has failed, the numbers used on a session
   are consecutive from 0, and a side that is still waiting waits for exactly the
   number its peer will use next.
   */
  lemma NumbersAreAligned(c: Config, ss: seq<State>, acts: seq<Action>, n: nat, p: Party, session: Session, num: nat,
                          m: Msg)
    requires Run(c, ss, acts) && n < |ss| && !ss[n].sendFailed
    ensures Consecutive(ss[n])
    ensures Expects(ss[n], p, session, num, m) && Receive(ss[n], p, session, num).None? ==>
              Count(ss[n], session, p.Peer()) == num
  {
    RunIsAligned(c, ss, acts, n);
    RunKeepsInv(c, ss, acts, n);
    var s := ss[n];
    assert Addr(session, p.Peer(), num) in s.box <==> num < Count(s, session, p.Peer());
    if Expects(s, p, session, num, m) && num > 0 {
      assert Addr(session, p.Peer(), num - 1) in s.box;
    }
  }

  // ------------------------------------------------------ the exact condition

  /** Where a step posts, if it posts. */
  function Address(s: State, a: Action): (at: Option<Addr>) {
    match a
    case XSendStart(_) => Some(Addr(OfX, X, s.x.mineSend))
    case XSendLink(_) => OnAgreed(s.x.agreed, X)
    case XSendDone(_) => OnAgreed(s.x.agreed, X)
    case XReport(_) => OnAgreed(s.x.agreed, X)
    case YSendHello(_) => Some(Addr(OfY, Y, s.y.mineSend))
    case YTypedHello(_) => if s.y.typed.Started? then Some(Addr(s.y.typed.session, Y, 0)) else None
    case YSendOk(_) => OnAgreed(s.y.agreed, Y)
    case YReport(_) => OnAgreed(s.y.agreed, Y)
    case _ => None
  }

  function OnAgreed(e: Option<Endpoint>, p: Party): (at: Option<Addr>) {
    if e.Some? then Some(Addr(e.value.session, p, e.value.send)) else None
  }

  /** The step puts its message into the mailbox. */
  predicate Posted(s: State, a: Action, at: Addr) {
    Address(s, a) == Some(at) && Posts(a) && Stores(s, at, a.o)
  }

  /** Every number below this one has been tried on its session by its sender. */
  ghost predicate TriedBelow(tried: set<Addr>, session: Session, p: Party, n: nat) {
    forall k: nat :: k < n ==> Addr(session, p, k) in tried
  }

  /** Each counter stands above numbers that have all been tried, and so does each message. */
  ghost predicate TriedOk(s: State, tried: set<Addr>) {
    && TriedBelow(tried, OfX, X, s.x.mineSend) && TriedBelow(tried, OfY, Y, s.y.mineSend)
    && (s.x.agreed.Some? ==> TriedBelow(tried, s.x.agreed.value.session, X, s.x.agreed.value.send))
    && (s.y.agreed.Some? ==> TriedBelow(tried, s.y.agreed.value.session, Y, s.y.agreed.value.send))
    && (s.y.typed.HelloSent? ==> Addr(s.y.typed.session, Y, 0) in tried)
  }

  /** The addresses tried, after one more step. */
  function AlsoTried(s: State, a: Action, tried: set<Addr>): (t: set<Addr>) {
    tried + if Address(s, a).Some? then {Address(s, a).value} else {}
  }

  /** A step posts at most under its address, below which everything has been tried. */
  ghost predicate Tries(s: State, a: Action, s': State, tried: set<Addr>) {
    && TriedOk(s', AlsoTried(s, a, tried))
    && match Address(s, a)
       case None => s'.box.Keys == s.box.Keys
       case Some(at) => && TriedBelow(tried, at.session, at.sender, at.num)
                        && s'.box.Keys == s.box.Keys + if Posted(s, a, at) then {at} else {}
  }

  lemma XPostTries(c: Config, s: State, a: Action, tried: set<Addr>)
    requires TriedOk(s, tried) && DoX(c, s, a).Some? && Posts(a)
    ensures Tries(s, a, DoX(c, s, a).value, tried)
  {
  }

  lemma YPostTries(c: Config, s: State, a: Action, tried: set<Addr>)
    requires TriedOk(s, tried) && DoY(c, s, a).Some? && Posts(a)
    ensures Tries(s, a, DoY(c, s, a).value, tried)
  {
  }

  /** A step that touches neither counters nor mailbox. */
  lemma IdleTries(s: State, a: Action, s': State, tried: set<Addr>)
    requires TriedOk(s, tried) && Address(s, a).None? && s'.box == s.box
    requires s'.x.mineSend == s.x.mineSend && SameSends(s.x.agreed, s'.x.agreed)
    requires s'.y.mineSend == s.y.mineSend && SameSends(s.y.agreed, s'.y.agreed)
    requires s'.y.typed.HelloSent? ==> s'.y.typed == s.y.typed
    ensures Tries(s, a, s', tried)
  {
  }

  /** Adopting a session takes over a counter, or starts one at numbers already tried. */
  lemma XAdoptTries(c: Config, s: State, a: Action, tried: set<Addr>)
    requires TriedOk(s, tried) && DoX(c, s, a).Some? && (a.XAdoptMine? || a.XAdoptTyped?)
    ensures Tries(s, a, DoX(c, s, a).value, tried)
  {
  }

  lemma YAdoptTries(c: Config, s: State, a: Action, tried: set<Addr>)
    requires TriedOk(s, tried) && DoY(c, s, a).Some? && (a.YAdoptMine? || a.YAdoptTyped?)
    ensures Tries(s, a, DoY(c, s, a).value, tried)
  {
  }

  lemma XQuietTries(c: Config, s: State, a: Action, tried: set<Addr>)
    requires TriedOk(s, tried) && DoX(c, s, a).Some? && !Posts(a)
    ensures Tries(s, a, DoX(c, s, a).value, tried)
  {
    if a.XAdoptMine? || a.XAdoptTyped? {
      XAdoptTries(c, s, a, tried);
    } else {
      IdleTries(s, a, DoX(c, s, a).value, tried);
    }
  }

  lemma YQuietTries(c: Config, s: State, a: Action, tried: set<Addr>)
    requires TriedOk(s, tried) && DoY(c, s, a).Some? && !Posts(a)
    ensures Tries(s, a, DoY(c, s, a).value, tried)
  {
    if a.YAdoptMine? || a.YAdoptTyped? {
      YAdoptTries(c, s, a, tried);
    } else {
      IdleTries(s, a, DoY(c, s, a).value, tried);
    }
  }

  lemma StepTries(c: Config, s: State, a: Action, tried: set<Addr>)
    requires TriedOk(s, tried) && Do(c, s, a).Some?
    ensures Tries(s, a, Do(c, s, a).value, tried)
  {
    if a.ServerTakes? {
    } else if DoX(c, s, a).Some? {
      if Posts(a) { XPostTries(c, s, a, tried); } else { XQuietTries(c, s, a, tried); }
    } else {
      if Posts(a) { YPostTries(c, s, a, tried); } else { YQuietTries(c, s, a, tried); }
    }
  }

  /** All addresses tried in the first `n` steps. */
  ghost function TriedUpTo(ss: seq<State>, acts: seq<Action>, n: nat): (t: set<Addr>)
    requires n <= |acts| && n <= |ss|
  {
    if n == 0 then {} else AlsoTried(ss[n - 1], acts[n - 1], TriedUpTo(ss, acts, n - 1))
  }

  lemma {:induction false} TriedAtSomeStep(ss: seq<State>, acts: seq<Action>, n: nat, at: Addr) returns (i: nat)
    requires n <= |acts| && n <= |ss| && at in TriedUpTo(ss, acts, n)
    ensures i < n && Address(ss[i], acts[i]) == Some(at)
  {
    if at in TriedUpTo(ss, acts, n - 1) { i := TriedAtSomeStep(ss, acts, n - 1, at); } else { i := n - 1; }
  }

  lemma {:induction false} RunTried(c: Config, ss: seq<State>, acts: seq<Action>, n: nat)
    requires Run(c, ss, acts) && n < |ss|
    ensures TriedOk(ss[n], TriedUpTo(ss, acts, n))
  {
    if n > 0 {
      RunTried(c, ss, acts, n - 1);
      StepTries(c, ss[n - 1], acts[n - 1], TriedUpTo(ss, acts, n - 1));
    }
  }

  lemma RunTries(c: Config, ss: seq<State>, acts: seq<Action>, n: nat)
    requires Run(c, ss, acts) && n < |acts|
    ensures Tries(ss[n], acts[n], ss[n + 1], TriedUpTo(ss, acts, n))
  {
    RunTried(c, ss, acts, n);
    StepTries(c, ss[n], acts[n], TriedUpTo(ss, acts, n));
  }

  /** A message in the mailbox was posted by some step, and is still there. */
  lemma {:induction false} PostedAtSomeStep(c: Config, ss: seq<State>, acts: seq<Action>, n: nat, at: Addr)
    returns (j: nat)
    requires Run(c, ss, acts) && n < |ss| && at in ss[n].box
    ensures j < n && Posted(ss[j], acts[j], at)
  {
    RunTries(c, ss, acts, n - 1);
    if at in ss[n - 1].box { j := PostedAtSomeStep(c, ss, acts, n - 1, at); } else { j := n - 1; }
  }

  lemma {:induction false} BoxOnlyGrows(c: Config, ss: seq<State>, acts: seq<Action>, i: nat, n: nat)
    requires Run(c, ss, acts) && i <= n < |ss|
    ensures ss[i].box.Keys <= ss[n].box.Keys
  {
    if i < n {
      BoxOnlyGrows(c, ss, acts, i, n - 1);
      RunTries(c, ss, acts, n - 1);
    }
  }

  /** A message waits behind a number that is not there, so its receiver will not get to it. */
  ghost predicate Hole(s: State, missing: Addr, at: Addr) {
    && missing.session == at.session && missing.sender == at.sender && missing.num < at.num
    && missing !in s.box && at in s.box
  }

  /** Step `i` tried a number that never arrived, and step `j` later posted a higher one. */
  ghost predicate PostedAfterLoss(ss: seq<State>, acts: seq<Action>, n: nat, i: nat, j: nat, missing: Addr, at: Addr)
    requires n < |ss| && i < j < n && n <= |acts|
  {
    && Address(ss[i], acts[i]) == Some(missing) && missing !in ss[n].box && Posted(ss[j], acts[j], at)
    && missing.session == at.session && missing.sender == at.sender && missing.num < at.num
  }

  /** Numbers have a hole exactly where a side posted on a session after one of its own sends there was lost. */
  lemma HoleIffPostedAfterLoss(c: Config, ss: seq<State>, acts: seq<Action>, n: nat, missing: Addr, at: Addr)
    requires Run(c, ss, acts) && n < |ss|
    ensures Hole(ss[n], missing, at) <==>
            exists i, j :: 0 <= i < j < n && PostedAfterLoss(ss, acts, n, i, j, missing, at)
  {
    if Hole(ss[n], missing, at) {
      var j := PostedAtSomeStep(c, ss, acts, n, at);
      RunTries(c, ss, acts, j);
      assert missing in TriedUpTo(ss, acts, j);
      var i := TriedAtSomeStep(ss, acts, j, missing);
      assert PostedAfterLoss(ss, acts, n, i, j, missing, at);
    }
    if i, j :| 0 <= i < j < n && PostedAfterLoss(ss, acts, n, i, j, missing, at) {
      RunTries(c, ss, acts, j);
      BoxOnlyGrows(c, ss, acts, j + 1, n);
    }
  }

  /** Where there is no hole, a side that finds nothing under the number it waits for has missed nothing. */
  lemma WithoutHolesNothingIsMissed(
    c: Config, ss: seq<State>, acts: seq<Action>, n: nat, p: Party, session: Session, num: nat, later: nat)
    requires Run(c, ss, acts) && n < |ss| && Receive(ss[n], p, session, num).None? && num <= later
    requires forall i, j, missing, at :: 0 <= i < j < n ==> !PostedAfterLoss(ss, acts, n, i, j, missing, at)
    ensures Receive(ss[n], p, session, later).None?
  {
    var missing, at := Addr(session, p.Peer(), num), Addr(session, p.Peer(), later);
    HoleIffPostedAfterLoss(c, ss, acts, n, missing, at);
  }
}
