/**
 Two runs of the key exchange (client/libclient/kex.go), for every configuration: one in
 which a message is lost, and one that ends well on both sides.
 */
module KexRuns {
  import opened Common
  import opened Kex
  import opened KexAlignment

  ghost predicate Reachable(c: Config, s: State) {
    exists ss, acts :: Run(c, ss, acts) && ss[|acts|] == s
  }

  lemma InitialReachable(c: Config)
    ensures Reachable(c, INITIAL)
  {
    assert Run(c, [INITIAL], []);
  }

  lemma RunOneMore(c: Config, ss: seq<State>, acts: seq<Action>, a: Action, s': State)
    requires Run(c, ss, acts) && Do(c, ss[|acts|], a) == Some(s')
    ensures Run(c, ss + [s'], acts + [a])
  {
    var ss', acts' := ss + [s'], acts + [a];
    forall i | 0 <= i < |acts'| ensures Do(c, ss'[i], acts'[i]) == Some(ss'[i + 1]) {
      if i < |acts| { assert Do(c, ss[i], acts[i]) == Some(ss[i + 1]); }
    }
  }

  lemma ReachX(c: Config, s: State, a: Action)
    requires Reachable(c, s) && DoX(c, s, a).Some?
    ensures Reachable(c, DoX(c, s, a).value)
  {
    var ss, acts :| Run(c, ss, acts) && ss[|acts|] == s;
    RunOneMore(c, ss, acts, a, DoX(c, s, a).value);
  }

  lemma ReachY(c: Config, s: State, a: Action)
    requires Reachable(c, s) && DoY(c, s, a).Some? && !a.ServerTakes? && DoX(c, s, a).None?
    ensures Reachable(c, DoY(c, s, a).value)
  {
    var ss, acts :| Run(c, ss, acts) && ss[|acts|] == s;
    RunOneMore(c, ss, acts, a, DoY(c, s, a).value);
  }

  /** Both sides are up and have posted what the user needs to make them meet. */
  lemma BothUp(c: Config) returns (s: State)
    ensures Reachable(c, s) && s.x == INITIAL.x.(mineSend := 1, pc := XWaiting)
    ensures s.y == INITIAL.y.(mineSend := 1, pc := YWaiting)
    ensures s.box == map[Addr(OfX, X, 0) := Start, Addr(OfY, Y, 0) := Hello(c.keyY)] && s.accepted == {}
  {
    InitialReachable(c);
    ReachX(c, INITIAL, XSendStart(Delivered));
    s := DoX(c, INITIAL, XSendStart(Delivered)).value;
    ReachY(c, s, YSendHello(Delivered));
    s := DoY(c, s, YSendHello(Delivered)).value;
  }

  /** The user types the provisionee's secret into the provisioner, which makes the link. */
  lemma LinkIsMade(c: Config) returns (s: State, inner: Inner)
    ensures Reachable(c, s) && inner == Inner(c.user, c.host, c.role, c.keyX, c.keyY, 1)
    ensures s.x.pc.XLinkMade? && s.x.agreed == Some(Endpoint(OfY, false, 0, 1)) && s.x.hello == Some(c.keyY)
    ensures s.x.inner == Some(inner) && s.x.tok == 7 && s.y == INITIAL.y.(mineSend := 1, pc := YWaiting)
    ensures s.box == map[Addr(OfX, X, 0) := Start, Addr(OfY, Y, 0) := Hello(c.keyY)] && s.accepted == {}
  {
    s := BothUp(c);
    inner := Inner(c.user, c.host, c.role, c.keyX, c.keyY, 1);
    ReachX(c, s, XAdoptTyped(OfY, 0));
    s := DoX(c, s, XAdoptTyped(OfY, 0)).value;
    ReachX(c, s, XMakeLink(1, 7));
    s := DoX(c, s, XMakeLink(1, 7)).value;
  }

  /** The PleaseSign is lost; the error report follows it under a number nobody is waiting for. */
  lemma LostSendMisaligns(c: Config) returns (s: State)
    ensures Reachable(c, s) && s.x.pc.XStopped? && s.y.pc.YWaiting?
    ensures Receive(s, Y, OfY, 0).None? && Receive(s, Y, OfY, 1) == Some(Error)
    ensures s.sendFailed && !Consecutive(s)
  {
    var inner;
    s, inner := LinkIsMade(c);
    ReachX(c, s, XSendLink(Lost));
    s := DoX(c, s, XSendLink(Lost)).value;
    ReachX(c, s, XReport(Delivered));
    s := DoX(c, s, XReport(Delivered)).value;
    assert Addr(OfY, X, 0) !in s.box && Addr(OfY, X, 1) in s.box;
  }

  lemma LinkIsReceived(c: Config) returns (s: State, inner: Inner)
    ensures Reachable(c, s) && s.x.pc.XLinkSent?
    ensures s.x.agreed == Some(Endpoint(OfY, false, 1, 1)) && s.x.hello == Some(c.keyY)
    ensures s.x.inner == Some(inner) && inner.newKey == c.keyY && inner.existing == c.keyX
    ensures s.y.pc.YAgreed? && s.y.agreed == Some(Endpoint(OfY, true, 1, 1)) && s.y.inner == Some(inner)
    ensures Addr(OfY, X, 1) !in s.box && Addr(OfY, Y, 1) !in s.box
  {
    s, inner := LinkIsMade(c);
    ReachX(c, s, XSendLink(Delivered));
    s := DoX(c, s, XSendLink(Delivered)).value;
    ReachY(c, s, YAdoptMine(0));
    s := DoY(c, s, YAdoptMine(0)).value;
  }

  lemma LinkIsSigned(c: Config, s0: State, inner: Inner) returns (s: State)
    requires Reachable(c, s0) && s0.y.pc.YAgreed? && s0.y.inner == Some(inner)
    ensures Reachable(c, s) && s.x == s0.x && s.box == s0.box && s.y.agreed == s0.y.agreed
    ensures s.y.pc.YSigned? && s.y.inner == Some(inner) && s.y.sig == Some(Sig(c.keyY, inner, []))
  {
    ReachY(c, s0, YPutRow);
    s := DoY(c, s0, YPutRow).value;
    ReachY(c, s, YSaveRow);
    s := DoY(c, s, YSaveRow).value;
    ReachY(c, s, YSign);
    s := DoY(c, s, YSign).value;
  }

  lemma SigIsChecked(c: Config, s0: State, inner: Inner) returns (s: State)
    requires Reachable(c, s0) && s0.x.pc.XLinkSent?
    requires s0.x.agreed == Some(Endpoint(OfY, false, 1, 1)) && s0.x.hello == Some(c.keyY)
    requires s0.x.inner == Some(inner) && inner.newKey == c.keyY
    requires s0.y.pc.YSigned? && s0.y.agreed == Some(Endpoint(OfY, true, 1, 1))
    requires s0.y.sig == Some(Sig(c.keyY, inner, []))
    requires Addr(OfY, X, 1) !in s0.box && Addr(OfY, Y, 1) !in s0.box
    ensures Reachable(c, s) && s.x.pc.XSigChecked? && s.x.agreed == Some(Endpoint(OfY, false, 1, 2))
    ensures s.x.inner == Some(inner) && s.x.ysig == Some(Sig(c.keyY, inner, []))
    ensures s.y.pc.YSent? && s.y.agreed == Some(Endpoint(OfY, true, 2, 1)) && Addr(OfY, X, 1) !in s.box
  {
    ReachY(c, s0, YSendOk(Delivered));
    s := DoY(c, s0, YSendOk(Delivered)).value;
    ReachX(c, s, XReceiveSig(1));
    s := DoX(c, s, XReceiveSig(1)).value;
  }

  lemma LinkIsPosted(c: Config, s0: State, inner: Inner) returns (s: State)
    requires Reachable(c, s0) && s0.x.pc.XSigChecked? && s0.x.inner == Some(inner)
    requires inner.newKey == c.keyY && inner.existing == c.keyX && s0.x.ysig == Some(Sig(c.keyY, inner, []))
    ensures Reachable(c, s) && s.x.pc.XPosted? && s.x.agreed == s0.x.agreed && s.y == s0.y && s.box == s0.box
  {
    ReachX(c, s0, XSign);
    s := DoX(c, s0, XSign).value;
    ReachX(c, s, XPost(true, true));
    s := DoX(c, s, XPost(true, true)).value;
  }

  /** The exchange can run to its end: both sides finish. */
  lemma ExchangeCompletes(c: Config) returns (s: State)
    ensures Reachable(c, s) && s.x.pc.XFinished? && s.y.pc.YFinished?
  {
    var inner;
    s, inner := LinkIsReceived(c);
    s := LinkIsSigned(c, s, inner);
    s := SigIsChecked(c, s, inner);
    s := LinkIsPosted(c, s, inner);
    ReachX(c, s, XSendDone(Delivered));
    s := DoX(c, s, XSendDone(Delivered)).value;
    ReachY(c, s, YReceiveDone(1));
    s := DoY(c, s, YReceiveDone(1)).value;
  }
}
