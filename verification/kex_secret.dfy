/**
 One end of a key-exchange session (`KexSecret` in client/libclient/kex.go): the
 counters, the sealing of messages and the checks on what comes back. Session
 identifiers and box keys are derived from the shared secret and determine it.
 */
module KexSecrets {
  import opened Common
  import opened Kex

  datatype SessionID = SessionOf(secret: nat)
  datatype BoxKey = KeyOf(secret: nat)

  datatype Cleartext = Cleartext(session: SessionID, num: nat, sender: nat, msg: Msg)
  datatype Sealed = Sealed(key: BoxKey, cleartext: Cleartext)
  datatype Wrapper = Wrapper(session: SessionID, sender: nat, num: nat, payload: Sealed)
  datatype ReceiveArg = ReceiveArg(receiver: nat, session: SessionID, num: nat)

  datatype KexError = CannotOpen | BadSession | BadSender | Reflection | BadNumber

  function Wrapped(secret: nat, num: nat, sender: nat, m: Msg): (w: Wrapper) {
    Wrapper(SessionOf(secret), sender, num, Sealed(KeyOf(secret), Cleartext(SessionOf(secret), num, sender, m)))
  }

  function Unwrapped(secret: nat, w: Wrapper, me: nat): (r: Result<Msg, KexError>) {
    if w.payload.key != KeyOf(secret) then Err(CannotOpen)
    else
      var clr := w.payload.cleartext;
      if clr.session != SessionOf(secret) then Err(BadSession)
      else if clr.sender != w.sender then Err(BadSender)
      else if clr.sender == me then Err(Reflection)
      else if clr.num != w.num then Err(BadNumber)
      else Ok(clr.msg)
  }

  /** The server's answer to a receive: the stored payload under the labels that were asked for. */
  function Served(stored: Wrapper, arg: ReceiveArg): (w: Option<Wrapper>) {
    if stored.session == arg.session && stored.num == arg.num && stored.sender != arg.receiver
    then Some(stored)
    else None
  }

  class KexSecret {
    const secret: nat
    var sendSeqno: nat
    var recvSeqno: nat

    constructor (secret: nat)
      ensures this.secret == secret && sendSeqno == 0 && recvSeqno == 0
    {
      this.secret := secret;
      sendSeqno, recvSeqno := 0, 0;
    }

    /** Seals under the next number. The number is spent even if the send then fails. */
    method Wrap(m: Msg, sender: nat) returns (w: Wrapper)
      modifies this`sendSeqno
      ensures w == Wrapped(secret, old(sendSeqno), sender, m) && sendSeqno == old(sendSeqno) + 1
    {
      var clr := Cleartext(SessionOf(secret), sendSeqno, sender, m);
      w := Wrapper(SessionOf(secret), sender, sendSeqno, Sealed(KeyOf(secret), clr));
      sendSeqno := sendSeqno + 1;
    }

    method NextReceive(me: nat) returns (arg: ReceiveArg)
      modifies this`recvSeqno
      ensures arg == ReceiveArg(me, SessionOf(secret), old(recvSeqno)) && recvSeqno == old(recvSeqno) + 1
    {
      arg := ReceiveArg(me, SessionOf(secret), recvSeqno);
      recvSeqno := recvSeqno + 1;
    }

    /**
     Yields a message exactly if a holder of the secret wrapped it under the labels it came
     with, and not this end.
     */
    method Unwrap(w: Wrapper, me: nat) returns (r: Result<Msg, KexError>)
      ensures forall m :: r == Ok(m) <==> w.payload == Wrapped(secret, w.num, w.sender, m).payload && w.sender != me
      ensures r.Err? ==> r == Unwrapped(secret, w, me)
    {
      if w.payload.key != KeyOf(secret) { return Err(CannotOpen); }
      var clr := w.payload.cleartext;
      if clr.session != SessionOf(secret) { return Err(BadSession); }
      if clr.sender != w.sender { return Err(BadSender); }
      if clr.sender == me { return Err(Reflection); }
      if clr.num != w.num { return Err(BadNumber); }
      return Ok(clr.msg);
    }
  }

  /**
   A wrapped message comes out again exactly at the other end of the same session:
   not under another secret, and not at the end that sent it.
   */
  lemma UnwrapUndoesWrap(secret: nat, other: nat, num: nat, sender: nat, me: nat, m: Msg)
    ensures Unwrapped(other, Wrapped(secret, num, sender, m), me) == Ok(m) <==> other == secret && me != sender
    ensures Unwrapped(other, Wrapped(secret, num, sender, m), me).Ok? ==>
              Unwrapped(other, Wrapped(secret, num, sender, m), me) == Ok(m)
  {
  }

  /**
   A payload unwraps exactly if a holder of the secret wrapped it under the labels that came
   with it, and not the receiver.
   */
  lemma UnwrapIsAuthentic(secret: nat, w: Wrapper, me: nat, m: Msg)
    ensures Unwrapped(secret, w, me) == Ok(m) <==>
              w.payload == Wrapped(secret, w.num, w.sender, m).payload && w.sender != me
  {
  }

  /** Two ends that have exchanged the same number of messages deliver the next one. */
  method Deliver(from: KexSecret, to: KexSecret, m: Msg, sender: nat, me: nat) returns (r: Result<Msg, KexError>)
    requires from != to && from.secret == to.secret && from.sendSeqno == to.recvSeqno && sender != me
    modifies from`sendSeqno, to`recvSeqno
    ensures r == Ok(m) && from.sendSeqno == to.recvSeqno == old(from.sendSeqno) + 1
  {
    var w := from.Wrap(m, sender);
    var arg := to.NextReceive(me);
    var served := Served(w, arg);
    assert served == Some(w);
    r := to.Unwrap(w, me);
  }
}
