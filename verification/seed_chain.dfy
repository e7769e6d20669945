/**
 Shared keys (per-user keys, PUKs, and per-team keys, PTKs) and the seed chain
 that lets the holder of one generation recover every earlier one.

 Cryptography is symbolic. A secret box is a term that only opens under the key
 it was sealed with, and a public key determines the seed it was made from.
 */
module SeedChains {
  import opened Common
  import opened Roles

  /** Randomness is symbolic: seeds of different draws, or drawn for different roles, differ. */
  datatype Seed = Seed(draw: nat, role: RoleKey)

  /** A private shared key; also the cleartext `SharedKeySeed` put in boxes. */
  datatype SharedKey = SharedKey(role: RoleKey, gen: nat, seed: Seed)

  /** What a sigchain publishes about a shared key. */
  datatype PublicKey = PublicKey(role: RoleKey, gen: nat, verifyKey: VerifyKey)
  datatype VerifyKey = VerifyKeyOf(seed: Seed)
  datatype BoxKey = BoxKeyOf(seed: Seed)

  datatype SecretBox = Sealed(key: BoxKey, cleartext: SharedKey)
  datatype SeedChainBox = SeedChainBox(gen: nat, role: RoleKey, box: SecretBox)

  datatype KeyError =
    | NoReceiverKey | UnknownSender | NilSenderKeys | BadBox | GenMismatch | RoleMismatch
    | BadChainGeneration | InvalidGeneration | GenTooHigh | PublicKeyMismatch

  function Publicize(k: SharedKey): (p: PublicKey) {
    PublicKey(k.role, k.gen, VerifyKeyOf(k.seed))
  }

  function OpenSecretBox(box: SecretBox, key: BoxKey): (r: Result<SharedKey, KeyError>) {
    if box.key == key then Ok(box.cleartext) else Err(BadBox)
  }

  /**
   Checks an opened seed against the published keys. PTKs are always checked;
   PUKs below the newest generation are not, which is `None` here.
   */
  function CheckOpened(pub: Option<seq<PublicKey>>, k: SharedKey): (r: Result<SharedKey, KeyError>)
    ensures r.Ok? ==> r.value == k
    ensures r.Ok? && pub.Some? ==> 1 <= k.gen <= |pub.value| && Publicize(k) == pub.value[k.gen - 1]
  {
    match pub
    case None => Ok(k)
    case Some(keys) =>
      if k.gen < 1 then Err(InvalidGeneration)
      else if k.gen > |keys| then Err(GenTooHigh)
      else if keys[k.gen - 1] != Publicize(k) then Err(PublicKeyMismatch)
      else Ok(k)
  }

  /** The sigchain publishes exactly these keys. */
  ghost predicate Publishes(pub: seq<PublicKey>, keys: seq<SharedKey>) {
    |pub| == |keys| && forall i :: 0 <= i < |keys| ==> pub[i] == Publicize(keys[i])
  }

  // ---------------------------------------------------------------- sealing

  /** The box a rotation makes: the old key sealed under the new one. */
  function SealPrevious(curr: SharedKey, next: SharedKey): (b: SeedChainBox) {
    SeedChainBox(curr.gen, curr.role, Sealed(BoxKeyOf(next.seed), curr))
  }

  /** `keys` is the whole history of one role: generations 1, 2, ... in order. */
  ghost predicate IsHistory(role: RoleKey, keys: seq<SharedKey>) {
    forall i :: 0 <= i < |keys| ==> keys[i].role == role && keys[i].gen == i + 1
  }

  /** The chain boxes of generations from+1..n-1 that rotations through `keys` leave behind. */
  function ChainOf(keys: seq<SharedKey>, from: nat, n: nat): (c: seq<SeedChainBox>)
    requires n <= |keys|
    decreases n
  {
    if n <= from + 1 then [] else ChainOf(keys, from, n - 1) + [SealPrevious(keys[n - 2], keys[n - 1])]
  }

  // ---------------------------------------------------------------- opening

  /** Opens one chain link under the key above it. Only the generation outside the box is compared. */
  function OpenLink(pub: Option<seq<PublicKey>>, prev: SharedKey, gen: int, link: SeedChainBox)
    : (r: Result<SharedKey, KeyError>)
    ensures r.Ok? ==> r.value == link.box.cleartext && link.gen == gen && CheckOpened(pub, r.value).Ok?
  {
    if link.gen != gen then Err(BadChainGeneration)
    else
      match OpenSecretBox(link.box, BoxKeyOf(prev.seed))
      case Err(e) => Err(e)
      case Ok(cleartext) => CheckOpened(pub, cleartext)
  }

  /**
   Unwinds a seed chain from its newest link down. `prev` is the key opened just
   above and `gen` the generation expected next. The result is in ascending
   order and does not contain `prev`.
   */
  function Unwind(pub: Option<seq<PublicKey>>, prev: SharedKey, gen: int, chain: seq<SeedChainBox>)
    : (r: Result<seq<SharedKey>, KeyError>)
    decreases |chain|
  {
    if chain == [] then Ok([])
    else
      var key := OpenLink(pub, prev, gen, chain[|chain| - 1]);
      if key.Err? then Err(key.error)
      else
        var older := Unwind(pub, key.value, gen - 1, chain[..|chain| - 1]);
        if older.Err? then older else Ok(older.value + [key.value])
  }

  /** The downward loop of `decryptPUKParcel` and `ptkUnbox`, ending in `core.Reverse`. */
  method UnwindSeedChain(pub: Option<seq<PublicKey>>, top: SharedKey, chain: seq<SeedChainBox>)
    returns (r: Result<seq<SharedKey>, KeyError>)
    ensures r == match Unwind(pub, top, top.gen - 1, chain)
                 case Err(e) => Err(e)
                 case Ok(older) => Ok(older + [top])
  {
    var ret := [top];
    var prev := top;
    var gen: int := top.gen - 1;
    ghost var whole := Unwind(pub, top, top.gen - 1, chain);
    var i := |chain|;
    assert chain[..i] == chain && Reversed(ret) == [top];
    while i > 0
      invariant 0 <= i <= |chain|
      invariant |ret| >= 1
      invariant match Unwind(pub, prev, gen, chain[..i])
                case Err(e) => whole == Err(e)
                case Ok(older) => whole.Ok? && whole.value + [top] == older + Reversed(ret)
    {
      var link := chain[i - 1];
      assert chain[..i][..i - 1] == chain[..i - 1];
      var key := OpenLink(pub, prev, gen, link);
      if key.Err? { return Err(key.error); }
      assert Reversed(ret + [key.value]) == [key.value] + Reversed(ret);
      ret := ret + [key.value];
      gen := gen - 1;
      prev := key.value;
      i := i - 1;
    }
    assert chain[..0] == [] && [] + Reversed(ret) == Reversed(ret);
    r := Ok(Reversed(ret));
  }

  // -------------------------------------------------------------- round trip

  /** One honest link on top of a chain that already unwinds. */
  lemma UnwindOneMore(
    pub: Option<seq<PublicKey>>, prev: SharedKey, gen: int, chain: seq<SeedChainBox>,
    k: SharedKey, older: seq<SharedKey>)
    requires Unwind(pub, k, gen - 1, chain) == Ok(older)
    requires k.gen == gen && CheckOpened(pub, k).Ok?
    ensures Unwind(pub, prev, gen, chain + [SealPrevious(k, prev)]) == Ok(older + [k])
  {
    var whole := chain + [SealPrevious(k, prev)];
    assert whole[..|whole| - 1] == chain && whole[|whole| - 1] == SealPrevious(k, prev);
  }

  /**
   Opening undoes sealing, over any number of rotations: from the newest key and
   the chain boxes of generations from+1..n-1, unwinding gives back exactly those
   generations in order.
   */
  lemma {:induction false} UnwindUndoesSealing(
    pub: Option<seq<PublicKey>>, role: RoleKey, keys: seq<SharedKey>, from: nat, n: nat)
    requires IsHistory(role, keys) && from < n <= |keys|
    requires pub.Some? ==> Publishes(pub.value, keys)
    ensures Unwind(pub, keys[n - 1], n - 1, ChainOf(keys, from, n)) == Ok(keys[from..n - 1])
    decreases n
  {
    if from == n - 1 {
      UnwindNothing(pub, keys, from);
    } else {
      UnwindUndoesSealing(pub, role, keys, from, n - 1);
      HistoryChecks(pub, role, keys, n - 2);
      UnwindOneRotation(pub, keys, from, n);
    }
  }

  lemma UnwindNothing(pub: Option<seq<PublicKey>>, keys: seq<SharedKey>, from: nat)
    requires from < |keys|
    ensures Unwind(pub, keys[from], from, ChainOf(keys, from, from + 1)) == Ok(keys[from..from])
  {
    assert keys[from..from] == [];
  }

  lemma HistoryChecks(pub: Option<seq<PublicKey>>, role: RoleKey, keys: seq<SharedKey>, i: nat)
    requires IsHistory(role, keys) && i < |keys|
    requires pub.Some? ==> Publishes(pub.value, keys)
    ensures CheckOpened(pub, keys[i]) == Ok(keys[i]) && keys[i].gen == i + 1
  {
  }

  lemma UnwindOneRotation(pub: Option<seq<PublicKey>>, keys: seq<SharedKey>, from: nat, n: nat)
    requires from + 1 < n <= |keys|
    requires CheckOpened(pub, keys[n - 2]).Ok? && keys[n - 2].gen == n - 1
    requires Unwind(pub, keys[n - 2], n - 2, ChainOf(keys, from, n - 1)) == Ok(keys[from..n - 2])
    ensures Unwind(pub, keys[n - 1], n - 1, ChainOf(keys, from, n)) == Ok(keys[from..n - 1])
  {
    var chain := ChainOf(keys, from, n - 1);
    assert ChainOf(keys, from, n) == chain + [SealPrevious(keys[n - 2], keys[n - 1])];
    UnwindOneMore(pub, keys[n - 1], n - 1, chain, keys[n - 2], keys[from..n - 2]);
    SliceSnoc(keys, from, n - 1);
  }

  lemma SliceSnoc<T>(s: seq<T>, from: nat, n: nat)
    requires from < n <= |s|
    ensures s[from..n] == s[from..n - 1] + [s[n - 1]]
  {
  }

  /** Every generation inside the boxes agrees with the one written outside. */
  ghost predicate InnerGensMatch(chain: seq<SeedChainBox>) {
    forall i :: 0 <= i < |chain| ==> chain[i].box.cleartext.gen == chain[i].gen
  }

  ghost predicate Contiguous(keys: seq<SharedKey>) {
    forall i :: 0 <= i < |keys| ==> keys[i].gen == keys[0].gen + i
  }

  /**
   The unwinding loops compare the generation outside each box, never the one
   inside. What they return is therefore contiguous exactly when the two agree.
   */
  lemma {:induction false} ContiguousIffInnerGensMatch(
    pub: Option<seq<PublicKey>>, top: SharedKey, chain: seq<SeedChainBox>)
    requires Unwind(pub, top, top.gen - 1, chain).Ok?
    ensures Contiguous(Unwind(pub, top, top.gen - 1, chain).value + [top]) <==> InnerGensMatch(chain)
  {
    var older := Unwind(pub, top, top.gen - 1, chain).value;
    UnwindShape(pub, top, top.gen - 1, chain);
    var all := older + [top];
    if Contiguous(all) {
      forall i | 0 <= i < |chain| ensures chain[i].box.cleartext.gen == chain[i].gen {
        assert all[i].gen == all[0].gen + i;
        assert all[|chain|] == top && all[|chain|].gen == all[0].gen + |chain|;
      }
    }
    if InnerGensMatch(chain) {
      forall i | 0 <= i < |all| ensures all[i].gen == all[0].gen + i {
        if i < |chain| { assert all[i] == chain[i].box.cleartext; }
        if 0 < |chain| { assert all[0] == chain[0].box.cleartext; }
      }
    }
  }

  /** A successful unwinding returns the cleartexts, and the outside generations count down. */
  lemma {:induction false} UnwindShape(
    pub: Option<seq<PublicKey>>, prev: SharedKey, gen: int, chain: seq<SeedChainBox>)
    requires Unwind(pub, prev, gen, chain).Ok?
    ensures |Unwind(pub, prev, gen, chain).value| == |chain|
    ensures forall i :: 0 <= i < |chain| ==> Unwind(pub, prev, gen, chain).value[i] == chain[i].box.cleartext
    ensures forall i :: 0 <= i < |chain| ==> chain[i].gen == gen - (|chain| - 1 - i)
    ensures forall i :: 0 <= i < |chain| ==> CheckOpened(pub, chain[i].box.cleartext).Ok?
    decreases |chain|
  {
    if chain != [] {
      UnwindShape(pub, chain[|chain| - 1].box.cleartext, gen - 1, chain[..|chain| - 1]);
    }
  }

  /** A chain that unwinds without error and yet hides generation 2 behind a second generation 1. */
  lemma InnerGenIsNotChecked()
    ensures var role := OWNER_ROLE;
            var k1 := SharedKey(role, 1, Seed(1, role));
            var k3 := SharedKey(role, 3, Seed(3, role));
            var chain := [SeedChainBox(1, role, Sealed(BoxKeyOf(Seed(1, role)), k1)),
                          SeedChainBox(2, role, Sealed(BoxKeyOf(Seed(3, role)), k1))];
            Unwind(None, k3, 2, chain) == Ok([k1, k1])
  {
    var role := OWNER_ROLE;
    var k1 := SharedKey(role, 1, Seed(1, role));
    var k3 := SharedKey(role, 3, Seed(3, role));
    var chain := [SeedChainBox(1, role, Sealed(BoxKeyOf(Seed(1, role)), k1)),
                  SeedChainBox(2, role, Sealed(BoxKeyOf(Seed(3, role)), k1))];
    var none: Option<seq<PublicKey>> := None;
    var lower := SealPrevious(k1, k1);
    assert Unwind(none, k1, 0, []) == Ok([]);
    UnwindOneMore(none, k1, 1, [], k1, []);
    assert [] + [lower] == chain[..1] && [] + [k1] == [k1];
    assert chain[1].box == Sealed(BoxKeyOf(k3.seed), k1);
    assert Unwind(none, k3, 2, chain) == Ok([k1] + [k1]) && [k1] + [k1] == [k1, k1];
  }

  // --------------------------------------------------------- a role's key history

  /** The real keys of one role, generations 1, 2, ..., and the chain links posted for it. */
  datatype RoleState = RoleState(keys: seq<SharedKey>, chain: seq<SeedChainBox>) {

    ghost predicate Ok(r: RoleKey) {
      && r.AtMost(OWNER_ROLE) && keys != [] && IsHistory(r, keys) && chain == ChainOf(keys, 0, |keys|)
    }

    function Newest(): (k: SharedKey)
      requires keys != []
    {
      keys[|keys| - 1]
    }

    function Rotate(k: SharedKey): (s: RoleState) {
      RoleState(keys + [k], chain + if keys == [] then [] else [SealPrevious(Newest(), k)])
    }
  }

  lemma RotateOk(r: RoleKey, s: RoleState, k: SharedKey)
    requires r.AtMost(OWNER_ROLE) && (s == RoleState([], []) || s.Ok(r))
    requires k.role == r && k.gen == |s.keys| + 1
    ensures s.Rotate(k).Ok(r)
  {
    ChainOfPrefix(s.keys, s.keys + [k], |s.keys|);
  }

  lemma {:induction false} ChainOfPrefix(a: seq<SharedKey>, b: seq<SharedKey>, n: nat)
    requires a <= b && n <= |a|
    ensures ChainOf(a, 0, n) == ChainOf(b, 0, n)
  {
    if n > 1 { ChainOfPrefix(a, b, n - 1); }
  }

  lemma {:induction false} ChainOfLength(keys: seq<SharedKey>, n: nat)
    requires 1 <= n <= |keys|
    ensures |ChainOf(keys, 0, n)| == n - 1
    ensures forall i :: 0 <= i < n - 1 ==> ChainOf(keys, 0, n)[i] == SealPrevious(keys[i], keys[i + 1])
  {
    if n > 1 { ChainOfLength(keys, n - 1); }
  }
}
