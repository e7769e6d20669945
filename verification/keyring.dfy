/**
 The team key ring (client/libclient/team_keyring.go): published PTKs, boxed
 parcels as they came from the server, and the private keys unboxed from them.
 */
module Keyring {
  import opened Common
  import opened Roles
  import opened SeedChains

  /** A party (user or team) acting at one source role. */
  datatype MemberID = MemberID(entity: nat, host: nat, srcRole: RoleKey)

  /**
   One generation of a party's own key. It stands for the private key, its verify
   key and its encryption-key fingerprint, which determine one another.
   */
  datatype PartyKey = PartyKey(member: MemberID, gen: nat)

  /** A Diffie-Hellman box: opens for the receiver's key given the right sender key. */
  datatype Box = Box(sender: PartyKey, receiver: PartyKey, cleartext: SharedKey)

  /** A boxed PTK with its public labels and the seed chain sent along with it. */
  datatype Parcel = Parcel(
    gen: nat, role: RoleKey, targetGen: nat, box: Box, sender: PartyKey, seedChain: seq<SeedChainBox>)

  /**
   The part of a roster that unboxing consults: verify keys known to belong to a
   member, and for each member the generation of the newest keys advertised.
   */
  datatype RosterKeys = RosterKeys(verifyKeys: set<PartyKey>, current: map<MemberID, nat>) {

    /** Maps a sender's verify key to the newest keys of the member that owns it. */
    function LookupByVerifyKey(vk: PartyKey): (r: Option<PartyKey>)
      ensures r.Some? ==> r.value.member == vk.member
    {
      if vk in verifyKeys && vk.member in current
      then Some(PartyKey(vk.member, current[vk.member]))
      else None
    }
  }

  datatype UnboxError =
    | Key(error: KeyError) | NoPublicKeys | NoOverlap | RanOut | SliceOutOfRange

  // ------------------------------------------------------------------- merge

  function StartGen(s: seq<SharedKey>): (g: nat)
    requires s != []
  {
    s[0].gen
  }

  function EndGen(s: seq<SharedKey>): (g: nat)
    requires s != []
  {
    s[|s| - 1].gen + 1
  }

  /**
   `PTKSequence.merge`. The source's nil is the empty sequence. `None` is the
   run-time panic of slicing past the end, which only inputs with holes can cause.
   */
  function Merge(x: seq<SharedKey>, y: seq<SharedKey>): (m: Option<seq<SharedKey>>) {
    if x == [] then Some(y)
    else if y == [] then Some(x)
    else
      var l, r := if StartGen(x) > StartGen(y) then y else x, if StartGen(x) > StartGen(y) then x else y;
      if EndGen(l) < StartGen(r) then Some([])
      else if EndGen(l) >= EndGen(r) then Some(l)
      else if EndGen(l) - StartGen(r) > |r| then None
      else Some(l + r[EndGen(l) - StartGen(r)..])
  }

  /** Whether generation `g` is held in `s`. */
  ghost predicate Holds(s: seq<SharedKey>, g: nat) {
    exists i :: 0 <= i < |s| && s[i].gen == g
  }

  /** Two non-empty contiguous runs leave a generation uncovered between them. */
  ghost predicate Gap(x: seq<SharedKey>, y: seq<SharedKey>) {
    x != [] && y != [] && (EndGen(x) < StartGen(y) || EndGen(y) < StartGen(x))
  }

  /**
   On contiguous inputs merging never panics, returns nil exactly when there is a
   gap or nothing to merge, and otherwise is the contiguous union of the two.
   */
  lemma MergeIsContiguousUnion(x: seq<SharedKey>, y: seq<SharedKey>)
    requires Contiguous(x) && Contiguous(y)
    ensures Merge(x, y).Some?
    ensures Merge(x, y).value == [] <==> Gap(x, y) || (x == [] && y == [])
    ensures Contiguous(Merge(x, y).value)
    ensures !Gap(x, y) ==> forall g :: Holds(Merge(x, y).value, g) <==> Holds(x, g) || Holds(y, g)
    ensures forall k :: k in Merge(x, y).value ==> k in x || k in y
  {
    if x != [] && y != [] {
      var l, r := if StartGen(x) > StartGen(y) then y else x, if StartGen(x) > StartGen(y) then x else y;
      MergeOrdered(l, r, Merge(x, y).value);
    }
  }

  lemma HoldsIsRange(s: seq<SharedKey>, g: nat)
    requires s != [] && Contiguous(s)
    ensures Holds(s, g) <==> StartGen(s) <= g < EndGen(s)
  {
    assert s[|s| - 1].gen == s[0].gen + (|s| - 1);
    if StartGen(s) <= g < EndGen(s) {
      assert s[g - StartGen(s)].gen == g;
    }
  }

  lemma MergeOrdered(l: seq<SharedKey>, r: seq<SharedKey>, m: seq<SharedKey>)
    requires l != [] && r != [] && Contiguous(l) && Contiguous(r) && StartGen(l) <= StartGen(r)
    requires m == if EndGen(l) < StartGen(r) then []
                  else if EndGen(l) >= EndGen(r) then l
                  else if EndGen(l) - StartGen(r) > |r| then []
                  else l + r[EndGen(l) - StartGen(r)..]
    ensures m == [] <==> EndGen(l) < StartGen(r)
    ensures EndGen(l) < EndGen(r) ==> EndGen(l) - StartGen(r) <= |r|
    ensures Contiguous(m)
    ensures m != [] ==> forall g :: Holds(m, g) <==> Holds(l, g) || Holds(r, g)
    ensures forall k :: k in m ==> k in l || k in r
  {
    assert l[|l| - 1].gen == l[0].gen + (|l| - 1);
    assert r[|r| - 1].gen == r[0].gen + (|r| - 1);
    if m != [] {
      if EndGen(l) < EndGen(r) {
        var d := EndGen(l) - StartGen(r);
        forall i | 0 <= i < |m| ensures m[i].gen == m[0].gen + i {
          if i >= |l| { assert m[i] == r[d + (i - |l|)]; }
        }
        assert m[|m| - 1] == r[|r| - 1];
      }
      forall g: nat ensures Holds(m, g) <==> Holds(l, g) || Holds(r, g) {
        HoldsIsRange(m, g);
        HoldsIsRange(l, g);
        HoldsIsRange(r, g);
      }
    }
  }

  // -------------------------------------------------------------- unboxing

  /** Everything `ptkUnbox` needs besides the parcel and the published keys. */
  datatype UnboxEnv = UnboxEnv(receiver: seq<PartyKey>, roster: RosterKeys)

  /** The sender key the client will try: from history if there, else from the roster. */
  function SenderFor(env: UnboxEnv, history: set<PartyKey>, vk: PartyKey): (r: Option<PartyKey>) {
    if vk in history then Some(vk) else env.roster.LookupByVerifyKey(vk)
  }

  /** History after a lookup: a roster hit is recorded even if the box then fails to open. */
  function HistoryAfter(env: UnboxEnv, history: set<PartyKey>, parcel: Parcel): (h: set<PartyKey>)
    ensures history <= h
  {
    if !(1 <= parcel.targetGen <= |env.receiver|) || parcel.sender in history then history
    else match env.roster.LookupByVerifyKey(parcel.sender)
         case None => history
         case Some(k) => history + {k}
  }

  /** `ptkUnboxDH`: opens the box itself. */
  function UnboxDH(env: UnboxEnv, history: set<PartyKey>, parcel: Parcel): (r: Result<SharedKey, KeyError>)
    ensures r.Ok? ==> r.value == parcel.box.cleartext && r.value.gen == parcel.gen && r.value.role == parcel.role
  {
    if !(1 <= parcel.targetGen <= |env.receiver|) then Err(NoReceiverKey)
    else
      match SenderFor(env, history, parcel.sender)
      // a removed member's verify keys are still indexed, but lead to nil keys, which are dereferenced
      case None => Err(if parcel.sender in env.roster.verifyKeys then NilSenderKeys else UnknownSender)
      case Some(sender) =>
        if parcel.box.sender != sender || parcel.box.receiver != env.receiver[parcel.targetGen - 1] then Err(BadBox)
        else if parcel.box.cleartext.gen != parcel.gen then Err(GenMismatch)
        else if parcel.box.cleartext.role != parcel.role then Err(RoleMismatch)
        else Ok(parcel.box.cleartext)
  }

  /** `ptkUnbox`: the boxed generation and everything its seed chain reaches. */
  function PtkUnbox(pub: seq<PublicKey>, env: UnboxEnv, history: set<PartyKey>, parcel: Parcel)
    : (r: Result<seq<SharedKey>, KeyError>)
  {
    match UnboxDH(env, history, parcel)
    case Err(e) => Err(e)
    case Ok(seed) =>
      match CheckOpened(Some(pub), seed)
      case Err(e) => Err(e)
      case Ok(top) =>
        match Unwind(Some(pub), top, top.gen - 1, parcel.seedChain)
        case Err(e) => Err(e)
        case Ok(older) => Ok(older + [top])
  }

  /** Whatever a parcel opens to, each key is the one published at its own generation. */
  lemma PtkUnboxIsPublished(pub: seq<PublicKey>, env: UnboxEnv, history: set<PartyKey>, parcel: Parcel)
    requires PtkUnbox(pub, env, history, parcel).Ok?
    ensures AllPublished(pub, PtkUnbox(pub, env, history, parcel).value)
  {
    var top := parcel.box.cleartext;
    UnwindShape(Some(pub), top, top.gen - 1, parcel.seedChain);
  }

  /** Each key is the one published at its own generation. */
  ghost predicate AllPublished(pub: seq<PublicKey>, keys: seq<SharedKey>) {
    forall i :: 0 <= i < |keys| ==> 1 <= keys[i].gen <= |pub| && Publicize(keys[i]) == pub[keys[i].gen - 1]
  }

  /** Opens one parcel and joins it to the stretch already opened on its right. */
  function OpenOnto(pub: seq<PublicKey>, parcel: Parcel, right: seq<SharedKey>, env: UnboxEnv, history: set<PartyKey>)
    : (r: Result<seq<SharedKey>, UnboxError>)
  {
    var keys := PtkUnbox(pub, env, history, parcel);
    if keys.Err? then Err(Key(keys.error))
    else
      var joined := Merge(keys.value, right);
      if joined.None? then Err(SliceOutOfRange) else if joined.value == [] then Err(NoOverlap) else Ok(joined.value)
  }

  /** The keys held and the stretch opened reach back to generation 1 without a gap. */
  predicate Complete(held: seq<SharedKey>, right: seq<SharedKey>) {
    var all := Merge(held, right);
    all.Some? && all.value != [] && StartGen(all.value) == 1
  }

  /** How one parcel, joined to the stretch on its right, opens with the sender keys known so far. */
  type Opener = (Parcel, seq<SharedKey>, set<PartyKey>) -> Result<seq<SharedKey>, UnboxError>

  function OpenerFor(pub: seq<PublicKey>, env: UnboxEnv): (open: Opener) {
    (parcel, right, history) => OpenOnto(pub, parcel, right, env, history)
  }

  /**
   The loop of `Unbox`, as a function: parcels are tried from number `i` down, and
   the walk stops as soon as the keys held reach back to generation 1.
   */
  function WalkFrom(open: Opener, held: seq<SharedKey>, parcels: seq<Parcel>, i: nat, right: seq<SharedKey>,
                    env: UnboxEnv, history: set<PartyKey>)
    : (r: Result<seq<SharedKey>, UnboxError>)
    requires i <= |parcels|
    decreases i
  {
    if i == 0 then Err(RanOut)
    else
      var right' := open(parcels[i - 1], right, history);
      if right'.Err? then right'
      else if Merge(held, right'.value).None? then Err(SliceOutOfRange)
      else if Complete(held, right'.value) then Ok(Merge(held, right'.value).value)
      else WalkFrom(open, held, parcels, i - 1, right'.value, env, HistoryAfter(env, history, parcels[i - 1]))
  }

  /** The history left behind by the same loop. */
  function HistoryFrom(open: Opener, held: seq<SharedKey>, parcels: seq<Parcel>, i: nat, right: seq<SharedKey>,
                       env: UnboxEnv, history: set<PartyKey>)
    : (h: set<PartyKey>)
    requires i <= |parcels|
    ensures history <= h
    decreases i
  {
    if i == 0 then history
    else
      var right', next := open(parcels[i - 1], right, history), HistoryAfter(env, history, parcels[i - 1]);
      if right'.Err? || Merge(held, right'.value).None? || Complete(held, right'.value) then next
      else HistoryFrom(open, held, parcels, i - 1, right'.value, env, next)
  }

  /** Unboxing from parcel `i` down. */
  function UnboxFrom(pub: seq<PublicKey>, held: seq<SharedKey>, parcels: seq<Parcel>, i: nat, right: seq<SharedKey>,
                     env: UnboxEnv, history: set<PartyKey>)
    : (r: Result<seq<SharedKey>, UnboxError>)
    requires i <= |parcels|
  {
    WalkFrom(OpenerFor(pub, env), held, parcels, i, right, env, history)
  }

  /** Unboxing with all parcels at hand. */
  function UnboxAll(pub: seq<PublicKey>, held: seq<SharedKey>, parcels: seq<Parcel>, env: UnboxEnv,
                    history: set<PartyKey>)
    : (r: Result<seq<SharedKey>, UnboxError>)
  {
    UnboxFrom(pub, held, parcels, |parcels|, [], env, history)
  }

  function HistoryAll(pub: seq<PublicKey>, held: seq<SharedKey>, parcels: seq<Parcel>, env: UnboxEnv,
                      history: set<PartyKey>)
    : (h: set<PartyKey>)
    ensures history <= h
  {
    HistoryFrom(OpenerFor(pub, env), held, parcels, |parcels|, [], env, history)
  }

  /** Sender keys seen so far, kept on disk with the team's state. */
  class HistoricalSenders {
    var keys: set<PartyKey>

    constructor ()
      ensures keys == {}
    {
      keys := {};
    }
  }

  /** Opens one parcel; a sender found in the roster is remembered whether or not the box opens. */
  method OpenParcel(pub: seq<PublicKey>, parcel: Parcel, right: seq<SharedKey>, env: UnboxEnv,
                    senders: HistoricalSenders)
    returns (r: Result<seq<SharedKey>, UnboxError>)
    modifies senders
    ensures r == OpenerFor(pub, env)(parcel, right, old(senders.keys))
    ensures senders.keys == HistoryAfter(env, old(senders.keys), parcel)
  {
    var keys := PtkUnbox(pub, env, senders.keys, parcel);
    senders.keys := HistoryAfter(env, senders.keys, parcel);
    if keys.Err? { return Err(Key(keys.error)); }
    var merged := Merge(keys.value, right);
    if merged == None { return Err(SliceOutOfRange); }
    if merged.value == [] { return Err(NoOverlap); }
    return Ok(merged.value);
  }

  /** Opens parcels from the newest down until the keys held reach back to generation 1. */
  method WalkParcels(pub: seq<PublicKey>, left: seq<SharedKey>, parcels: seq<Parcel>, env: UnboxEnv,
                     senders: HistoricalSenders)
    returns (r: Result<seq<SharedKey>, UnboxError>)
    modifies senders
    ensures r == UnboxAll(pub, left, parcels, env, old(senders.keys))
    ensures senders.keys == HistoryAll(pub, left, parcels, env, old(senders.keys))
  {
    var right: seq<SharedKey> := [];
    var i := |parcels|;
    ghost var open := OpenerFor(pub, env);
    ghost var whole := WalkFrom(open, left, parcels, i, right, env, senders.keys);
    ghost var known := HistoryFrom(open, left, parcels, i, right, env, senders.keys);
    while i > 0
      invariant 0 <= i <= |parcels|
      invariant WalkFrom(open, left, parcels, i, right, env, senders.keys) == whole
      invariant HistoryFrom(open, left, parcels, i, right, env, senders.keys) == known
    {
      var joined := OpenParcel(pub, parcels[i - 1], right, env, senders);
      if joined.Err? { return Err(joined.error); }
      right := joined.value;
      var all := Merge(left, right);
      if all == None { return Err(SliceOutOfRange); }
      if all.value != [] && StartGen(all.value) == 1 { return Ok(all.value); }
      i := i - 1;
    }
    return Err(RanOut);
  }

  lemma OpenOntoIsPublished(pub: seq<PublicKey>, parcel: Parcel, right: seq<SharedKey>, env: UnboxEnv,
                            history: set<PartyKey>)
    requires AllPublished(pub, right) && OpenOnto(pub, parcel, right, env, history).Ok?
    ensures AllPublished(pub, OpenOnto(pub, parcel, right, env, history).value)
  {
    PtkUnboxIsPublished(pub, env, history, parcel);
    MergeKeepsPublished(pub, PtkUnbox(pub, env, history, parcel).value, right);
  }

  /**
   A walk that succeeds does so by completing the keys held with some stretch. Whatever
   opening a parcel keeps true of the stretch on the right is true of that one.
   */
  lemma {:induction false} WalkCompletes(
    open: Opener, held: seq<SharedKey>, parcels: seq<Parcel>, i: nat, right: seq<SharedKey>,
    env: UnboxEnv, history: set<PartyKey>, good: seq<SharedKey> -> bool)
    returns (last: seq<SharedKey>)
    requires i <= |parcels| && WalkFrom(open, held, parcels, i, right, env, history).Ok? && good(right)
    requires forall j, r, h :: 0 <= j < i && good(r) && open(parcels[j], r, h).Ok? ==>
                                 good(open(parcels[j], r, h).value)
    ensures good(last) && Complete(held, last)
    ensures WalkFrom(open, held, parcels, i, right, env, history) == Ok(Merge(held, last).value)
    decreases i
  {
    last := open(parcels[i - 1], right, history).value;
    if !Complete(held, last) {
      last := WalkCompletes(open, held, parcels, i - 1, last, env, HistoryAfter(env, history, parcels[i - 1]), good);
    }
  }

  /** What unboxing yields are published keys from generation 1 on, after the keys already held. */
  lemma UnboxedIsPublished(
    pub: seq<PublicKey>, held: seq<SharedKey>, parcels: seq<Parcel>, i: nat, right: seq<SharedKey>,
    env: UnboxEnv, history: set<PartyKey>)
    requires i <= |parcels| && AllPublished(pub, held) && AllPublished(pub, right)
    requires held != [] ==> StartGen(held) == 1
    requires UnboxFrom(pub, held, parcels, i, right, env, history).Ok?
    ensures var all := UnboxFrom(pub, held, parcels, i, right, env, history).value;
            held <= all && all != [] && StartGen(all) == 1 && AllPublished(pub, all)
  {
    var open, good := OpenerFor(pub, env), ks => AllPublished(pub, ks);
    forall j, r, h | 0 <= j < i && good(r) && open(parcels[j], r, h).Ok? ensures good(open(parcels[j], r, h).value) {
      OpenOntoIsPublished(pub, parcels[j], r, env, h);
    }
    var last := WalkCompletes(open, held, parcels, i, right, env, history, good);
    MergeKeepsPublished(pub, held, last);
    MergeKeepsPrefix(held, last);
  }

  // ------------------------------------------------------- generations and indexes

  /** Generation g sits at index g - 1 and is the key published there, as `At` takes for granted. */
  ghost predicate InOrder(pub: seq<PublicKey>, keys: seq<SharedKey>) {
    |keys| <= |pub| && forall i :: 0 <= i < |keys| ==> keys[i].gen == i + 1 && Publicize(keys[i]) == pub[i]
  }

  /** In the first `n` parcels, generations inside the boxes agree with those outside. */
  ghost predicate ChainsMatch(parcels: seq<Parcel>, n: nat) {
    forall j :: 0 <= j < n && j < |parcels| ==> InnerGensMatch(parcels[j].seedChain)
  }

  /** For published keys from generation 1 on, being in order is having no hole and no repetition. */
  lemma InOrderIffContiguous(pub: seq<PublicKey>, keys: seq<SharedKey>)
    requires AllPublished(pub, keys) && keys != [] && StartGen(keys) == 1
    ensures InOrder(pub, keys) <==> Contiguous(keys)
  {
    if Contiguous(keys) { assert keys[|keys| - 1].gen == |keys|; }
  }

  lemma OpenOntoIsContiguous(
    pub: seq<PublicKey>, parcel: Parcel, right: seq<SharedKey>, env: UnboxEnv, history: set<PartyKey>)
    requires OpenOnto(pub, parcel, right, env, history).Ok? && Contiguous(right) && InnerGensMatch(parcel.seedChain)
    ensures Contiguous(OpenOnto(pub, parcel, right, env, history).value)
  {
    ContiguousIffInnerGensMatch(Some(pub), parcel.box.cleartext, parcel.seedChain);
    MergeIsContiguousUnion(PtkUnbox(pub, env, history, parcel).value, right);
  }

  /** Whatever parcels are tried, chains that label their boxes truly are joined without hole or repetition. */
  lemma UnboxedIsContiguous(
    pub: seq<PublicKey>, held: seq<SharedKey>, parcels: seq<Parcel>, i: nat, right: seq<SharedKey>,
    env: UnboxEnv, history: set<PartyKey>)
    requires i <= |parcels| && Contiguous(held) && Contiguous(right) && ChainsMatch(parcels, i)
    requires UnboxFrom(pub, held, parcels, i, right, env, history).Ok?
    ensures Contiguous(UnboxFrom(pub, held, parcels, i, right, env, history).value)
  {
    var open, good := OpenerFor(pub, env), ks => Contiguous(ks);
    forall j, r, h | 0 <= j < i && good(r) && open(parcels[j], r, h).Ok? ensures good(open(parcels[j], r, h).value) {
      OpenOntoIsContiguous(pub, parcels[j], r, env, h);
    }
    var last := WalkCompletes(open, held, parcels, i, right, env, history, good);
    MergeIsContiguousUnion(held, last);
  }

  /** With such chains, every generation unboxed is the published key at its own index. */
  lemma UnboxedIsInOrder(
    pub: seq<PublicKey>, held: seq<SharedKey>, parcels: seq<Parcel>, env: UnboxEnv, history: set<PartyKey>)
    requires InOrder(pub, held) && ChainsMatch(parcels, |parcels|)
    requires UnboxAll(pub, held, parcels, env, history).Ok?
    ensures InOrder(pub, UnboxAll(pub, held, parcels, env, history).value)
  {
    var all := UnboxAll(pub, held, parcels, env, history).value;
    UnboxedIsPublished(pub, held, parcels, |parcels|, [], env, history);
    UnboxedIsContiguous(pub, held, parcels, |parcels|, [], env, history);
    InOrderIffContiguous(pub, all);
  }

  /** A fresh loader with one parcel ends up with just what the parcel opens to. */
  lemma FreshUnboxIsTheParcel(pub: seq<PublicKey>, parcel: Parcel, env: UnboxEnv, history: set<PartyKey>)
    requires UnboxAll(pub, [], [parcel], env, history).Ok?
    ensures PtkUnbox(pub, env, history, parcel) == Ok(UnboxAll(pub, [], [parcel], env, history).value)
    ensures var all := UnboxAll(pub, [], [parcel], env, history).value; all != [] && StartGen(all) == 1
  {
    var keys := PtkUnbox(pub, env, history, parcel).value;
    assert OpenOnto(pub, parcel, [], env, history) == Ok(keys);
    assert [parcel][0] == parcel;
  }

  /** For such a loader the condition is exact. */
  lemma FreshUnboxIsInOrderIff(pub: seq<PublicKey>, parcel: Parcel, env: UnboxEnv, history: set<PartyKey>)
    requires UnboxAll(pub, [], [parcel], env, history).Ok?
    ensures InOrder(pub, UnboxAll(pub, [], [parcel], env, history).value) <==> InnerGensMatch(parcel.seedChain)
  {
    FreshUnboxIsTheParcel(pub, parcel, env, history);
    ParcelInOrderIff(pub, parcel, env, history);
  }

  lemma ParcelInOrderIff(pub: seq<PublicKey>, parcel: Parcel, env: UnboxEnv, history: set<PartyKey>)
    requires PtkUnbox(pub, env, history, parcel).Ok?
    requires PtkUnbox(pub, env, history, parcel).value != [] && StartGen(PtkUnbox(pub, env, history, parcel).value) == 1
    ensures InOrder(pub, PtkUnbox(pub, env, history, parcel).value) <==> InnerGensMatch(parcel.seedChain)
  {
    PtkUnboxIsPublished(pub, env, history, parcel);
    InOrderIffContiguous(pub, PtkUnbox(pub, env, history, parcel).value);
    ContiguousIffInnerGensMatch(Some(pub), parcel.box.cleartext, parcel.seedChain);
  }

  /**
   The first link is labelled truly, which fixes where the stretch starts, and so is
   every link of a generation above `h`. Links that only repeat held keys do not matter.
   */
  ghost predicate NewLinksMatch(chain: seq<SeedChainBox>, h: nat) {
    forall i :: 0 <= i < |chain| && (i == 0 || h < chain[i].gen) ==> chain[i].box.cleartext.gen == chain[i].gen
  }

  /** The generation in the oldest box of a parcel. */
  function OldestGen(parcel: Parcel): (g: nat) {
    if parcel.seedChain == [] then parcel.box.cleartext.gen else parcel.seedChain[0].box.cleartext.gen
  }

  /** It adds nothing to h keys: its newest key is held, or its oldest is placed so low that it is too short. */
  ghost predicate AddsNothing(parcel: Parcel, h: nat) {
    parcel.box.cleartext.gen <= h || OldestGen(parcel) + |parcel.seedChain| <= h
  }

  /** A stretch that can be laid over the keys 1 to h: it counts up from its start wherever it goes beyond them. */
  ghost predicate CountsUpFrom(keys: seq<SharedKey>, h: nat)
    requires keys != []
  {
    && EndGen(keys) == StartGen(keys) + |keys|
    && forall i :: 0 <= i < |keys| && h < StartGen(keys) + i ==> keys[i].gen == StartGen(keys) + i
  }

  /** A stretch that ends by generation h, going by its last key or by counting up from its first one. */
  ghost predicate EndsBy(keys: seq<SharedKey>, h: nat)
    requires keys != []
  {
    EndGen(keys) <= h + 1 || StartGen(keys) + |keys| <= h + 1
  }

  ghost predicate FromOne(keys: seq<SharedKey>) { forall i :: 0 <= i < |keys| ==> keys[i].gen == i + 1 }

  lemma MergeCountsUpIff(held: seq<SharedKey>, keys: seq<SharedKey>)
    requires FromOne(held) && keys != [] && StartGen(keys) >= 1 && EndGen(keys) >= 2 && Complete(held, keys)
    ensures FromOne(Merge(held, keys).value) <==> EndsBy(keys, |held|) || CountsUpFrom(keys, |held|)
  {
    if held == [] {
      if FromOne(keys) { assert keys[|keys| - 1].gen == |keys|; }
    } else if EndGen(held) < EndGen(keys) {
      TailCountsUpIff(held, keys, EndGen(held) - StartGen(keys));
    }
  }

  lemma TailCountsUpIff(held: seq<SharedKey>, keys: seq<SharedKey>, d: nat)
    requires FromOne(held) && held != [] && keys != [] && d <= |keys| && StartGen(keys) + d == |held| + 1
    ensures FromOne(held + keys[d..]) <==> d == |keys| || CountsUpFrom(keys, |held|)
  {
    var m := held + keys[d..];
    if FromOne(m) && d < |keys| {
      assert m[|m| - 1] == keys[|keys| - 1];
      forall i | d <= i < |keys| ensures keys[i].gen == StartGen(keys) + i { assert keys[i] == m[|held| + i - d]; }
    }
    if CountsUpFrom(keys, |held|) {
      forall i | |held| <= i < |m| ensures m[i].gen == i + 1 { assert m[i] == keys[i - |held| + d]; }
    }
  }

  lemma CountsUpIffLinksMatch(pub: seq<PublicKey>, env: UnboxEnv, history: set<PartyKey>, parcel: Parcel, h: nat)
    requires PtkUnbox(pub, env, history, parcel).Ok?
    ensures var keys := PtkUnbox(pub, env, history, parcel).value;
            && keys != [] && (CountsUpFrom(keys, h) <==> NewLinksMatch(parcel.seedChain, h))
            && (EndsBy(keys, h) <==> AddsNothing(parcel, h))
  {
    var keys, top, chain := PtkUnbox(pub, env, history, parcel).value, parcel.box.cleartext, parcel.seedChain;
    UnwindShape(Some(pub), top, top.gen - 1, chain);
    assert keys[|keys| - 1] == top && |keys| == |chain| + 1;
    forall i | 0 <= i < |chain|
      ensures keys[i] == chain[i].box.cleartext && chain[i].gen == top.gen - |chain| + i
    {
    }
    if CountsUpFrom(keys, h) {
      forall i | 0 <= i < |chain| && (i == 0 || h < chain[i].gen) ensures chain[i].box.cleartext.gen == chain[i].gen {}
    }
    if NewLinksMatch(chain, h) {
      assert chain != [] ==> keys[0] == chain[0].box.cleartext && keys[0].gen == chain[0].gen;
    }
  }

  lemma FromOneIsInOrder(pub: seq<PublicKey>, keys: seq<SharedKey>)
    requires AllPublished(pub, keys)
    ensures InOrder(pub, keys) <==> FromOne(keys)
  {
    if FromOne(keys) && keys != [] { assert keys[|keys| - 1].gen == |keys|; }
  }

  lemma LaidOverIsInOrderIff(pub: seq<PublicKey>, held: seq<SharedKey>, keys: seq<SharedKey>)
    requires InOrder(pub, held) && AllPublished(pub, keys) && keys != [] && Complete(held, keys)
    ensures InOrder(pub, Merge(held, keys).value) <==> EndsBy(keys, |held|) || CountsUpFrom(keys, |held|)
  {
    assert keys[0].gen >= 1 && keys[|keys| - 1].gen >= 1;
    MergeCountsUpIff(held, keys);
    MergeKeepsPublished(pub, held, keys);
    FromOneIsInOrder(pub, Merge(held, keys).value);
  }

  lemma UnboxStopsAtNewest(
    pub: seq<PublicKey>, held: seq<SharedKey>, parcels: seq<Parcel>, env: UnboxEnv, history: set<PartyKey>)
    requires parcels != []
    requires var got := PtkUnbox(pub, env, history, parcels[|parcels| - 1]);
             got.Ok? && got.value != [] && Complete(held, got.value)
    ensures UnboxAll(pub, held, parcels, env, history) ==
            Ok(Merge(held, PtkUnbox(pub, env, history, parcels[|parcels| - 1]).value).value)
  {
    var newest := parcels[|parcels| - 1];
    assert OpenOnto(pub, newest, [], env, history) == Ok(PtkUnbox(pub, env, history, newest).value);
  }

  lemma UnboxFailsAtNewest(
    pub: seq<PublicKey>, held: seq<SharedKey>, parcels: seq<Parcel>, env: UnboxEnv, history: set<PartyKey>)
    requires parcels != [] && PtkUnbox(pub, env, history, parcels[|parcels| - 1]).Err?
    ensures UnboxAll(pub, held, parcels, env, history).Err?
  {
    assert OpenOnto(pub, parcels[|parcels| - 1], [], env, history).Err?;
  }

  /**
   Whenever the newest parcel reaches the keys held, which are in order, the result is
   in order exactly if the parcel adds nothing or labels its first link and its links of
   new generations truly.
   */
  lemma NewestIsInOrderIff(
    pub: seq<PublicKey>, held: seq<SharedKey>, parcels: seq<Parcel>, env: UnboxEnv, history: set<PartyKey>)
    requires InOrder(pub, held) && parcels != []
    requires var got := PtkUnbox(pub, env, history, parcels[|parcels| - 1]);
             got.Ok? && Complete(held, got.value)
    ensures var newest := parcels[|parcels| - 1];
            && UnboxAll(pub, held, parcels, env, history).Ok?
            && (InOrder(pub, UnboxAll(pub, held, parcels, env, history).value) <==>
                AddsNothing(newest, |held|) || NewLinksMatch(newest.seedChain, |held|))
  {
    var newest := parcels[|parcels| - 1];
    CountsUpIffLinksMatch(pub, env, history, newest, |held|);
    PtkUnboxIsPublished(pub, env, history, newest);
    LaidOverIsInOrderIff(pub, held, PtkUnbox(pub, env, history, newest).value);
    UnboxStopsAtNewest(pub, held, parcels, env, history);
  }

  /** With one parcel there is no other case. */
  lemma OneParcelIsInOrderIff(
    pub: seq<PublicKey>, held: seq<SharedKey>, parcel: Parcel, env: UnboxEnv, history: set<PartyKey>)
    requires InOrder(pub, held) && UnboxAll(pub, held, [parcel], env, history).Ok?
    ensures InOrder(pub, UnboxAll(pub, held, [parcel], env, history).value) <==>
            AddsNothing(parcel, |held|) || NewLinksMatch(parcel.seedChain, |held|)
  {
    OneParcelCompletes(pub, held, parcel, env, history);
    assert [parcel][|[parcel]| - 1] == parcel;
    NewestIsInOrderIff(pub, held, [parcel], env, history);
  }

  lemma OneParcelCompletes(
    pub: seq<PublicKey>, held: seq<SharedKey>, parcel: Parcel, env: UnboxEnv, history: set<PartyKey>)
    requires UnboxAll(pub, held, [parcel], env, history).Ok?
    ensures var got := PtkUnbox(pub, env, history, parcel); got.Ok? && Complete(held, got.value)
  {
    var keys := PtkUnbox(pub, env, history, parcel).value;
    assert OpenOnto(pub, parcel, [], env, history) == Ok(keys);
    assert [parcel][0] == parcel;
  }

  /**
   A parcel that unboxes without error against three published keys, and yet puts the
   key of generation 1 where generation 2 is looked up.
   */
  lemma UnboxRepeatsAGeneration(role: RoleKey, sender: PartyKey, member: MemberID)
    ensures var k1, k2, k3 := MadeKey(role, 1), MadeKey(role, 2), MadeKey(role, 3);
            var pub := [Publicize(k1), Publicize(k2), Publicize(k3)];
            var me := PartyKey(member, 1);
            var chain := [SeedChainBox(1, role, Sealed(BoxKeyOf(k1.seed), k1)),
                          SeedChainBox(2, role, Sealed(BoxKeyOf(k3.seed), k1))];
            var parcel := Parcel(3, role, 1, Box(sender, me, k3), sender, chain);
            var env := UnboxEnv([me], RosterKeys({sender}, map[sender.member := sender.gen]));
            && UnboxAll(pub, [], [parcel], env, {}) == Ok([k1, k1, k3])
            && !InOrder(pub, [k1, k1, k3])
  {
    var k1, k2, k3 := MadeKey(role, 1), MadeKey(role, 2), MadeKey(role, 3);
    var pub := [Publicize(k1), Publicize(k2), Publicize(k3)];
    var first := SeedChainBox(1, role, Sealed(BoxKeyOf(k1.seed), k1));
    var second := SeedChainBox(2, role, Sealed(BoxKeyOf(k3.seed), k1));
    var chain := [first, second];
    assert [first][..0] == [] && chain[..1] == [first] && chain[1] == second && [] + [k1] == [k1];
    assert OpenLink(Some(pub), k1, 1, first) == Ok(k1) && OpenLink(Some(pub), k3, 2, second) == Ok(k1);
    assert Unwind(Some(pub), k1, 0, []) == Ok([]);
    assert Unwind(Some(pub), k1, 1, [first]) == Ok([] + [k1]);
    assert Unwind(Some(pub), k3, 2, chain) == Ok([k1] + [k1]);
    assert [k1] + [k1] + [k3] == [k1, k1, k3];
    assert [k1, k1, k3][1].gen == 1;
  }

  function MadeKey(role: RoleKey, gen: nat): (k: SharedKey) { SharedKey(role, gen, Seed(gen, role)) }

  class TeamKeysForRole {
    const role: RoleKey
    var pub: seq<PublicKey>
    var signers: seq<nat>           // who signed each published key into the chain
    var revokers: seq<Option<nat>>  // revoke info of each published key
    var privBoxed: seq<Parcel>
    var priv: seq<SharedKey>

    constructor (role: RoleKey)
      ensures this.role == role && pub == [] && privBoxed == [] && priv == []
      ensures Valid()
    {
      this.role := role;
      pub, privBoxed, priv, signers, revokers := [], [], [], [], [];
    }

    /**
     Published keys start at generation 1 without holes, and private keys at
     generation 1. A superseded key carries revoke info, naming the signer of its
     successor, exactly when it is not the key of generation 1.
     */
    ghost predicate Valid()
      reads this
    {
      && |signers| == |pub| == |revokers|
      && (forall i :: 0 <= i < |pub| ==> pub[i].gen == i + 1 && pub[i].role == role)
      && (forall i :: 0 <= i < |pub| ==>
                        revokers[i] == if 1 <= i < |pub| - 1 then Some(signers[i + 1]) else None)
      && AllPublished(pub, priv)
      && (priv != [] ==> StartGen(priv) == 1)
    }

    method AddPub(k: PublicKey, signer: nat) returns (ok: bool)
      requires Valid() && k.role == role
      modifies this`pub, this`signers, this`revokers
      ensures Valid()
      ensures ok <==> k.gen == |old(pub)| + 1
      ensures old(InOrder(pub, priv)) ==> InOrder(pub, priv)
      ensures if ok then pub == old(pub) + [k] && signers == old(signers) + [signer]
              else pub == old(pub) && signers == old(signers) && revokers == old(revokers)
    {
      var n := |pub|;
      ok := n + 1 == k.gen;
      if ok {
        // The guard compares the count with the first generation, so the very
        // first key is never marked as revoked.
        if n > 1 { revokers := revokers[n - 1 := Some(signer)]; }
        pub, signers, revokers := pub + [k], signers + [signer], revokers + [None];
      }
    }

    method AddPrivBoxed(p: Parcel) returns (ok: bool)
      requires Valid() && p.role == role
      modifies this`privBoxed
      ensures Valid()
      ensures ok <==> pub != []
      ensures privBoxed == if ok then old(privBoxed) + [p] else old(privBoxed)
    {
      ok := pub != [];
      if ok { privBoxed := privBoxed + [p]; }
    }

    /**
     Unboxes private keys until they reach back to generation 1. On success the
     keys held before are a prefix of the new ones and every key is the published
     one of its generation; on failure nothing is learned but sender keys. That
     generation g also sits at index g takes chains whose boxes are labelled truly,
     and with one parcel it takes no less of the links that add a key.
     */
    method Unbox(env: UnboxEnv, senders: HistoricalSenders) returns (r: Result<(), UnboxError>)
      requires Valid()
      modifies this`priv, senders
      ensures Valid()
      ensures r.Ok? ==> old(priv) <= priv && priv != [] && StartGen(priv) == 1 && AllPublished(pub, priv)
      ensures r.Err? ==> priv == old(priv)
      ensures |pub| == 0 ==> r == Err(NoPublicKeys)
      ensures |pub| != 0 && |pub| == |old(priv)| ==> r.Ok? && priv == old(priv)
      ensures |pub| != 0 && |pub| != |old(priv)| ==>
                match UnboxAll(pub, old(priv), privBoxed, env, old(senders.keys))
                case Err(e) => r == Err(e)
                case Ok(keys) => r.Ok? && priv == keys
      ensures r.Ok? && old(InOrder(pub, priv)) && ChainsMatch(privBoxed, |privBoxed|) ==> InOrder(pub, priv)
      ensures r.Ok? && old(priv) == [] && |privBoxed| == 1 ==>
                (InOrder(pub, priv) <==> InnerGensMatch(privBoxed[0].seedChain))
      ensures r.Ok? && |pub| != |old(priv)| && old(InOrder(pub, priv)) && |privBoxed| == 1 ==>
                (InOrder(pub, priv) <==>
                 AddsNothing(privBoxed[0], |old(priv)|) || NewLinksMatch(privBoxed[0].seedChain, |old(priv)|))
      ensures old(senders.keys) <= senders.keys
      ensures |pub| != 0 && |pub| != |old(priv)| ==>
                senders.keys == HistoryAll(pub, old(priv), privBoxed, env, old(senders.keys))
    {
      if |pub| == 0 { return Err(NoPublicKeys); }
      if |pub| == |priv| { return Ok(()); }
      var all := WalkParcels(pub, priv, privBoxed, env, senders);
      if all.Err? { return Err(all.error); }
      UnboxedIsPublished(pub, priv, privBoxed, |privBoxed|, [], env, old(senders.keys));
      UnboxKeepsOrder(pub, priv, privBoxed, env, old(senders.keys));
      priv := all.value;
      return Ok(());
    }

    /** The private key of a generation, found by index alone. */
    method At(g: nat) returns (k: Option<SharedKey>)
      requires Valid()
      ensures k.Some? <==> 1 <= g <= |priv|
      ensures InOrder(pub, priv) && k.Some? ==> k.value.gen == g && Publicize(k.value) == pub[g - 1]
    {
      return if 1 <= g <= |priv| then Some(priv[g - 1]) else None;
    }
  }

  /** What `Unbox` promises about order. */
  lemma UnboxKeepsOrder(
    pub: seq<PublicKey>, held: seq<SharedKey>, parcels: seq<Parcel>, env: UnboxEnv, history: set<PartyKey>)
    requires UnboxAll(pub, held, parcels, env, history).Ok?
    ensures var all := UnboxAll(pub, held, parcels, env, history).value;
            && (InOrder(pub, held) && ChainsMatch(parcels, |parcels|) ==> InOrder(pub, all))
            && (held == [] && |parcels| == 1 ==> (InOrder(pub, all) <==> InnerGensMatch(parcels[0].seedChain)))
            && (InOrder(pub, held) && |parcels| == 1 ==>
                  (InOrder(pub, all) <==>
                   AddsNothing(parcels[0], |held|) || NewLinksMatch(parcels[0].seedChain, |held|)))
  {
    if InOrder(pub, held) && ChainsMatch(parcels, |parcels|) { UnboxedIsInOrder(pub, held, parcels, env, history); }
    if held == [] && |parcels| == 1 {
      assert parcels == [parcels[0]];
      FreshUnboxIsInOrderIff(pub, parcels[0], env, history);
    }
    if InOrder(pub, held) && |parcels| == 1 {
      assert parcels == [parcels[0]];
      OneParcelIsInOrderIff(pub, held, parcels[0], env, history);
    }
  }

  lemma MergeKeepsPublished(pub: seq<PublicKey>, x: seq<SharedKey>, y: seq<SharedKey>)
    requires AllPublished(pub, x) && AllPublished(pub, y)
    ensures Merge(x, y).Some? ==> AllPublished(pub, Merge(x, y).value)
  {
  }

  /** Keys already held from generation 1 stay in front of whatever is merged in. */
  lemma MergeKeepsPrefix(held: seq<SharedKey>, right: seq<SharedKey>)
    requires held != [] ==> StartGen(held) == 1
    requires right != [] ==> StartGen(right) >= 1
    ensures Merge(held, right).Some? && Merge(held, right).value != [] ==> held <= Merge(held, right).value
  {
  }

  // ----------------------------------------------- parcels from honest senders

  /** The parcel the server hands out for generation `n` of a key history, leaving out `from` old links. */
  function HonestParcel(keys: seq<SharedKey>, from: nat, n: nat, sender: PartyKey, receiver: PartyKey): (p: Parcel)
    requires from < n <= |keys|
  {
    var top := keys[n - 1];
    Parcel(n, top.role, receiver.gen, Box(sender, receiver, top), sender, ChainOf(keys, from, n))
  }

  /** The client holds the receiver key and knows, or can look up, the key that really sent the box. */
  ghost predicate CanOpen(env: UnboxEnv, history: set<PartyKey>, sender: PartyKey, receiver: PartyKey) {
    && 1 <= receiver.gen <= |env.receiver| && env.receiver[receiver.gen - 1] == receiver
    && (sender in history || env.roster.LookupByVerifyKey(sender) == Some(sender))
  }

  lemma UnboxDHOpensIff(keys: seq<SharedKey>, from: nat, n: nat, env: UnboxEnv, history: set<PartyKey>,
                        sender: PartyKey, receiver: PartyKey)
    requires from < n <= |keys| && keys[n - 1].gen == n
    ensures var r := UnboxDH(env, history, HonestParcel(keys, from, n, sender, receiver));
            if CanOpen(env, history, sender, receiver) then r == Ok(keys[n - 1]) else r.Err?
  {
  }

  /**
   An honestly made parcel opens if and only if the client has the receiver key
   and knows the sender; and then it yields the whole stretch of history.
   */
  lemma HonestParcelOpens(role: RoleKey, keys: seq<SharedKey>, pub: seq<PublicKey>, from: nat, n: nat,
                          env: UnboxEnv, history: set<PartyKey>, sender: PartyKey, receiver: PartyKey)
    requires IsHistory(role, keys) && Publishes(pub, keys) && from < n <= |keys|
    ensures var r := PtkUnbox(pub, env, history, HonestParcel(keys, from, n, sender, receiver));
            if CanOpen(env, history, sender, receiver) then r == Ok(keys[from..n]) else r.Err?
  {
    var top, parcel := keys[n - 1], HonestParcel(keys, from, n, sender, receiver);
    UnboxDHOpensIff(keys, from, n, env, history, sender, receiver);
    if CanOpen(env, history, sender, receiver) {
      assert top.gen == n && CheckOpened(Some(pub), top) == Ok(top);
      UnwindUndoesSealing(Some(pub), role, keys, from, n);
      var older := keys[from..n - 1];
      assert Unwind(Some(pub), top, top.gen - 1, parcel.seedChain) == Ok(older);
      SliceSnoc(keys, from, n);
    }
  }

  /** One load's parcel: it covers generations from+1..n. */
  datatype Fetch = Fetch(from: nat, n: nat, sender: PartyKey, receiver: PartyKey)

  /** Successive loads pick up where the previous one stopped, the first one at the start. */
  ghost predicate Successive(keys: seq<SharedKey>, fs: seq<Fetch>) {
    && (forall i :: 0 <= i < |fs| ==> fs[i].from < fs[i].n <= |keys|)
    && (fs != [] ==> fs[0].from == 0)
    && (forall i, j :: 0 <= i < j < |fs| && j == i + 1 ==> fs[j].from == fs[i].n)
  }

  ghost predicate AllOpen(fs: seq<Fetch>, env: UnboxEnv, history: set<PartyKey>) {
    forall i :: 0 <= i < |fs| ==> CanOpen(env, history, fs[i].sender, fs[i].receiver)
  }

  function ParcelsOf(keys: seq<SharedKey>, fs: seq<Fetch>): (ps: seq<Parcel>)
    requires forall i :: 0 <= i < |fs| ==> fs[i].from < fs[i].n <= |keys|
    ensures |ps| == |fs|
    ensures forall i :: 0 <= i < |fs| ==> ps[i] == HonestParcel(keys, fs[i].from, fs[i].n, fs[i].sender, fs[i].receiver)
  {
    seq(|fs|, i requires 0 <= i < |fs| => HonestParcel(keys, fs[i].from, fs[i].n, fs[i].sender, fs[i].receiver))
  }

  /**
   However the history was split over loads, and whatever part of it is already
   held, unboxing ends with exactly generations 1 up to the newest one fetched.
   */
  lemma UnboxRecoversHistory(role: RoleKey, keys: seq<SharedKey>, pub: seq<PublicKey>, held: nat,
                             fs: seq<Fetch>, env: UnboxEnv, history: set<PartyKey>)
    requires IsHistory(role, keys) && Publishes(pub, keys)
    requires Successive(keys, fs) && AllOpen(fs, env, history) && fs != [] && held <= fs[|fs| - 1].n
    ensures UnboxAll(pub, keys[..held], ParcelsOf(keys, fs), env, history) == Ok(keys[..fs[|fs| - 1].n])
  {
    var n := fs[|fs| - 1].n;
    assert keys[n..n] == [];
    UnboxRecoversFrom(role, keys, pub, held, fs, |fs|, n, env, history);
  }

  /** The stretch on the right begins where fetch `i - 1` ended. */
  lemma {:induction false} UnboxRecoversFrom(role: RoleKey, keys: seq<SharedKey>, pub: seq<PublicKey>, held: nat,
                                             fs: seq<Fetch>, i: nat, n: nat, env: UnboxEnv, history: set<PartyKey>)
    requires IsHistory(role, keys) && Publishes(pub, keys) && Successive(keys, fs) && AllOpen(fs, env, history)
    requires 1 <= i <= |fs| && fs[i - 1].n <= n <= |keys| && held <= n
    requires fs[i - 1].n < n ==> held < fs[i - 1].n
    ensures UnboxFrom(pub, keys[..held], ParcelsOf(keys, fs), i, keys[fs[i - 1].n..n], env, history) == Ok(keys[..n])
    decreases i
  {
    var f := fs[i - 1];
    UnboxOneFetch(role, keys, pub, held, ParcelsOf(keys, fs), i, f, n, env, history);
    if f.from > held {
      var next := HistoryAfter(env, history, ParcelsOf(keys, fs)[i - 1]);
      UnboxRecoversFrom(role, keys, pub, held, fs, i - 1, n, env, next);
    }
  }

  /** A fetch either reaches the keys held, which ends the walk, or extends the stretch on the right. */
  lemma UnboxOneFetch(role: RoleKey, keys: seq<SharedKey>, pub: seq<PublicKey>, held: nat,
                      parcels: seq<Parcel>, i: nat, f: Fetch, n: nat, env: UnboxEnv, history: set<PartyKey>)
    requires IsHistory(role, keys) && Publishes(pub, keys)
    requires 1 <= i <= |parcels| && f.from < f.n <= n <= |keys|
    requires held <= n && CanOpen(env, history, f.sender, f.receiver)
    requires parcels[i - 1] == HonestParcel(keys, f.from, f.n, f.sender, f.receiver)
    ensures UnboxFrom(pub, keys[..held], parcels, i, keys[f.n..n], env, history)
         == if f.from <= held then Ok(keys[..n])
            else UnboxFrom(pub, keys[..held], parcels, i - 1, keys[f.from..n], env,
                           HistoryAfter(env, history, parcels[i - 1]))
  {
    HonestParcelOpens(role, keys, pub, f.from, f.n, env, history, f.sender, f.receiver);
    MergeStretches(role, keys, f.from, f.n, n);
    assert OpenOnto(pub, parcels[i - 1], keys[f.n..n], env, history) == Ok(keys[f.from..n]);
    if f.from <= held {
      MergeHeld(role, keys, held, f.from, n);
      UnboxStopsHere(pub, keys[..held], parcels, i, keys[f.n..n], keys[f.from..n], keys[..n], env, history);
    } else {
      GapBelow(role, keys, held, f.from, n);
    }
  }

  /** A parcel that closes the gap ends the walk. */
  lemma UnboxStopsHere(pub: seq<PublicKey>, held: seq<SharedKey>, parcels: seq<Parcel>, i: nat,
                       right: seq<SharedKey>, right': seq<SharedKey>, all: seq<SharedKey>,
                       env: UnboxEnv, history: set<PartyKey>)
    requires 1 <= i <= |parcels| && OpenOnto(pub, parcels[i - 1], right, env, history) == Ok(right')
    requires Merge(held, right') == Some(all) && all != [] && StartGen(all) == 1
    ensures UnboxFrom(pub, held, parcels, i, right, env, history) == Ok(all)
  {
  }

  lemma MergeStretches(role: RoleKey, keys: seq<SharedKey>, from: nat, mid: nat, n: nat)
    requires IsHistory(role, keys) && from < mid <= n <= |keys|
    ensures Merge(keys[from..mid], keys[mid..n]) == Some(keys[from..n])
  {
    if mid == n {
      assert keys[mid..n] == [];
    } else {
      assert keys[mid..n][0..] == keys[mid..n];
      assert keys[from..mid] + keys[mid..n] == keys[from..n];
    }
  }

  lemma MergeHeld(role: RoleKey, keys: seq<SharedKey>, held: nat, from: nat, n: nat)
    requires IsHistory(role, keys) && from < n <= |keys| && from <= held <= n
    ensures Merge(keys[..held], keys[from..n]) == Some(keys[..n])
  {
    if held == 0 {
      assert keys[from..n] == keys[..n];
    } else if held < n {
      assert keys[from..n][held - from..] == keys[held..n];
      assert keys[..held] + keys[held..n] == keys[..n];
    }
  }

  lemma GapBelow(role: RoleKey, keys: seq<SharedKey>, held: nat, from: nat, n: nat)
    requires IsHistory(role, keys) && held < from < n <= |keys|
    ensures Merge(keys[..held], keys[from..n]).Some? && !Complete(keys[..held], keys[from..n])
  {
  }
}
