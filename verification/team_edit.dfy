/**
 Editing a team (client/libclient/team_minder_edit.go) and what any history of
 edits leaves behind: who can open which generation of which role's key.

 The planner comes from Gameplans, the opening side from Keyring. The server is
 the store of boxes and seed-chain links, filled the way `InsertPTKs` does.
 */
module TeamEdit {
  import opened Common
  import opened Roles
  import opened SeedChains
  import opened Keyring
  import opened Gameplans

  datatype EditError =
    | MemberNotFound | OwnKeyNotFound | MultipleSelfChanges | ExpectedTeamKeys
    | PtkNotFound | KeyMismatch | MemberKeysNotFound

  /** A box made for one member; the key inside says for which role and generation. */
  datatype MemberBox = MemberBox(member: MemberID, box: Box)

  // --------------------------------------------------------- choosing own keys

  /** `findSelfChangeGen`: the generation the editor moves itself to, 0 if it does not. */
  function SelfChangeGen(doer: MemberID, changes: seq<Change>): (r: Result<nat, EditError>)
    decreases |changes|
  {
    if changes == [] then Ok(0)
    else
      var n := |changes| - 1;
      match SelfChangeGen(doer, changes[..n])
      case Err(e) => Err(e)
      case Ok(g) =>
        if changes[n].member != doer then Ok(g)
        else if Changes(changes[..n], doer) then Err(MultipleSelfChanges)
        else if changes[n].Removes() then Err(ExpectedTeamKeys)
        else Ok(changes[n].info.gen)
  }

  // ------------------------------------------------------------ sealing boxes

  /** The key one schedule item boxes: a fresh one, or the current one if it is at the scheduled generation. */
  function ItemKey(item: ScheduleItem, ring: map<RoleKey, SharedKey>, seed: RoleKey -> Seed)
    : (r: Result<SharedKey, EditError>)
  {
    if item.newKeyGen then
      Ok(SharedKey(item.role, if item.role in ring then ring[item.role].gen + 1 else 1, seed(item.role)))
    else if item.role !in ring then Err(PtkNotFound)
    else if ring[item.role].gen != item.gen then Err(KeyMismatch)
    else Ok(ring[item.role])
  }

  /** The chain link a rotated role adds: its old key sealed under the new one. */
  function ItemChain(item: ScheduleItem, ring: map<RoleKey, SharedKey>, seed: RoleKey -> Seed): (c: seq<SeedChainBox>) {
    if item.newKeyGen && item.role in ring
    then [SealPrevious(ring[item.role], ItemKey(item, ring, seed).value)] else []
  }

  function ItemBoxes(key: SharedKey, members: seq<MemberID>, sender: PartyKey, post: Roster): (b: seq<MemberBox>)
    requires forall m :: m in members ==> m in post
    ensures |b| == |members|
    ensures forall i :: 0 <= i < |members| ==>
                          b[i] == MemberBox(members[i], Box(sender, PartyKey(members[i], post[members[i]].gen), key))
  {
    seq(|members|, i requires 0 <= i < |members| =>
      MemberBox(members[i], Box(sender, PartyKey(members[i], post[members[i]].gen), key)))
  }

  predicate CanSeal(sched: KeySchedule, ring: map<RoleKey, SharedKey>, seed: RoleKey -> Seed, post: Roster) {
    forall i :: 0 <= i < |sched| ==>
                  ItemKey(sched[i], ring, seed).Ok? && forall m :: m in sched[i].members ==> m in post
  }

  function AllBoxes(sched: KeySchedule, ring: map<RoleKey, SharedKey>, seed: RoleKey -> Seed, sender: PartyKey,
                    post: Roster)
    : (b: seq<MemberBox>)
    requires CanSeal(sched, ring, seed, post)
    decreases |sched|
  {
    if sched == [] then []
    else
      var n := |sched| - 1;
      AllBoxes(sched[..n], ring, seed, sender, post)
      + ItemBoxes(ItemKey(sched[n], ring, seed).value, sched[n].members, sender, post)
  }

  function AllChain(sched: KeySchedule, ring: map<RoleKey, SharedKey>, seed: RoleKey -> Seed): (c: seq<SeedChainBox>)
    decreases |sched|
  {
    if sched == [] then []
    else AllChain(sched[..|sched| - 1], ring, seed) + ItemChain(sched[|sched| - 1], ring, seed)
  }

  function AllNewPtks(sched: KeySchedule, ring: map<RoleKey, SharedKey>, seed: RoleKey -> Seed): (c: seq<SharedKey>)
    decreases |sched|
  {
    if sched == [] then []
    else
      var item := sched[|sched| - 1];
      AllNewPtks(sched[..|sched| - 1], ring, seed) + if item.newKeyGen then [ItemKey(item, ring, seed).value] else []
  }

  class TeamEditor {
    // what the caller provides
    const doer: MemberID
    const pre: Roster
    const changes: seq<Change>
    const ownKeys: nat                       // generations of its own key the editor holds: 1..ownKeys
    const ring: map<RoleKey, SharedKey>      // newest private PTK held, by role
    const seed: RoleKey -> Seed              // randomness for new PTKs
    // filled in by planning
    const sched: KeySchedule
    const post: Roster
    // state updated along the way
    var signKey: Option<PartyKey>
    var encryptKey: Option<PartyKey>
    var boxes: seq<MemberBox>
    var seedChain: seq<SeedChainBox>
    var newPtks: seq<SharedKey>

    constructor (doer: MemberID, pre: Roster, changes: seq<Change>, ownKeys: nat, ring: map<RoleKey, SharedKey>,
                 seed: RoleKey -> Seed, sched: KeySchedule, post: Roster)
      ensures this.doer == doer && this.pre == pre && this.changes == changes && this.ownKeys == ownKeys
      ensures this.ring == ring && this.seed == seed && this.sched == sched && this.post == post
      ensures signKey == None && encryptKey == None && boxes == [] && seedChain == [] && newPtks == []
    {
      this.doer, this.pre, this.changes, this.ownKeys := doer, pre, changes, ownKeys;
      this.ring, this.seed, this.sched, this.post := ring, seed, sched, post;
      signKey, encryptKey := None, None;
      boxes, seedChain, newPtks := [], [], [];
    }

    method FindSelfChangeGen() returns (r: Result<nat, EditError>)
      ensures r == SelfChangeGen(doer, changes)
    {
      var ret: nat := 0;
      var found := false;
      for i := 0 to |changes|
        invariant SelfChangeGen(doer, changes[..i]) == Ok(ret)
        invariant found == Changes(changes[..i], doer)
      {
        var ch := changes[i];
        assert changes[..i + 1][..i] == changes[..i] && changes[..i + 1][i] == ch;
        if ch.member == doer {
          if found {
            SelfChangeErrStays(doer, changes, i + 1);
            return Err(MultipleSelfChanges);
          }
          found := true;
          if ch.Removes() {
            SelfChangeErrStays(doer, changes, i + 1);
            return Err(ExpectedTeamKeys);
          }
          ret := ch.info.gen;
          assert changes[..i + 1][i].member == doer;
        }
      }
      assert changes[..|changes|] == changes;
      return Ok(ret);
    }

    /**
     Signs with the key the team chain already knows. Encrypts with that key too,
     unless this edit moves the editor to a newer one, which it then encrypts with.
     */
    method SetPrivateKeys() returns (r: Result<(), EditError>)
      modifies this`signKey, this`encryptKey
      ensures doer !in pre ==> r == Err(MemberNotFound)
      ensures r.Ok? ==>
                && doer in pre && signKey == Some(PartyKey(doer, pre[doer].gen))
                && SelfChangeGen(doer, changes).Ok?
                && var newGen := SelfChangeGen(doer, changes).value;
                   encryptKey == Some(PartyKey(doer, if newGen > pre[doer].gen then newGen else pre[doer].gen))
      ensures r.Err? ==> signKey == old(signKey) && encryptKey == old(encryptKey)
      ensures r.Ok? <==> && doer in pre && 1 <= pre[doer].gen <= ownKeys
                         && SelfChangeGen(doer, changes).Ok? && SelfChangeGen(doer, changes).value <= ownKeys
    {
      if doer !in pre { return Err(MemberNotFound); }
      var gen := pre[doer].gen;
      if !(1 <= gen <= ownKeys) { return Err(OwnKeyNotFound); }
      var newGen := FindSelfChangeGen();
      if newGen.Err? { return Err(newGen.error); }
      var senderGen := gen;
      if newGen.value > gen {
        if newGen.value > ownKeys { return Err(OwnKeyNotFound); }
        senderGen := newGen.value;
      }
      signKey := Some(PartyKey(doer, gen));
      encryptKey := Some(PartyKey(doer, senderGen));
      return Ok(());
    }

    /** Makes the new keys, the boxes and the chain links that the schedule asks for, or fails leaving nothing. */
    method RunBoxes() returns (r: Result<(), EditError>)
      requires encryptKey.Some?
      modifies this`boxes, this`seedChain, this`newPtks
      ensures r.Ok? <==> CanSeal(sched, ring, seed, post)
      ensures r.Ok? ==> boxes == AllBoxes(sched, ring, seed, encryptKey.value, post)
      ensures r.Ok? ==> seedChain == AllChain(sched, ring, seed) && newPtks == AllNewPtks(sched, ring, seed)
      ensures r.Err? ==> boxes == old(boxes) && seedChain == old(seedChain) && newPtks == old(newPtks)
    {
      var sender := encryptKey.value;
      var allBoxes: seq<MemberBox> := [];
      var chain: seq<SeedChainBox> := [];
      var ptks: seq<SharedKey> := [];
      for i := 0 to |sched|
        invariant encryptKey == Some(sender)
        invariant boxes == old(boxes) && seedChain == old(seedChain) && newPtks == old(newPtks)
        invariant CanSeal(sched[..i], ring, seed, post)
        invariant allBoxes == AllBoxes(sched[..i], ring, seed, sender, post)
        invariant chain == AllChain(sched[..i], ring, seed) && ptks == AllNewPtks(sched[..i], ring, seed)
      {
        var item := sched[i];
        assert sched[..i + 1][..i] == sched[..i] && sched[..i + 1][i] == item;
        var key := ItemKey(item, ring, seed);
        if key.Err? { return Err(key.error); }
        if item.newKeyGen {
          chain := chain + ItemChain(item, ring, seed);
          ptks := ptks + [key.value];
        }
        var made: seq<MemberBox> := [];
        for j := 0 to |item.members|
          invariant |made| == j
          invariant forall a :: 0 <= a < j ==> item.members[a] in post
          invariant forall a :: 0 <= a < j ==>
                      made[a] == MemberBox(item.members[a],
                                           Box(sender, PartyKey(item.members[a], post[item.members[a]].gen), key.value))
        {
          var m := item.members[j];
          if m !in post { return Err(MemberKeysNotFound); }
          made := made + [MemberBox(m, Box(sender, PartyKey(m, post[m].gen), key.value))];
        }
        assert made == ItemBoxes(key.value, item.members, sender, post);
        allBoxes := allBoxes + made;
      }
      assert sched[..|sched|] == sched;
      boxes, seedChain, newPtks := allBoxes, chain, ptks;
      return Ok(());
    }
  }

  /** An error found part of the way is the error of the whole. */
  lemma {:induction false} SelfChangeErrStays(doer: MemberID, changes: seq<Change>, n: nat)
    requires n <= |changes| && SelfChangeGen(doer, changes[..n]).Err?
    ensures SelfChangeGen(doer, changes) == SelfChangeGen(doer, changes[..n])
    decreases |changes| - n
  {
    if n == |changes| {
      assert changes[..n] == changes;
    } else {
      assert changes[..n + 1][..n] == changes[..n];
      SelfChangeErrStays(doer, changes, n + 1);
    }
  }
}
