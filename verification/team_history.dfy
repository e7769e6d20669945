/**
 Any history of team edits: the current key of a role is boxed for exactly the
 members entitled to it, whoever is entitled can open the role's whole history,
 and whoever is not can never derive its current key.
 */
module TeamHistory {
  import opened Common
  import opened Roles
  import opened SeedChains
  import opened Derivation
  import opened Keyring
  import opened Gameplans
  import opened TeamEdit

  /** Where the server files a box: for whom, of which role, at which generation. */
  datatype Slot = Slot(member: MemberID, role: RoleKey, gen: nat)

  datatype Team = Team(
    roster: Roster,
    roles: map<RoleKey, RoleState>,
    verifyKeys: set<PartyKey>,          // every member key the chain ever advertised
    boxes: map<Slot, Box>)
  {
    function KeyGens(): (g: KeyGens) { map r | r in roles :: |roles[r].keys| }
    function Role(r: RoleKey): (s: RoleState) { if r in roles then roles[r] else RoleState([], []) }
    predicate Current(k: Slot) { k.role in roles && k.gen == |roles[k.role].keys| }
  }

  const NO_TEAM := Team(map[], map[], {}, map[])

  datatype Edit = Edit(create: bool, doer: MemberID, changes: seq<Change>, opts: Options, seed: RoleKey -> Seed)

  ghost function PlanOf(t: Team, e: Edit): (p: Plan) {
    Plan(e.create, t.roster, t.KeyGens(), e.changes)
  }

  /** The edit passes the planner's checks and the editor can pick its own keys. */
  ghost predicate Accepts(t: Team, e: Edit) {
    && (e.create <==> t == NO_TEAM)
    && CheckChanges(e.create, t.roster, e.doer, e.changes, e.opts)
    && e.opts.requireOwner && (HasOwner(t.roster) ==> HasOwner(PlanOf(t, e).Post()))
    && (forall i :: 0 <= i < |e.changes| ==> WellFormed(t.roster, e.changes[i]))
    && SelfChangeGen(e.doer, e.changes).Ok?
    && FreshSeeds(t.roles, e.seed)
  }

  // ------------------------------------------------------------- after an edit

  /** The key the editor encrypts with, as chosen by `TeamEditor.SetPrivateKeys`. */
  ghost function SenderKey(t: Team, e: Edit): (k: PartyKey) {
    var self := SelfChangeGen(e.doer, e.changes);
    var newGen := if self.Ok? then self.value else 0;
    var gen := if e.doer in t.roster then t.roster[e.doer].gen else 0;
    PartyKey(e.doer, if newGen > gen then newGen else gen)
  }

  ghost function RoleAfter(t: Team, e: Edit, r: RoleKey): (s: RoleState) {
    if PlanOf(t, e).NewKey(r) then t.Role(r).Rotate(SharedKey(r, PlanOf(t, e).GenPost(r), e.seed(r))) else t.Role(r)
  }

  ghost function NewSlots(t: Team, e: Edit): (s: set<Slot>)
    ensures forall k :: k in s <==> PlanOf(t, e).Rekeyed(k.role, k.member) && k.gen == PlanOf(t, e).GenPost(k.role)
  {
    var plan := PlanOf(t, e);
    plan.IncludedIsTouchable();
    var members := plan.Post().Keys + set i | 0 <= i < |e.changes| :: e.changes[i].member;
    assert forall r, m :: plan.Rekeyed(r, m) ==> plan.Included(r);
    set r, m | r in plan.Touchable() && m in members && plan.Rekeyed(r, m) :: Slot(m, r, plan.GenPost(r))
  }

  ghost function NewBox(t: Team, e: Edit, k: Slot): (b: Box) {
    var post, keys := PlanOf(t, e).Post(), RoleAfter(t, e, k.role).keys;
    Box(SenderKey(t, e), PartyKey(k.member, if k.member in post then post[k.member].gen else 0),
        if keys == [] then SharedKey(k.role, 0, e.seed(k.role)) else keys[|keys| - 1])
  }

  ghost function AfterEdit(t: Team, e: Edit): (t': Team)
    ensures t'.roster == PlanOf(t, e).Post()
    ensures forall r :: r in t'.roles <==> r in t.roles || PlanOf(t, e).Included(r)
    ensures forall r :: r in t'.roles ==> t'.roles[r] == RoleAfter(t, e, r)
    ensures forall k :: k in t'.boxes <==> k in t.boxes || k in NewSlots(t, e)
    ensures forall k :: k in t'.boxes ==> t'.boxes[k] == if k in NewSlots(t, e) then NewBox(t, e, k) else t.boxes[k]
  {
    var post := PlanOf(t, e).Post();
    Team(
      post,
      map r | r in PlanOf(t, e).KeyGensPost() :: RoleAfter(t, e, r),
      t.verifyKeys + (set m | m in post :: PartyKey(m, post[m].gen)),
      t.boxes + map k | k in NewSlots(t, e) :: NewBox(t, e, k))
  }

  // ----------------------------------------------------------------- invariant

  ghost predicate RolesOk(t: Team) { StatesOk(t.roles) }

  /** The current key of a role is boxed for exactly the members at or above that role. */
  ghost predicate BoxedExactly(t: Team) {
    forall k :: t.Current(k) ==> (k in t.boxes <==> Reads(t.roster, k.member, k.role))
  }

  ghost predicate BoxOk(t: Team, k: Slot, b: Box) {
    && k.role in t.roles && 1 <= k.gen <= |t.roles[k.role].keys|
    && b.cleartext == t.roles[k.role].keys[k.gen - 1]
    && b.receiver.member == k.member && 1 <= b.receiver.gen
    && (t.Current(k) && k.member in t.roster ==> b.receiver.gen <= t.roster[k.member].gen)
  }

  ghost predicate BoxesOk(t: Team) {
    forall k :: k in t.boxes ==> BoxOk(t, k, t.boxes[k])
  }

  /** A fresh loader can look up the newest key of every member. */
  ghost predicate Advertised(t: Team) {
    forall m :: m in t.roster ==> PartyKey(m, t.roster[m].gen) in t.verifyKeys
  }

  ghost predicate Members(t: Team) {
    RosterOk(t.roster) && HasOwner(t.roster) && Advertised(t)
  }

  ghost predicate Inv(t: Team) {
    Members(t) && RolesOk(t) && BoxedExactly(t) && BoxesOk(t) && SeedsDistinct(t.roles)
  }

  // ------------------------------------------------- the invariant is preserved

  lemma AcceptedPlanIsOk(t: Team, e: Edit)
    requires (t == NO_TEAM || (Members(t) && RolesOk(t))) && Accepts(t, e)
    ensures PlanOk(PlanOf(t, e))
  {
    if e.create {
      ApplyIsOverwrite(t.roster, e.changes, e.doer);
    }
  }

  lemma MembersAfter(t: Team, e: Edit)
    requires PlanOk(PlanOf(t, e))
    ensures Members(AfterEdit(t, e))
  {
    RosterOkAfter(PlanOf(t, e));
  }

  lemma IncludedRoleAtMostOwner(plan: Plan, r: RoleKey)
    requires PlanOk(plan) && plan.Included(r)
    ensures r.AtMost(OWNER_ROLE)
  {
    var m :| plan.Rekeyed(r, m);
    RekeyedReads(plan, r, m);
    RosterOkAfter(plan);
  }

  lemma RoleOkAfter(t: Team, e: Edit, r: RoleKey)
    requires PlanOk(PlanOf(t, e)) && r in AfterEdit(t, e).roles
    requires r in t.roles ==> t.roles[r].Ok(r)
    ensures RoleAfter(t, e, r).Ok(r) && |RoleAfter(t, e, r).keys| == PlanOf(t, e).GenPost(r)
  {
    var plan := PlanOf(t, e);
    if plan.NewKey(r) {
      IncludedRoleAtMostOwner(plan, r);
      RotateOk(r, t.Role(r), SharedKey(r, plan.GenPost(r), e.seed(r)));
    }
  }

  lemma RolesOkAfter(t: Team, e: Edit)
    requires PlanOk(PlanOf(t, e)) && RolesOk(t)
    ensures RolesOk(AfterEdit(t, e))
    ensures forall r :: r in AfterEdit(t, e).roles ==> |AfterEdit(t, e).roles[r].keys| == PlanOf(t, e).GenPost(r)
  {
    forall r | r in AfterEdit(t, e).roles
      ensures RoleAfter(t, e, r).Ok(r) && |RoleAfter(t, e, r).keys| == PlanOf(t, e).GenPost(r)
    {
      RoleOkAfter(t, e, r);
    }
  }

  lemma BoxedExactlyAfter(t: Team, e: Edit, k: Slot)
    requires PlanOk(PlanOf(t, e)) && RolesOk(t) && BoxedExactly(t) && BoxesOk(t)
    requires AfterEdit(t, e).Current(k)
    ensures k in AfterEdit(t, e).boxes <==> Reads(AfterEdit(t, e).roster, k.member, k.role)
  {
    var plan := PlanOf(t, e);
    RoleOkAfter(t, e, k.role);
    Coverage(plan, k.role, k.member);
    assert k in t.boxes ==> BoxOk(t, k, t.boxes[k]);
    assert !plan.NewKey(k.role) ==> t.Current(k);
  }

  lemma NewBoxOk(t: Team, e: Edit, k: Slot)
    requires PlanOk(PlanOf(t, e)) && RolesOk(t) && k in NewSlots(t, e)
    ensures BoxOk(AfterEdit(t, e), k, NewBox(t, e, k))
  {
    var plan := PlanOf(t, e);
    RekeyedReads(plan, k.role, k.member);
    RosterOkAfter(plan);
    assert plan.Included(k.role);
    RoleOkAfter(t, e, k.role);
    NewBoxHoldsNewest(t, e, k);
    FreshBoxOk(AfterEdit(t, e), k, NewBox(t, e, k));
  }

  lemma FreshBoxOk(t: Team, k: Slot, b: Box)
    requires k.role in t.roles && t.roles[k.role].Ok(k.role) && k.gen == |t.roles[k.role].keys| && k.member in t.roster
    requires t.roster[k.member].gen >= 1 && b.receiver == PartyKey(k.member, t.roster[k.member].gen)
    requires b.cleartext == t.roles[k.role].Newest()
    ensures BoxOk(t, k, b)
  {
  }

  lemma NewBoxHoldsNewest(t: Team, e: Edit, k: Slot)
    requires RoleAfter(t, e, k.role).keys != [] && k.member in PlanOf(t, e).Post()
    ensures NewBox(t, e, k).cleartext == RoleAfter(t, e, k.role).Newest()
    ensures NewBox(t, e, k).receiver == PartyKey(k.member, PlanOf(t, e).Post()[k.member].gen)
  {
  }

  lemma GenNeverDrops(plan: Plan, m: MemberID)
    requires PlanOk(plan) && m in plan.pre && m in plan.Post()
    ensures plan.pre[m].gen <= plan.Post()[m].gen
  {
    ApplyIsOverwrite(plan.pre, plan.changes, m);
  }

  lemma OldBoxOk(t: Team, e: Edit, k: Slot)
    requires PlanOk(PlanOf(t, e)) && BoxedExactly(t) && k in t.boxes && BoxOk(t, k, t.boxes[k])
    ensures BoxOk(AfterEdit(t, e), k, t.boxes[k])
  {
    var t' := AfterEdit(t, e);
    if t'.Current(k) && k.member in t'.roster {
      assert t.Current(k);
      GenNeverDrops(PlanOf(t, e), k.member);
    }
  }

  lemma BoxesOkAfter(t: Team, e: Edit)
    requires PlanOk(PlanOf(t, e)) && RolesOk(t) && BoxedExactly(t) && BoxesOk(t)
    ensures BoxesOk(AfterEdit(t, e))
  {
    var t' := AfterEdit(t, e);
    forall k | k in t'.boxes ensures BoxOk(t', k, t'.boxes[k]) {
      if k in NewSlots(t, e) { NewBoxOk(t, e, k); } else { OldBoxOk(t, e, k); }
    }
  }

  lemma SeedAfter(t: Team, e: Edit, r: RoleKey, i: nat)
    requires r in AfterEdit(t, e).roles && i < |AfterEdit(t, e).roles[r].keys|
    ensures r in t.roles && i < |t.roles[r].keys| ==> AfterEdit(t, e).roles[r].keys[i] == t.roles[r].keys[i]
    ensures !(r in t.roles && i < |t.roles[r].keys|) ==>
              AfterEdit(t, e).roles[r].keys[i].seed == e.seed(r) && i == |t.Role(r).keys|
  {
  }

  lemma SeedsDistinctAfter(t: Team, e: Edit)
    requires SeedsDistinct(t.roles) && FreshSeeds(t.roles, e.seed)
    ensures SeedsDistinct(AfterEdit(t, e).roles)
  {
    var after := AfterEdit(t, e).roles;
    forall r, i | r in after && 0 <= i < |after[r].keys| ensures GrownAt(t.roles, after, e.seed, r, i) {
      SeedAfter(t, e, r, i);
    }
    SeedsStayDistinct(t.roles, after, e.seed);
  }

  /** Every accepted edit keeps the invariant. */
  lemma EditKeepsInv(t: Team, e: Edit)
    requires (t == NO_TEAM || Inv(t)) && Accepts(t, e)
    ensures Inv(AfterEdit(t, e))
  {
    AcceptedPlanIsOk(t, e);
    MembersAfter(t, e);
    RolesOkAfter(t, e);
    forall k | AfterEdit(t, e).Current(k)
      ensures k in AfterEdit(t, e).boxes <==> Reads(AfterEdit(t, e).roster, k.member, k.role)
    {
      BoxedExactlyAfter(t, e, k);
    }
    BoxesOkAfter(t, e);
    SeedsDistinctAfter(t, e);
  }

  /** A run of accepted edits, starting with the creation of the team. */
  ghost predicate Run(ts: seq<Team>, es: seq<Edit>) {
    && |ts| == |es| + 1 && ts[0] == NO_TEAM
    && forall i {:trigger es[i]} :: 0 <= i < |es| ==> Accepts(ts[i], es[i]) && ts[i + 1] == AfterEdit(ts[i], es[i])
  }

  /** The invariant holds after every edit of every run. */
  lemma {:induction false} RunKeepsInv(ts: seq<Team>, es: seq<Edit>, n: nat)
    requires Run(ts, es) && 1 <= n < |ts|
    ensures Inv(ts[n])
  {
    if n > 1 { RunKeepsInv(ts, es, n - 1); }
    EditKeepsInv(ts[n - 1], es[n - 1]);
  }

  // ----------------------------------------- the editor produces just this edit

  /** The newest key of every role the editor can read. */
  ghost function Ring(t: Team, e: Edit): (ring: map<RoleKey, SharedKey>) {
    var role := DoerRole(e.create, t.roster, e.doer);
    map r | r in t.roles && t.roles[r].keys != [] && r.AtMost(role) :: t.roles[r].Newest()
  }

  /** Every role the schedule touches is one the editor can read. */
  lemma ScheduledRoleIsReadable(t: Team, e: Edit, r: RoleKey)
    requires PlanOk(PlanOf(t, e)) && Accepts(t, e) && PlanOf(t, e).Included(r)
    ensures r.AtMost(DoerRole(e.create, t.roster, e.doer))
  {
    var plan := PlanOf(t, e);
    var m :| plan.Rekeyed(r, m);
    var i :| 0 <= i < |e.changes| && plan.RekeyedBy(e.changes[i], r, m);
    assert ChangeAllowed(t.roster, e.doer, DoerRole(e.create, t.roster, e.doer), e.changes[i]);
  }

  lemma ItemKeyOfRole(item: ScheduleItem, ring: map<RoleKey, SharedKey>, seed: RoleKey -> Seed, s: RoleState)
    requires if s.keys == [] then item.newKeyGen && item.role !in ring
             else s.Ok(item.role) && item.role in ring && ring[item.role] == s.Newest()
    requires item.gen == if item.newKeyGen then |s.keys| + 1 else |s.keys|
    ensures ItemKey(item, ring, seed)
         == Ok(if item.newKeyGen then SharedKey(item.role, item.gen, seed(item.role)) else s.Newest())
  {
  }

  /** The editor holds every key its schedule needs, and boxes exactly the newest key of the role. */
  lemma ItemKeyIsNewest(t: Team, e: Edit, item: ScheduleItem)
    requires PlanOf(t, e).Included(item.role) && (item.role in t.roles ==> t.roles[item.role].Ok(item.role))
    requires item.newKeyGen == PlanOf(t, e).NewKey(item.role) && item.gen == PlanOf(t, e).GenPost(item.role)
    requires item.role.AtMost(DoerRole(e.create, t.roster, e.doer))
    ensures RoleAfter(t, e, item.role).keys != []
    ensures ItemKey(item, Ring(t, e), e.seed) == Ok(RoleAfter(t, e, item.role).Newest())
  {
    ItemKeyOfRole(item, Ring(t, e), e.seed, t.Role(item.role));
  }

  ghost predicate Made(boxes: seq<MemberBox>, k: Slot, b: Box) {
    exists i :: 0 <= i < |boxes| && boxes[i] == MemberBox(k.member, b)
                && b.cleartext.role == k.role && b.cleartext.gen == k.gen
  }

  lemma {:induction false} AllBoxesMembers(
    sched: KeySchedule, ring: map<RoleKey, SharedKey>, seed: RoleKey -> Seed, sender: PartyKey, post: Roster,
    b: MemberBox)
    requires CanSeal(sched, ring, seed, post)
    ensures b in AllBoxes(sched, ring, seed, sender, post) <==>
            exists i :: 0 <= i < |sched| && b in ItemBoxes(ItemKey(sched[i], ring, seed).value, sched[i].members,
                                                           sender, post)
    decreases |sched|
  {
    if sched != [] {
      var n := |sched| - 1;
      AllBoxesMembers(sched[..n], ring, seed, sender, post, b);
      assert forall i :: 0 <= i < n ==> sched[..n][i] == sched[i];
    }
  }

  /** A schedule item as the planner promises it, at a role the editor can read. */
  ghost predicate ItemOk(t: Team, e: Edit, item: ScheduleItem) {
    && item.newKeyGen == PlanOf(t, e).NewKey(item.role) && item.gen == PlanOf(t, e).GenPost(item.role)
    && RoleAfter(t, e, item.role).keys != [] && RoleAfter(t, e, item.role).Newest().gen == item.gen
    && RoleAfter(t, e, item.role).Newest().role == item.role
    && ItemKey(item, Ring(t, e), e.seed) == Ok(RoleAfter(t, e, item.role).Newest())
    && (forall m :: m in item.members <==> PlanOf(t, e).Rekeyed(item.role, m))
    && (forall m :: m in item.members ==> m in PlanOf(t, e).Post())
    && item.role.AtMost(DoerRole(e.create, t.roster, e.doer))
  }

  lemma ScheduleItemOk(t: Team, e: Edit, sched: KeySchedule, i: nat)
    requires PlanOk(PlanOf(t, e)) && Accepts(t, e) && RolesOk(t) && IsSchedule(PlanOf(t, e), sched) && i < |sched|
    ensures ItemOk(t, e, sched[i])
  {
    var plan, item := PlanOf(t, e), sched[i];
    assert plan.Included(item.role);
    ScheduledRoleIsReadable(t, e, item.role);
    RoleOkAfter(t, e, item.role);
    ItemKeyIsNewest(t, e, item);
    forall m | m in item.members ensures m in plan.Post() { RekeyedReads(plan, item.role, m); }
  }

  /** Every box an item makes is the new box of its slot, and every scheduled member gets one. */
  lemma ItemBoxIff(t: Team, e: Edit, item: ScheduleItem, k: Slot, b: Box)
    requires ItemOk(t, e, item)
    ensures MemberBox(k.member, b) in ItemBoxes(RoleAfter(t, e, item.role).Newest(), item.members, SenderKey(t, e),
                                                PlanOf(t, e).Post())
            && b.cleartext.role == k.role && b.cleartext.gen == k.gen
            <==> k in NewSlots(t, e) && k.role == item.role && b == NewBox(t, e, k)
  {
    var boxes := ItemBoxes(RoleAfter(t, e, item.role).Newest(), item.members, SenderKey(t, e), PlanOf(t, e).Post());
    if k in NewSlots(t, e) && k.role == item.role && b == NewBox(t, e, k) {
      var j :| 0 <= j < |item.members| && item.members[j] == k.member;
      assert boxes[j] == MemberBox(k.member, b);
    }
  }

  /**
   The boxes made by `TeamEditor.RunBoxes` for the planned schedule are the ones
   the team gains: one for each scheduled member of each scheduled role, no other.
   */
  lemma EditorMakesTheNewBoxes(t: Team, e: Edit, sched: KeySchedule)
    requires (t == NO_TEAM || Inv(t)) && Accepts(t, e) && Gameplan(PlanOf(t, e), e.doer, e.opts, sched)
    ensures CanSeal(sched, Ring(t, e), e.seed, PlanOf(t, e).Post())
    ensures forall k, b :: Made(AllBoxes(sched, Ring(t, e), e.seed, SenderKey(t, e), PlanOf(t, e).Post()), k, b)
                           <==> k in NewSlots(t, e) && b == AfterEdit(t, e).boxes[k]
  {
    AcceptedPlanIsOk(t, e);
    forall i | 0 <= i < |sched| ensures ItemOk(t, e, sched[i]) {
      ScheduleItemOk(t, e, sched, i);
    }
    forall k, b ensures Made(AllBoxes(sched, Ring(t, e), e.seed, SenderKey(t, e), PlanOf(t, e).Post()), k, b)
                        <==> k in NewSlots(t, e) && b == NewBox(t, e, k)
    {
      BoxIsMadeIff(t, e, sched, k, b);
    }
  }

  lemma BoxIsMadeIff(t: Team, e: Edit, sched: KeySchedule, k: Slot, b: Box)
    requires forall i :: 0 <= i < |sched| ==> ItemOk(t, e, sched[i])
    requires forall r :: PlanOf(t, e).Included(r) <==> exists i :: 0 <= i < |sched| && sched[i].role == r
    ensures CanSeal(sched, Ring(t, e), e.seed, PlanOf(t, e).Post())
    ensures Made(AllBoxes(sched, Ring(t, e), e.seed, SenderKey(t, e), PlanOf(t, e).Post()), k, b)
            <==> k in NewSlots(t, e) && b == NewBox(t, e, k)
  {
    var plan, ring, sender := PlanOf(t, e), Ring(t, e), SenderKey(t, e);
    var all := AllBoxes(sched, ring, e.seed, sender, plan.Post());
    var mb := MemberBox(k.member, b);
    AllBoxesMembers(sched, ring, e.seed, sender, plan.Post(), mb);
    if Made(all, k, b) {
      assert mb in all;
      var i :| 0 <= i < |sched| && mb in ItemBoxes(ItemKey(sched[i], ring, e.seed).value, sched[i].members, sender,
                                                   plan.Post());
      ItemBoxIff(t, e, sched[i], k, b);
    }
    if k in NewSlots(t, e) && b == NewBox(t, e, k) {
      assert plan.Included(k.role);
      var i :| 0 <= i < |sched| && sched[i].role == k.role;
      ItemBoxIff(t, e, sched[i], k, b);
      assert mb in all;
    }
  }

  lemma {:induction false} AllChainMembers(
    sched: KeySchedule, ring: map<RoleKey, SharedKey>, seed: RoleKey -> Seed, link: SeedChainBox)
    ensures link in AllChain(sched, ring, seed) <==>
              exists i :: 0 <= i < |sched| && link in ItemChain(sched[i], ring, seed)
    decreases |sched|
  {
    if sched != [] {
      var n := |sched| - 1;
      AllChainMembers(sched[..n], ring, seed, link);
      assert forall i :: 0 <= i < n ==> sched[..n][i] == sched[i];
    }
  }

  /** The chain links the editor makes are the ones the rotated roles gain, no other. */
  lemma EditorMakesTheNewLinks(t: Team, e: Edit, sched: KeySchedule, link: SeedChainBox)
    requires (t == NO_TEAM || Inv(t)) && Accepts(t, e) && Gameplan(PlanOf(t, e), e.doer, e.opts, sched)
    ensures link in AllChain(sched, Ring(t, e), e.seed) <==>
            exists r :: && r in t.roles && PlanOf(t, e).NewKey(r)
                        && AfterEdit(t, e).roles[r].chain == t.roles[r].chain + [link]
  {
    AcceptedPlanIsOk(t, e);
    AllChainMembers(sched, Ring(t, e), e.seed, link);
    forall i | 0 <= i < |sched|
      ensures var r := sched[i].role;
              link in ItemChain(sched[i], Ring(t, e), e.seed) <==>
              r in t.roles && PlanOf(t, e).NewKey(r) && RoleAfter(t, e, r).chain == t.roles[r].chain + [link]
    {
      ScheduleItemOk(t, e, sched, i);
      ScheduledLink(t, e, sched[i], link);
    }
  }

  lemma ScheduledLink(t: Team, e: Edit, item: ScheduleItem, link: SeedChainBox)
    requires ItemOk(t, e, item) && PlanOf(t, e).Included(item.role)
    requires item.role in t.roles ==> t.roles[item.role].keys != []
    ensures var r := item.role;
            link in ItemChain(item, Ring(t, e), e.seed) <==>
            r in t.roles && PlanOf(t, e).NewKey(r) && RoleAfter(t, e, r).chain == t.roles[r].chain + [link]
  {
    var r := item.role;
    if r in t.roles && item.newKeyGen {
      var c := t.roles[r].chain;
      var made := SealPrevious(t.roles[r].Newest(), RoleAfter(t, e, r).Newest());
      assert RoleAfter(t, e, r).chain == c + [made];
      assert (c + [made])[|c|] == made && (c + [link])[|c|] == link;
    }
  }
}
