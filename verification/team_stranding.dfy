/**
 Two runs of ordinary, accepted edits that leave a member entitled to a role unable to
 load its key: the sender of the member's box is promoted and moved to a new key in one
 change, or demotes itself and is moved to a new key later.
 */
module TeamStranding {
  import opened Common
  import opened Roles
  import opened SeedChains
  import opened Keyring
  import opened Gameplans
  import opened TeamEdit
  import opened TeamHistory
  import opened TeamAccess

  const OWNER_O := MemberID(0, 0, OWNER_ROLE)
  const ADMIN_A := MemberID(1, 0, OWNER_ROLE)
  const NEWCOMER := MemberID(2, 0, OWNER_ROLE)
  const DEFAULTS := Options(true, None, false)

  function Draw(n: nat): (f: RoleKey -> Seed) { r => Seed(n, r) }

  function OneChange(doer: MemberID, m: MemberID, role: RoleKey, gen: nat, draw: nat): (e: Edit) {
    Edit(false, doer, [Change(m, MemberInfo(role, gen, 0))], DEFAULTS, Draw(draw))
  }

  /** The team's creation with an admin. */
  const CREATION := Edit(true, OWNER_O,
    [Change(OWNER_O, MemberInfo(OWNER_ROLE, 1, 0)), Change(ADMIN_A, MemberInfo(ADMIN_ROLE, 1, 0))], DEFAULTS, Draw(1))
  /** The admin adds a member. */
  const ADDITION := OneChange(ADMIN_A, NEWCOMER, MEMBER_ROLE, 1, 2)
  /** The owner promotes the admin and records the admin's new key in the same change. */
  const PROMOTION := OneChange(OWNER_O, ADMIN_A, OWNER_ROLE, 2, 3)
  /** The admin steps down. */
  const DEMOTION := OneChange(ADMIN_A, ADMIN_A, MEMBER_ROLE, 1, 2)
  /** The owner records the former admin's new key. */
  const NEW_KEY := OneChange(OWNER_O, ADMIN_A, MEMBER_ROLE, 2, 3)

  const FIRST_ROSTER: Roster :=
    map[OWNER_O := MemberInfo(OWNER_ROLE, 1, 0), ADMIN_A := MemberInfo(ADMIN_ROLE, 1, 0)]

  lemma ApplySingle(roster: Roster, ch: Change)
    ensures Apply(roster, [ch]) == ApplyOne(roster, ch)
  {
    assert [ch][1..] == [];
  }

  /** Seeds drawn so far, by edit number. */
  ghost predicate DrawsUpTo(t: Team, n: nat) {
    forall r, i :: r in t.roles && 0 <= i < |t.roles[r].keys| ==> t.roles[r].keys[i].seed.draw <= n
  }

  lemma DrawsAfter(t: Team, e: Edit, n: nat)
    requires DrawsUpTo(t, n) && e.seed == Draw(n + 1)
    ensures DrawsUpTo(AfterEdit(t, e), n + 1)
  {
    forall r, i | r in AfterEdit(t, e).roles && 0 <= i < |AfterEdit(t, e).roles[r].keys|
      ensures AfterEdit(t, e).roles[r].keys[i].seed.draw <= n + 1
    {
      SeedAfter(t, e, r, i);
    }
  }

  lemma CreationIsAccepted()
    ensures Accepts(NO_TEAM, CREATION) && PlanOf(NO_TEAM, CREATION).Post() == FIRST_ROSTER
    ensures SenderKey(NO_TEAM, CREATION) == PartyKey(OWNER_O, 1)
  {
    var changes := CREATION.changes;
    assert changes[1..] == [changes[1]];
    ApplySingle(ApplyOne(map[], changes[0]), changes[1]);
    assert SelfChangeGen(OWNER_O, changes) == Ok(1) by {
      assert changes[..1] == [changes[0]] && changes[..1][..0] == [];
      assert SelfChangeGen(OWNER_O, []) == Ok(0);
    }
    assert changes[0].member == OWNER_O && changes[0].info.role == OWNER_ROLE;
  }

  lemma CreationOpens(r: RoleKey)
    requires r == ADMIN_ROLE || r == MEMBER_ROLE
    ensures r in AfterEdit(NO_TEAM, CREATION).roles && |AfterEdit(NO_TEAM, CREATION).roles[r].keys| == 1
  {
    var plan := PlanOf(NO_TEAM, CREATION);
    assert plan.RekeyedBy(CREATION.changes[0], r, OWNER_O);
    assert plan.Rekeyed(r, OWNER_O);
    assert plan.Included(r);
  }

  /** What creation leaves behind. */
  ghost predicate Created(t: Team) {
    && t.roster == FIRST_ROSTER && DrawsUpTo(t, 1)
    && (forall k :: k in t.boxes ==> t.boxes[k].sender == PartyKey(OWNER_O, 1))
  }

  lemma NotTheOwnersKey(t: Team, e: Edit)
    requires Created(t) && |e.changes| == 1 && e.changes[0].member != OWNER_O
    ensures AllOpenable(t) && !Strands(t, e)
  {
  }

  lemma AfterCreation() returns (t: Team)
    ensures Accepts(NO_TEAM, CREATION) && t == AfterEdit(NO_TEAM, CREATION) && Disciplined(NO_TEAM, CREATION)
    ensures Inv(t) && Created(t)
    ensures MEMBER_ROLE in t.roles && |t.roles[MEMBER_ROLE].keys| == 1
    ensures ADMIN_ROLE in t.roles && |t.roles[ADMIN_ROLE].keys| == 1
  {
    CreationIsAccepted();
    EditKeepsInv(NO_TEAM, CREATION);
    DrawsAfter(NO_TEAM, CREATION, 0);
    CreationOpens(MEMBER_ROLE);
    CreationOpens(ADMIN_ROLE);
    t := AfterEdit(NO_TEAM, CREATION);
  }

  /** What the planner asks of a single change, made by an admin or an owner. */
  ghost predicate SingleOk(t: Team, e: Edit) {
    && !e.create && |e.changes| == 1 && e.opts == DEFAULTS && e.doer in t.roster && t.roster[e.doer].role.typ >= ADMIN
    && var ch := e.changes[0];
       && ch.info.role.Valid() && !ch.Removes() && ch.info.gen >= 1
       && ChangeAllowed(t.roster, e.doer, t.roster[e.doer].role, ch)
  }

  lemma SingleIsAccepted(t: Team, e: Edit, n: nat)
    requires SingleOk(t, e) && RosterOk(t.roster) && DrawsUpTo(t, n) && e.seed == Draw(n + 1)
    requires OWNER_O in t.roster && t.roster[OWNER_O].role == OWNER_ROLE && e.changes[0].member != OWNER_O
    ensures Accepts(t, e) && DrawsUpTo(AfterEdit(t, e), n + 1)
    ensures AfterEdit(t, e).roster == t.roster[e.changes[0].member := e.changes[0].info]
    ensures e.changes[0].member != e.doer || e.changes[0].info.gen == t.roster[e.doer].gen ==>
              SenderKey(t, e) == PartyKey(e.doer, t.roster[e.doer].gen)
  {
    assert e.changes == [e.changes[0]];
    ApplySingle(t.roster, e.changes[0]);
    assert e.changes[..0] == [] && SelfChangeGen(e.doer, []) == Ok(0);
    DrawsAfter(t, e, n);
    assert PlanOf(t, e).Post()[OWNER_O].role.typ == OWNER;
  }

  /** With one change that floods nothing at this role, the role keeps its key. */
  lemma QuietChange(plan: Plan, r: RoleKey)
    requires |plan.changes| == 1 && r in plan.keyGens && !plan.FloodsRole(plan.changes[0], r)
    ensures !plan.NewKey(r)
  {
  }

  lemma RunOfThree(t1: Team, t2: Team, e1: Edit, e2: Edit, e3: Edit)
    requires Accepts(NO_TEAM, e1) && t1 == AfterEdit(NO_TEAM, e1)
    requires Accepts(t1, e2) && t2 == AfterEdit(t1, e2) && Accepts(t2, e3)
    ensures Run([NO_TEAM, t1, t2, AfterEdit(t2, e3)], [e1, e2, e3])
  {
    var ts, es := [NO_TEAM, t1, t2, AfterEdit(t2, e3)], [e1, e2, e3];
    assert es[0] == e1 && es[1] == e2 && es[2] == e3;
    assert ts[0] == NO_TEAM && ts[1] == t1 && ts[2] == t2 && ts[3] == AfterEdit(t2, e3);
    forall i {:trigger es[i]} | 0 <= i < |es| ensures Accepts(ts[i], es[i]) && ts[i + 1] == AfterEdit(ts[i], es[i]) {
      if i == 0 {
      } else if i == 1 {
      } else {
        assert i == 2;
      }
    }
  }

  /** After two edits that strand nobody, a third one leaves a member's box behind. */
  lemma ThirdStrands(t1: Team, t2: Team, e2: Edit, e3: Edit, k: Slot, i: nat) returns (ts: seq<Team>, es: seq<Edit>)
    requires Accepts(NO_TEAM, CREATION) && t1 == AfterEdit(NO_TEAM, CREATION) && Inv(t1) && AllOpenable(t1)
    requires Accepts(t1, e2) && t2 == AfterEdit(t1, e2) && !Strands(t1, e2) && Accepts(t2, e3)
    requires k in t2.boxes && t2.Current(k) && !PlanOf(t2, e3).NewKey(k.role)
    requires i < |e3.changes| && TakesAway(e3.changes[i], t2.boxes[k].sender)
    ensures ts == [NO_TEAM, t1, t2, AfterEdit(t2, e3)] && es == [CREATION, e2, e3] && Run(ts, es)
    ensures EverybodyLoads(t2) && Strands(t2, e3)
    ensures Reads(ts[3].roster, k.member, k.role) && !Loads(ts[3], k.member, k.role)
  {
    ts, es := [NO_TEAM, t1, t2, AfterEdit(t2, e3)], [CREATION, e2, e3];
    RunOfThree(t1, t2, CREATION, e2, e3);
    EditKeepsInv(t1, e2);
    OpenableIffNotStranded(t1, e2);
    OpenableIffEverybodyLoads(t2);
    StrandedBox(t2, e3, k, i);
  }

  // ------------------------------------------- promotion together with a new key

  lemma AdditionBoxes(t: Team, k: Slot)
    requires t.roster == FIRST_ROSTER && MEMBER_ROLE in t.roles && |t.roles[MEMBER_ROLE].keys| == 1
    requires k == Slot(NEWCOMER, MEMBER_ROLE, 1)
    ensures var t' := AfterEdit(t, ADDITION);
            t'.Current(k) && k in t'.boxes && t'.boxes[k].sender == SenderKey(t, ADDITION)
  {
    var plan := PlanOf(t, ADDITION);
    QuietChange(plan, MEMBER_ROLE);
    assert plan.RekeyedBy(ADDITION.changes[0], MEMBER_ROLE, NEWCOMER);
    assert k in NewSlots(t, ADDITION);
  }

  lemma AdditionFits(t: Team)
    requires Created(t)
    ensures Accepts(t, ADDITION) && Disciplined(t, ADDITION) && DrawsUpTo(AfterEdit(t, ADDITION), 2)
    ensures AfterEdit(t, ADDITION).roster == FIRST_ROSTER[NEWCOMER := MemberInfo(MEMBER_ROLE, 1, 0)]
    ensures SenderKey(t, ADDITION) == PartyKey(ADMIN_A, 1)
  {
    SingleIsAccepted(t, ADDITION, 1);
  }

  lemma PromotionFits(t: Team)
    requires t.roster == FIRST_ROSTER[NEWCOMER := MemberInfo(MEMBER_ROLE, 1, 0)]
    requires DrawsUpTo(t, 2) && MEMBER_ROLE in t.roles
    ensures Accepts(t, PROMOTION) && PromotesWithNewKey(t, PROMOTION.changes[0])
    ensures !PlanOf(t, PROMOTION).NewKey(MEMBER_ROLE)
  {
    SingleIsAccepted(t, PROMOTION, 2);
    QuietChange(PlanOf(t, PROMOTION), MEMBER_ROLE);
  }

  /**
   After creation and an addition everybody loads. Then the admin that boxed the
   newcomer's key is promoted and moved to a new key in one change, and the newcomer,
   still entitled to its role, cannot load it.
   */
  lemma PromotionWithNewKeyStrandsAMember() returns (ts: seq<Team>, es: seq<Edit>)
    ensures Run(ts, es) && |es| == 3 && es[2] == PROMOTION && PromotesWithNewKey(ts[2], PROMOTION.changes[0])
    ensures Disciplined(ts[0], es[0]) && Disciplined(ts[1], es[1])
    ensures EverybodyLoads(ts[2]) && Strands(ts[2], es[2])
    ensures Reads(ts[3].roster, NEWCOMER, MEMBER_ROLE) && !Loads(ts[3], NEWCOMER, MEMBER_ROLE)
  {
    var t1 := AfterCreation();
    var t2 := AfterEdit(t1, ADDITION);
    var k := Slot(NEWCOMER, MEMBER_ROLE, 1);
    AdditionFits(t1);
    AdditionBoxes(t1, k);
    NotTheOwnersKey(t1, ADDITION);
    PromotionFits(t2);
    ts, es := ThirdStrands(t1, t2, ADDITION, PROMOTION, k, 0);
  }

  // -------------------------------------------------------- an admin that steps down

  lemma DemotionBoxes(t: Team, k: Slot)
    requires Inv(t) && t.roster == FIRST_ROSTER && ADMIN_ROLE in t.roles && |t.roles[ADMIN_ROLE].keys| == 1
    requires Accepts(t, DEMOTION) && k == Slot(OWNER_O, ADMIN_ROLE, 2)
    ensures var t' := AfterEdit(t, DEMOTION);
            t'.Current(k) && k in t'.boxes && t'.boxes[k].sender == SenderKey(t, DEMOTION)
  {
    var plan := PlanOf(t, DEMOTION);
    AcceptedPlanIsOk(t, DEMOTION);
    assert plan.FloodsRole(DEMOTION.changes[0], ADMIN_ROLE);
    FloodRotates(plan, 0, ADMIN_ROLE);
    ApplySingle(t.roster, DEMOTION.changes[0]);
    assert plan.RekeyedBy(DEMOTION.changes[0], ADMIN_ROLE, OWNER_O);
    assert k in NewSlots(t, DEMOTION);
    RoleOkAfter(t, DEMOTION, ADMIN_ROLE);
  }

  lemma DemotionFits(t: Team)
    requires Created(t)
    ensures Accepts(t, DEMOTION) && !PromotesWithNewKey(t, DEMOTION.changes[0]) && DrawsUpTo(AfterEdit(t, DEMOTION), 2)
    ensures AfterEdit(t, DEMOTION).roster == FIRST_ROSTER[ADMIN_A := MemberInfo(MEMBER_ROLE, 1, 0)]
    ensures SenderKey(t, DEMOTION) == PartyKey(ADMIN_A, 1)
  {
    SingleIsAccepted(t, DEMOTION, 1);
  }

  lemma NewKeyFits(t: Team)
    requires t.roster == FIRST_ROSTER[ADMIN_A := MemberInfo(MEMBER_ROLE, 1, 0)]
    requires DrawsUpTo(t, 2) && ADMIN_ROLE in t.roles
    ensures Accepts(t, NEW_KEY) && !PromotesWithNewKey(t, NEW_KEY.changes[0]) && !PlanOf(t, NEW_KEY).NewKey(ADMIN_ROLE)
  {
    SingleIsAccepted(t, NEW_KEY, 2);
    QuietChange(PlanOf(t, NEW_KEY), ADMIN_ROLE);
  }

  /**
   An admin steps down, which rotates the admins' key; its author is the former admin.
   When the former admin is then moved to a new key, the owner, who reads the admins'
   role, cannot load it. Nobody was promoted.
   */
  lemma StepDownStrandsTheOwner() returns (ts: seq<Team>, es: seq<Edit>)
    ensures Run(ts, es) && |es| == 3 && es[1] == DEMOTION && es[2] == NEW_KEY
    ensures !PromotesWithNewKey(ts[1], DEMOTION.changes[0]) && !PromotesWithNewKey(ts[2], NEW_KEY.changes[0])
    ensures EverybodyLoads(ts[2]) && Strands(ts[2], es[2])
    ensures Reads(ts[3].roster, OWNER_O, ADMIN_ROLE) && !Loads(ts[3], OWNER_O, ADMIN_ROLE)
  {
    var t1 := AfterCreation();
    var t2 := AfterEdit(t1, DEMOTION);
    var k := Slot(OWNER_O, ADMIN_ROLE, 2);
    DemotionFits(t1);
    DemotionBoxes(t1, k);
    NotTheOwnersKey(t1, DEMOTION);
    NewKeyFits(t2);
    ts, es := ThirdStrands(t1, t2, DEMOTION, NEW_KEY, k, 0);
  }
}
