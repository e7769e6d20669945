/**
 The rekey planner of lib/team/core.go: given a roster, the generation of each
 role's key and a set of roster changes, it decides which role keys to rotate or
 create, and for which members to box which key.
 */
module Gameplans {
  import opened Common
  import opened Roles
  import opened Keyring

  /** A member's role in the team and the generation of the key it is known by. */
  datatype MemberInfo = MemberInfo(role: RoleKey, gen: nat, seqno: nat)
  datatype Change = Change(member: MemberID, info: MemberInfo) {
    predicate Removes() { info.role.IsNone() }
  }

  type Roster = map<MemberID, MemberInfo>
  type KeyGens = map<RoleKey, nat>

  datatype ScheduleItem = ScheduleItem(role: RoleKey, newKeyGen: bool, gen: nat, members: seq<MemberID>)
  type KeySchedule = seq<ScheduleItem>

  datatype Options = Options(requireOwner: bool, delegationFloor: Option<RoleKey>, linkHasAdminMetadata: bool)

  // ------------------------------------------------------------------ roster

  function ApplyOne(roster: Roster, ch: Change): (r: Roster) {
    if ch.Removes() then roster - {ch.member} else roster[ch.member := ch.info]
  }

  function Apply(roster: Roster, changes: seq<Change>): (r: Roster)
    decreases |changes|
  {
    if changes == [] then roster else Apply(ApplyOne(roster, changes[0]), changes[1..])
  }

  predicate Distinct(changes: seq<Change>) {
    forall i, j :: 0 <= i < j < |changes| ==> changes[i].member != changes[j].member
  }

  predicate Changes(changes: seq<Change>, m: MemberID) {
    exists i :: 0 <= i < |changes| && changes[i].member == m
  }

  /** With no member named twice, applying changes is a simultaneous overwrite. */
  lemma {:induction false} ApplyIsOverwrite(roster: Roster, changes: seq<Change>, m: MemberID)
    requires Distinct(changes)
    ensures !Changes(changes, m) ==> (m in Apply(roster, changes) <==> m in roster)
    ensures !Changes(changes, m) && m in roster ==> Apply(roster, changes)[m] == roster[m]
    ensures forall i :: 0 <= i < |changes| && changes[i].member == m ==>
                          if changes[i].Removes() then m !in Apply(roster, changes)
                          else m in Apply(roster, changes) && Apply(roster, changes)[m] == changes[i].info
    decreases |changes|
  {
    if changes != [] {
      var rest := changes[1..];
      assert forall i :: 0 <= i < |rest| ==> rest[i] == changes[i + 1];
      ApplyIsOverwrite(ApplyOne(roster, changes[0]), rest, m);
      if changes[0].member == m { assert !Changes(rest, m); }
      if Changes(rest, m) {
        var i :| 0 <= i < |rest| && rest[i].member == m;
        assert changes[i + 1].member == m;
      }
    }
  }

  predicate HasOwner(roster: Roster) {
    exists m :: m in roster && roster[m].role.typ == OWNER
  }

  // -------------------------------------------------------------- permission

  const PLAIN_MEMBER_CEILING := MEMBER_ROLE

  /** The only way a doer below admin may pass: `delegatedChangesAllowedLocked`. */
  predicate DelegationAllows(opts: Options, roster: Roster, doer: MemberID, doerRole: RoleKey, changes: seq<Change>) {
    && opts.delegationFloor.Some?
    && doerRole.typ == MEMBER && !doerRole.LessThan(opts.delegationFloor.value)
    && !opts.linkHasAdminMetadata
    && changes != []
    && forall i :: 0 <= i < |changes| ==>
                     var ch := changes[i];
                     && ch.member != doer
                     && if ch.Removes()
                        then ch.member in roster && !PLAIN_MEMBER_CEILING.LessThan(roster[ch.member].role)
                        else ch.member !in roster && !PLAIN_MEMBER_CEILING.LessThan(ch.info.role)
  }

  /** What `checkChangesLocked` asks of each change, given the doer's role. */
  predicate ChangeAllowed(roster: Roster, doer: MemberID, doerRole: RoleKey, ch: Change) {
    && ch.info.role.AtMost(doerRole)
    && (ch.member in roster ==> roster[ch.member].role.AtMost(doerRole))
    && (ch.info.role.typ >= ADMIN ==> doer.host == ch.member.host)
    && (ch.Removes() ==> ch.member in roster && ch.info.gen == 0)
    && (ch.member in roster ==> roster[ch.member] != ch.info)
    && (ch.member in roster && !ch.Removes() ==> roster[ch.member].gen <= ch.info.gen && ch.info.gen >= 1)
  }

  /** The doer's role: its own new role on creation, its roster role otherwise. */
  function DoerRole(create: bool, roster: Roster, doer: MemberID): (r: RoleKey) {
    if create then OWNER_ROLE else if doer in roster then roster[doer].role else RoleKey(NONE, 0)
  }

  predicate CheckChanges(create: bool, roster: Roster, doer: MemberID, changes: seq<Change>, opts: Options) {
    var doerRole := DoerRole(create, roster, doer);
    && Distinct(changes)
    && (if create then
          && roster == map[]
          && exists i :: 0 <= i < |changes| && changes[i].member == doer && changes[i].info.role == OWNER_ROLE
        else
          doer in roster
          && (doerRole.typ == ADMIN || doerRole.typ == OWNER ||
              DelegationAllows(opts, roster, doer, doerRole, changes)))
    && forall i :: 0 <= i < |changes| ==> ChangeAllowed(roster, doer, doerRole, changes[i])
  }

  // ---------------------------------------------------------------- planning

  /** Roles that exist from the start even if nobody holds them. */
  const FORCED_ROLES: set<RoleKey> := {ADMIN_ROLE, MEMBER_ROLE, KV_MIN_ROLE}

  datatype Plan = Plan(create: bool, pre: Roster, keyGens: KeyGens, changes: seq<Change>) {

    function Post(): (r: Roster) { Apply(pre, changes) }

    function KeyRoles(): (s: set<RoleKey>) { keyGens.Keys + if create then FORCED_ROLES else {} }

    /** A demotion, a removal, or a new key at the same role. */
    predicate Floods(ch: Change) {
      ch.member in pre &&
      (ch.info.role.LessThan(pre[ch.member].role)
       || (ch.info.role == pre[ch.member].role && pre[ch.member].gen < ch.info.gen))
    }

    /** Roles that must rotate because of `ch`: all it could read, or only what it lost if its key is unchanged. */
    predicate FloodsRole(ch: Change, r: RoleKey) {
      && Floods(ch) && r in KeyRoles() && r.AtMost(pre[ch.member].role)
      && (pre[ch.member].gen == ch.info.gen ==> ch.info.role.LessThan(r))
    }

    /** The first member at a role creates that role's key. */
    predicate OpensRole(ch: Change, r: RoleKey) {
      ch.info.role == r && r !in keyGens && !ch.Removes()
    }

    /** Keys a newcomer or a promoted member must be given. */
    predicate Admits(ch: Change, r: RoleKey) {
      && (ch.member !in pre || pre[ch.member].role.LessThan(ch.info.role))
      && r in KeyRoles() && r.AtMost(ch.info.role)
      && (ch.member in pre ==> pre[ch.member].role.LessThan(r))
    }

    ghost predicate RekeyedBy(ch: Change, r: RoleKey, m: MemberID) {
      || ((FloodsRole(ch, r) || OpensRole(ch, r)) && m in Post() && r.AtMost(Post()[m].role))
      || (Admits(ch, r) && m == ch.member)
    }

    /** Member `m` is to be boxed the key of role `r`. */
    ghost predicate Rekeyed(r: RoleKey, m: MemberID) {
      exists i :: 0 <= i < |changes| && RekeyedBy(changes[i], r, m)
    }

    ghost predicate Included(r: RoleKey) {
      exists m :: Rekeyed(r, m)
    }

    /** Role `r` gets a new generation because of somebody's departure or new key. */
    ghost predicate Incremented(r: RoleKey) {
      exists i, m :: 0 <= i < |changes| && FloodsRole(changes[i], r) && m in Post() && r.AtMost(Post()[m].role)
    }

    ghost predicate NewKey(r: RoleKey) {
      Included(r) && (r !in keyGens || Incremented(r))
    }

    ghost function GenPost(r: RoleKey): (g: nat) {
      if r !in keyGens then 1 else if NewKey(r) then keyGens[r] + 1 else keyGens[r]
    }

    /** Roles that could possibly be touched; only used to bound comprehensions. */
    ghost function Touchable(): (s: set<RoleKey>) {
      KeyRoles() + set i | 0 <= i < |changes| :: changes[i].info.role
    }

    ghost function KeyGensPost(): (g: KeyGens)
      ensures forall r :: r in g <==> r in keyGens || Included(r)
      ensures forall r :: r in g ==> g[r] == GenPost(r)
    {
      IncludedIsTouchable();
      map r | r in keyGens.Keys + Touchable() && (r in keyGens || Included(r)) :: GenPost(r)
    }

    lemma IncludedIsTouchable()
      ensures forall r :: Included(r) ==> r in Touchable()
      ensures forall r, m :: Rekeyed(r, m) ==> m in Post() || Changes(changes, m)
    {
    }
  }

  // ---------------------------------------------------------------- coverage

  /** What the planner may rely on once the changes have been checked. */
  ghost predicate PlanOk(plan: Plan) {
    && Distinct(plan.changes)
    && (plan.create ==> plan.pre == map[] && plan.keyGens == map[])
    && RosterOk(plan.pre)
    && (forall r :: r in plan.keyGens ==> r.AtMost(OWNER_ROLE))
    && (forall i :: 0 <= i < |plan.changes| ==> WellFormed(plan.pre, plan.changes[i]))
    && HasOwner(plan.Post())
  }

  ghost predicate RosterOk(roster: Roster) {
    forall m :: m in roster ==> roster[m].role.Valid() && !roster[m].role.IsNone() && roster[m].gen >= 1
  }

  /** Generations count from 1 and never go back; only members can be removed. */
  ghost predicate WellFormed(pre: Roster, ch: Change) {
    && ch.info.role.Valid()
    && (if ch.Removes() then ch.info.gen == 0 && ch.member in pre else ch.info.gen >= 1)
    && (ch.member in pre && !ch.Removes() ==> pre[ch.member].gen <= ch.info.gen)
  }

  ghost predicate Reads(roster: Roster, m: MemberID, r: RoleKey) {
    m in roster && r.AtMost(roster[m].role)
  }

  lemma RosterOkAfter(plan: Plan)
    requires PlanOk(plan)
    ensures RosterOk(plan.Post())
  {
    forall m | m in plan.Post()
      ensures plan.Post()[m].role.Valid() && !plan.Post()[m].role.IsNone() && plan.Post()[m].gen >= 1
    {
      ApplyIsOverwrite(plan.pre, plan.changes, m);
      if Changes(plan.changes, m) {
        var i :| 0 <= i < |plan.changes| && plan.changes[i].member == m;
      }
    }
  }

  /** Whoever is boxed a key may read it after the change. */
  lemma RekeyedReads(plan: Plan, r: RoleKey, m: MemberID)
    requires PlanOk(plan) && plan.Rekeyed(r, m)
    ensures Reads(plan.Post(), m, r)
  {
    var i :| 0 <= i < |plan.changes| && plan.RekeyedBy(plan.changes[i], r, m);
    ApplyIsOverwrite(plan.pre, plan.changes, m);
  }

  /** When a role gets a new generation, everybody who may read it is boxed it. */
  lemma NewKeyReachesReaders(plan: Plan, r: RoleKey, m: MemberID)
    requires PlanOk(plan) && plan.NewKey(r) && Reads(plan.Post(), m, r)
    ensures plan.Rekeyed(r, m)
  {
    if plan.Incremented(r) {
      var i, m' :| && 0 <= i < |plan.changes| && plan.FloodsRole(plan.changes[i], r)
                   && m' in plan.Post() && r.AtMost(plan.Post()[m'].role);
      assert plan.RekeyedBy(plan.changes[i], r, m);
    } else {
      var m' :| plan.Rekeyed(r, m');
      var i :| 0 <= i < |plan.changes| && plan.RekeyedBy(plan.changes[i], r, m');
      if plan.OpensRole(plan.changes[i], r) {
        assert plan.RekeyedBy(plan.changes[i], r, m);
      } else {
        ApplyIsOverwrite(plan.pre, plan.changes, m);
        var j :| 0 <= j < |plan.changes| && plan.changes[j].member == m;
        assert plan.RekeyedBy(plan.changes[j], r, m);
      }
    }
  }

  /** Whoever gains a role is boxed its key, rotated or not. */
  lemma NewcomerIsBoxed(plan: Plan, r: RoleKey, m: MemberID)
    requires PlanOk(plan) && r in plan.keyGens && !Reads(plan.pre, m, r) && Reads(plan.Post(), m, r)
    ensures plan.Rekeyed(r, m)
  {
    ApplyIsOverwrite(plan.pre, plan.changes, m);
    var i :| 0 <= i < |plan.changes| && plan.changes[i].member == m;
    assert plan.RekeyedBy(plan.changes[i], r, m);
  }

  /** A flooded role does rotate: an owner is left to be boxed the new key. */
  lemma FloodRotates(plan: Plan, i: nat, r: RoleKey)
    requires PlanOk(plan) && i < |plan.changes| && plan.FloodsRole(plan.changes[i], r)
    ensures plan.NewKey(r)
  {
    var o :| o in plan.Post() && plan.Post()[o].role.typ == OWNER;
    RosterOkAfter(plan);
    assert plan.RekeyedBy(plan.changes[i], r, o);
    assert plan.Rekeyed(r, o);
  }

  /** Somebody losing a role forces a new generation of it. */
  lemma LossRotates(plan: Plan, r: RoleKey, m: MemberID)
    requires PlanOk(plan) && r in plan.keyGens && Reads(plan.pre, m, r) && !Reads(plan.Post(), m, r)
    ensures plan.NewKey(r)
  {
    ApplyIsOverwrite(plan.pre, plan.changes, m);
    var i :| 0 <= i < |plan.changes| && plan.changes[i].member == m;
    assert plan.FloodsRole(plan.changes[i], r);
    FloodRotates(plan, i, r);
  }

  /**
   The planner's guarantee: after the change a member may read a role exactly when
   it was boxed the role's key now, or already had the key and the key stays.
   */
  lemma Coverage(plan: Plan, r: RoleKey, m: MemberID)
    requires PlanOk(plan) && (r in plan.keyGens || plan.Included(r))
    ensures Reads(plan.Post(), m, r) <==> plan.Rekeyed(r, m) || (!plan.NewKey(r) && Reads(plan.pre, m, r))
  {
    if plan.Rekeyed(r, m) {
      RekeyedReads(plan, r, m);
    } else if plan.NewKey(r) {
      if Reads(plan.Post(), m, r) { NewKeyReachesReaders(plan, r, m); }
    } else if Reads(plan.pre, m, r) {
      if !Reads(plan.Post(), m, r) { LossRotates(plan, r, m); }
    } else if Reads(plan.Post(), m, r) {
      NewcomerIsBoxed(plan, r, m);
    }
  }

  // ---------------------------------------------------------------- schedule

  /** A schedule lists every rekeyed role once, in ascending order, with the members to box for. */
  ghost predicate IsSchedule(plan: Plan, sched: KeySchedule) {
    && (forall i, j :: 0 <= i < j < |sched| ==> sched[i].role.LessThan(sched[j].role))
    && (forall i :: 0 <= i < |sched| ==>
                      && sched[i].newKeyGen == plan.NewKey(sched[i].role)
                      && sched[i].gen == plan.GenPost(sched[i].role)
                      && (forall a, b :: 0 <= a < b < |sched[i].members| ==> sched[i].members[a] != sched[i].members[b])
                      && (forall m :: m in sched[i].members <==> plan.Rekeyed(sched[i].role, m)))
    && (forall r :: plan.Included(r) <==> exists i :: 0 <= i < |sched| && sched[i].role == r)
  }

  /** Plans a creation (`pre` empty, `create` set) or an edit. */
  ghost predicate Gameplan(plan: Plan, doer: MemberID, opts: Options, sched: KeySchedule) {
    && CheckChanges(plan.create, plan.pre, doer, plan.changes, opts)
    && (plan.create ==> plan.keyGens == map[])
    && !(opts.requireOwner && HasOwner(plan.pre) && !HasOwner(plan.Post()))
    && IsSchedule(plan, sched)
  }

  // ----------------------------------------------------- a schedule always exists

  ghost function ListOf<T(!new)>(s: set<T>): (l: seq<T>)
    ensures forall a, b :: 0 <= a < b < |l| ==> l[a] != l[b]
    ensures forall x :: x in l <==> x in s
  {
    if s == {} then []
    else
      var x :| x in s;
      var rest := ListOf(s - {x});
      rest + [x]
  }

  lemma {:induction false} LowestRole(s: set<RoleKey>) returns (r: RoleKey)
    requires s != {}
    ensures r in s && forall q :: q in s ==> r.AtMost(q)
    decreases s
  {
    var one :| one in s;
    r := one;
    if s - {one} == {} {
      assert s == {one};
    } else {
      var least := LowestRole(s - {one});
      if least.LessThan(one) { r := least; }
      assert forall q :: q in s ==> q == one || q in s - {one};
    }
  }

  lemma {:induction false} SortRoles(s: set<RoleKey>) returns (l: seq<RoleKey>)
    ensures forall i, j :: 0 <= i < j < |l| ==> l[i].LessThan(l[j])
    ensures forall r :: r in l <==> r in s
    decreases s
  {
    if s == {} {
      l := [];
    } else {
      var r := LowestRole(s);
      var rest := SortRoles(s - {r});
      l := [r] + rest;
      forall i, j | 0 <= i < j < |l| ensures l[i].LessThan(l[j]) {
        assert l[j] in rest;
      }
    }
  }

  ghost function ItemFor(plan: Plan, r: RoleKey): (item: ScheduleItem) {
    ScheduleItem(r, plan.NewKey(r), plan.GenPost(r), ListOf(MembersToBox(plan, r)))
  }

  ghost function MembersToBox(plan: Plan, r: RoleKey): (s: set<MemberID>)
    ensures forall m :: m in s <==> plan.Rekeyed(r, m)
  {
    plan.IncludedIsTouchable();
    var changed := set i | 0 <= i < |plan.changes| :: plan.changes[i].member;
    set m | m in plan.Post().Keys + changed && plan.Rekeyed(r, m)
  }

  lemma ScheduleExists(plan: Plan) returns (sched: KeySchedule)
    ensures IsSchedule(plan, sched)
  {
    plan.IncludedIsTouchable();
    var roles := SortRoles(set r | r in plan.Touchable() && plan.Included(r));
    sched := seq(|roles|, i requires 0 <= i < |roles| => ItemFor(plan, roles[i]));
    forall r ensures plan.Included(r) <==> exists i :: 0 <= i < |sched| && sched[i].role == r {
      if plan.Included(r) {
        assert r in roles;
        var i :| 0 <= i < |roles| && roles[i] == r;
        assert sched[i].role == r;
      }
      if i :| 0 <= i < |sched| && sched[i].role == r {
        assert roles[i] == r && r in roles;
      }
    }
  }
}
