/**
 Which of a user's devices can rotate keys or revoke devices. The manager first loads
 the keys of every role (client/libclient/rotate_mgr.go), but a new device is boxed the
 key of its own role only (client/libclient/kex.go), so not every owner device can.
 */
module PukHolders {
  import opened Common
  import opened Roles
  import opened SeedChains
  import opened Derivation
  import opened Puks
  import opened PukHistory

  /** What the doer of a rotation loads is every generation of every role, as the rotation goes on to use them. */
  lemma RotatorLoadsEveryKey(us: seq<User>, es: seq<Event>, n: nat, r: RoleKey, chain: Chain)
    requires Run(us, es) && n < |es| && es[n].Rotate? && r in us[n].roles
    requires r in chain.published && Publishes(chain.published[r], us[n].roles[r].keys) && chain.devices == us[n].ever
    ensures var newest := Slot(es[n].doer, r, |us[n].roles[r].keys|);
            && newest in us[n].boxes && r in es[n].p.puks
            && var b := us[n].boxes[newest];
               Decrypt(chain, es[n].doer, PukParcel(newest.gen, r, b.sender, b, us[n].roles[r].chain))
               == Ok(es[n].p.puks[r])
  {
    DoerHolds(us, es, n, r);
    DeviceRecoversHistory(us, es, n, Slot(es[n].doer, r, |us[n].roles[r].keys|), chain);
  }

  lemma DoerHolds(us: seq<User>, es: seq<Event>, n: nat, r: RoleKey)
    requires Run(us, es) && n < |es| && es[n].Rotate? && r in us[n].roles
    ensures es[n].doer in us[n].active && Holds(us[n], es[n].doer, r)
    ensures r in es[n].p.puks && es[n].p.puks[r] == us[n].roles[r].keys
  {
    StepOfRun(us, es, n);
    assert HoldsAll(us[n], es[n].doer) && Describes(us[n], es[n].doer, es[n].p);
  }

  // ------------------------------------------------------------- who holds which key

  /** Between the two states the device stays active at this role, and histories only grow. */
  ghost predicate Stays(u: User, u': User, d: nat, q: RoleKey) {
    && d in u.active && u.active[d] == q && d in u'.active && u'.active[d] == q
    && forall r :: r in u.roles ==> r in u'.roles && |u.roles[r].keys| <= |u'.roles[r].keys|
  }

  /** The later holdings of a device, from the earlier ones. */
  ghost predicate HoldsLater(u: User, u': User, d: nat, q: RoleKey, r: RoleKey) {
    Holds(u', d, r) <==> r in u'.roles && (Holds(u, d, r) || (r.AtMost(q) && Grew(u.roles, u'.roles, r)))
  }

  lemma StaysOverStep(u: User, e: Event, u': User, d: nat)
    requires Inv(u) && Step(u, e, u') && d in u.ever && d in u'.active
    ensures d in u.active && Stays(u, u', d, u.active[d])
  {
    forall r | r in u.roles ensures r in u'.roles && |u.roles[r].keys| <= |u'.roles[r].keys| { RoleOkAfter(u, e, r); }
  }

  /** In one step a device that stays keeps the roles it holds and gains the new keys it may read, and no others. */
  lemma HoldsOverStep(u: User, e: Event, u': User, d: nat, r: RoleKey)
    requires Inv(u) && Step(u, e, u') && d in u.active && d in u.ever && d in u'.active
    ensures HoldsLater(u, u', d, u.active[d], r)
  {
    if Holds(u, d, r) { HoldsStays(u, e, d, r); }
    if r in u'.roles {
      GivenIffGrown(u, e, d, r);
      RoleOkAfter(u, e, r);
      var k := Slot(d, r, |u'.roles[r].keys|);
      assert k in NewSlots(u, e) <==> Gives(u, e, d, r);
      if k in u.boxes { assert BoxOk(u, k, u.boxes[k]); }
    }
  }

  /** A device just provisioned holds the key of its own role and nothing else. */
  lemma NewDeviceHolds(u: User, e: Event, u': User, r: RoleKey)
    requires Inv(u) && Step(u, e, u') && e.Provision?
    ensures e.device in u'.active && u'.active[e.device] == e.role && e.device in u'.ever
    ensures Holds(u', e.device, r) <==> r == e.role
  {
    assert e.role in u'.roles;
    forall k | k in u.boxes ensures k.device != e.device { assert BoxOk(u, k, u.boxes[k]); }
    if r in u'.roles {
      assert Slot(e.device, r, |u'.roles[r].keys|) in NewSlots(u, e) <==> r == e.role;
    }
  }

  lemma LaterOnRun(us: seq<User>, es: seq<Event>, i: nat, d: nat, r: RoleKey)
    requires Run(us, es) && i < |es| && d in us[i].ever && d in us[i + 1].active
    ensures d in us[i].active && Stays(us[i], us[i + 1], d, us[i].active[d])
    ensures HoldsLater(us[i], us[i + 1], d, us[i].active[d], r) && d in us[i + 1].ever
  {
    StepOfRun(us, es, i);
    StaysOverStep(us[i], es[i], us[i + 1], d);
    HoldsOverStep(us[i], es[i], us[i + 1], d, r);
  }

  lemma EverOnRun(us: seq<User>, es: seq<Event>, i: nat)
    requires Run(us, es) && i < |es|
    ensures us[i].ever <= us[i + 1].ever
  {
    StepOfRun(us, es, i);
  }

  lemma {:induction false} EverGrows(us: seq<User>, es: seq<Event>, i: nat, n: nat)
    requires Run(us, es) && i <= n < |us|
    ensures us[i].ever <= us[n].ever
  {
    if i < n {
      EverGrows(us, es, i, n - 1);
      EverOnRun(us, es, n - 1);
    }
  }

  lemma {:induction false} HoldsOverRun(us: seq<User>, es: seq<Event>, i: nat, n: nat, d: nat, r: RoleKey)
    requires Run(us, es) && i < n < |us| && d in us[i].ever && d in us[n].active
    ensures d in us[i].active && Stays(us[i], us[n], d, us[i].active[d])
    ensures HoldsLater(us[i], us[n], d, us[i].active[d], r)
    decreases n
  {
    EverGrows(us, es, i, n - 1);
    LaterOnRun(us, es, n - 1, d, r);
    if i < n - 1 { HoldsOverRun(us, es, i, n - 1, d, r); }
  }

  lemma JoinedOnRun(us: seq<User>, es: seq<Event>, i: nat, r: RoleKey)
    requires Run(us, es) && i < |es| && es[i].Provision?
    ensures var d := es[i].device;
            && d in us[i + 1].active && us[i + 1].active[d] == es[i].role && d in us[i + 1].ever
            && (Holds(us[i + 1], d, r) <==> r == es[i].role)
  {
    StepOfRun(us, es, i);
    NewDeviceHolds(us[i], es[i], us[i + 1], r);
  }

  /**
   In every reachable state an active device that was provisioned in the run can load a
   role's keys exactly if the role is its own, or is one it may read whose key has
   changed since the device joined.
   */
  lemma HoldsIff(us: seq<User>, es: seq<Event>, i: nat, n: nat, r: RoleKey)
    requires Run(us, es) && i < n < |us| && es[i].Provision? && es[i].device in us[n].active && r in us[n].roles
    ensures var q := es[i].role;
            Holds(us[n], es[i].device, r) <==>
            r == q || (r.AtMost(q) && Grew(us[i + 1].roles, us[n].roles, r))
  {
    var d := es[i].device;
    JoinedOnRun(us, es, i, r);
    if i + 1 < n { HoldsOverRun(us, es, i + 1, n, d, r); }
  }

  // ------------------------------------------------------------- who can rotate

  ghost predicate CanRotate(u: User, d: nat) { IsOwner(u, d) && HoldsAll(u, d) }

  /** No device of the user is able to rotate a key or revoke a device. */
  ghost predicate Stuck(u: User) { forall d :: d in u.active ==> !CanRotate(u, d) }

  lemma OwnerRoleIsThere(u: User)
    requires Inv(u)
    ensures OWNER_ROLE in u.roles
  {
    var d :| IsOwner(u, d);
    assert DeviceOk(u, d);
  }

  lemma RotatesWithOneKeyIff(u: User, d: nat)
    requires OWNER_ROLE in u.roles && d in u.active && forall r :: Holds(u, d, r) <==> r == u.active[d]
    ensures CanRotate(u, d) <==> u.roles.Keys == {OWNER_ROLE}
  {
    assert Holds(u, d, u.active[d]);
    if CanRotate(u, d) {
      forall r | r in u.roles ensures r == OWNER_ROLE { assert Holds(u, d, r); }
    }
  }

  /** A device just provisioned can rotate exactly if the account has no role but the owner's. */
  lemma NewDeviceRotatesIff(us: seq<User>, es: seq<Event>, i: nat)
    requires Run(us, es) && i < |es| && es[i].Provision?
    ensures CanRotate(us[i + 1], es[i].device) <==> us[i + 1].roles.Keys == {OWNER_ROLE}
  {
    var u, d := us[i + 1], es[i].device;
    RunKeepsInv(us, es, i + 1);
    OwnerRoleIsThere(u);
    JoinedOnRun(us, es, i, OWNER_ROLE);
    forall r ensures Holds(u, d, r) <==> r == u.active[d] { JoinedOnRun(us, es, i, r); }
    RotatesWithOneKeyIff(u, d);
  }

  lemma ProvisionKeepsRotator(u: User, e: Event, u': User, d: nat)
    requires Inv(u) && Step(u, e, u') && e.Provision? && CanRotate(u, d)
    ensures CanRotate(u', d)
  {
    ActiveWasEver(u, d);
    forall r | r in u'.roles ensures Holds(u', d, r) {
      RoleOkAfter(u, e, r);
      HoldsOverStep(u, e, u', d, r);
      assert r in u.roles ==> Holds(u, d, r);
      if r !in u.roles { assert r == e.role && r.AtMost(OWNER_ROLE); }
    }
  }

  lemma RotationKeepsRotator(u: User, e: Event, u': User, d: nat)
    requires Inv(u) && Step(u, e, u') && e.Rotate? && CanRotate(u, d) && d in u'.active
    ensures CanRotate(u', d)
  {
    ActiveWasEver(u, d);
    forall r | r in u'.roles ensures Holds(u', d, r) {
      HoldsOverStep(u, e, u', d, r);
      assert Holds(u, d, r);
    }
  }

  lemma SelfRevocationChangesNoRole(u: User, e: Event)
    requires RolesOk(u) && Enabled(u, e) && e.Rotate? && e.p.selfRevoke
    ensures RolesAfter(u, e) == u.roles
  {
  }

  lemma SelfRevocationChangesNoKey(u: User, e: Event, u': User)
    requires Step(u, e, u') && e.Rotate? && e.p.selfRevoke
    ensures u'.roles == u.roles && u'.boxes == u.boxes && u'.active == u.active - {e.doer}
  {
    SelfRevocationChangesNoRole(u, e);
    assert NewSlots(u, e) == {};
  }

  /**
   The steps that leave a user without a device able to rotate are exactly the
   self-revocations of a device while no other active device holds the key of every role.
   */
  lemma StepSticksIff(u: User, e: Event, u': User)
    requires Inv(u) && Step(u, e, u') && !Stuck(u)
    ensures Stuck(u') <==>
            e.Rotate? && e.p.selfRevoke && forall d :: d in u.active && d != e.doer ==> !CanRotate(u, d)
  {
    if e.Rotate? && e.p.selfRevoke {
      SelfRevocationChangesNoKey(u, e, u');
      forall d | d in u.active && d != e.doer ensures CanRotate(u', d) <==> CanRotate(u, d) {}
    } else if e.Rotate? {
      RotationKeepsRotator(u, e, u', e.doer);
    } else {
      var d :| d in u.active && CanRotate(u, d);
      ProvisionKeepsRotator(u, e, u', d);
    }
  }

  lemma OldRotatorWasOne(u: User, e: Event, u': User, d: nat)
    requires Inv(u) && Step(u, e, u') && e.Provision? && d in u.active && CanRotate(u', d) && d != e.device
    ensures CanRotate(u, d)
  {
    ActiveWasEver(u, d);
    forall r | r in u.roles ensures Holds(u, d, r) {
      HoldsOverStep(u, e, u', d, r);
      assert Holds(u', d, r);
    }
  }

  lemma NewRotatorHadOne(u: User, e: Event, u': User)
    requires Inv(u) && Step(u, e, u') && e.Provision? && CanRotate(u', e.device)
    ensures CanRotate(u, e.doer)
  {
    OwnerRoleIsThere(u);
    forall r | r in u.roles ensures Holds(u, e.doer, r) {
      RoleOkAfter(u, e, r);
      NewDeviceHolds(u, e, u', r);
      assert Holds(u', e.device, r);
    }
  }

  lemma StaysStuck(u: User, e: Event, u': User)
    requires Inv(u) && Step(u, e, u') && Stuck(u)
    ensures e.Provision? && Stuck(u')
  {
    if e.Rotate? { assert CanRotate(u, e.doer); }
    forall d | d in u'.active ensures !CanRotate(u', d) {
      if CanRotate(u', d) {
        if d == e.device { NewRotatorHadOne(u, e, u'); } else { OldRotatorWasOne(u, e, u', d); }
      }
    }
  }

  lemma StuckOnRun(us: seq<User>, es: seq<Event>, i: nat)
    requires Run(us, es) && i < |es| && Stuck(us[i])
    ensures es[i].Provision? && Stuck(us[i + 1])
  {
    StepOfRun(us, es, i);
    StaysStuck(us[i], es[i], us[i + 1]);
  }

  /** A user without such a device never has one again: no key is rotated and no device revoked ever after. */
  lemma {:induction false} StuckForGood(us: seq<User>, es: seq<Event>, n: nat, m: nat)
    requires Run(us, es) && n <= m < |us| && Stuck(us[n])
    ensures Stuck(us[m]) && forall i :: n <= i < m ==> es[i].Provision?
  {
    if n < m {
      StuckForGood(us, es, n, m - 1);
      StuckOnRun(us, es, m - 1);
    }
  }

  // ------------------------------------------------------------- a run that ends stuck

  /** Device d revokes itself. */
  function Leave(u: User, d: nat, seed: RoleKey -> Seed): (e: Event) {
    Rotate(d, Rotation(Some(Device(d, OWNER_ROLE)), None, OWNER_ROLE, true,
                       map r | r in u.roles :: u.roles[r].keys, seed))
  }

  /** The one device able to rotate may leave as long as there is another owner, and then the user is stuck. */
  lemma LastRotatorMayLeave(u: User, d: nat, other: nat, seed: RoleKey -> Seed)
    requires Inv(u) && CanRotate(u, d) && IsOwner(u, other) && other != d && FreshSeeds(u.roles, seed)
    requires forall x :: x in u.active && x != d ==> !CanRotate(u, x)
    ensures Enabled(u, Leave(u, d, seed)) && Stuck(After(u, Leave(u, d, seed)))
  {
    var e := Leave(u, d, seed);
    assert OwnerRemains(u, e.p);
    assert !Stuck(u);
    StepSticksIff(u, e, After(u, e));
  }

  /** Device d is the only owner, and it can rotate. */
  ghost predicate OneOwner(u: User, d: nat) {
    Inv(u) && CanRotate(u, d) && forall x :: IsOwner(u, x) ==> x == d
  }

  lemma FirstDeviceRotates(d: nat, seed: Seed)
    ensures OneOwner(SignUp(d, seed), d)
  {
    SignUpOk(d, seed);
  }

  /** It adds a member device, with the first member key. */
  lemma MemberJoins(u: User, e: Event)
    requires e.Provision? && OneOwner(u, e.doer) && e.device !in u.ever && e.role == MEMBER_ROLE
    requires e.role !in u.roles && FreshSeeds(u.roles, e.seed)
    ensures Enabled(u, e) && OneOwner(After(u, e), e.doer) && MEMBER_ROLE in After(u, e).roles
  {
    ActiveWasEver(u, e.doer);
    var u' := After(u, e);
    StepKeepsInv(u, e, u');
    ProvisionKeepsRotator(u, e, u', e.doer);
    forall x | IsOwner(u', x) ensures x == e.doer { assert IsOwner(u, x); }
  }

  /** It adds a second owner device, which cannot rotate: it does not hold the member key. */
  lemma OwnerJoins(u: User, e: Event)
    requires e.Provision? && OneOwner(u, e.doer) && e.device !in u.ever && e.role == OWNER_ROLE
    requires MEMBER_ROLE in u.roles
    ensures Enabled(u, e) && Inv(After(u, e)) && CanRotate(After(u, e), e.doer) && IsOwner(After(u, e), e.device)
    ensures forall x :: x in After(u, e).active && x != e.doer ==> !CanRotate(After(u, e), x)
    ensures After(u, e).roles == u.roles && e.device != e.doer
  {
    ActiveWasEver(u, e.doer);
    OwnerRoleIsThere(u);
    assert Holds(u, e.doer, OWNER_ROLE);
    var u' := After(u, e);
    StepKeepsInv(u, e, u');
    ProvisionKeepsRotator(u, e, u', e.doer);
    NewDeviceHolds(u, e, u', MEMBER_ROLE);
    assert MEMBER_ROLE in u'.roles;
    forall x | x in u'.active && x != e.doer ensures !CanRotate(u', x) {
      if x != e.device { assert !IsOwner(u, x); }
    }
  }

  /** The state can be reached from the other one. */
  ghost predicate Reaches(u: User, u': User) {
    exists us, es :: Run(us, es) && us[0] == u && us[|es|] == u'
  }

  lemma NthStep(us: seq<User>, es: seq<Event>, i: nat)
    requires Run(us, es) && i < |es|
    ensures Step(us[i], es[i], us[i + 1])
  {
  }

  lemma SameStep(us: seq<User>, es: seq<Event>, us': seq<User>, es': seq<Event>, i: nat)
    requires Run(us, es) && us <= us' && es <= es' && i < |es|
    ensures Step(us'[i], es'[i], us'[i + 1])
  {
    NthStep(us, es, i);
  }

  lemma OneMoreStep(us: seq<User>, es: seq<Event>, us': seq<User>, es': seq<Event>)
    requires Run(us, es) && us <= us' && es <= es' && |us'| == |us| + 1 && |es'| == |es| + 1
    requires Step(us'[|es|], es'[|es|], us'[|es| + 1])
    ensures Run(us', es')
  {
    forall i {:trigger es'[i]} | 0 <= i < |es'| ensures Step(us'[i], es'[i], us'[i + 1]) {
      if i < |es| { SameStep(us, es, us', es', i); }
    }
  }

  lemma RunReaches(us: seq<User>, es: seq<Event>)
    requires Run(us, es)
    ensures Reaches(us[0], us[|es|])
  {
  }

  lemma ReachesNext(u: User, mid: User, e: Event, u': User)
    requires Reaches(u, mid) && Step(mid, e, u')
    ensures Reaches(u, u')
  {
    var us, es :| Run(us, es) && us[0] == u && us[|es|] == mid;
    OneMoreStep(us, es, us + [u'], es + [e]);
    RunReaches(us + [u'], es + [e]);
  }

  lemma FirstKey(u: User, e: Event)
    requires RolesOk(u) && Enabled(u, e) && e.Provision? && e.role !in u.roles
    ensures RolesAfter(u, e) == u.roles[e.role := RoleState([SharedKey(e.role, 1, e.seed(e.role))], [])]
  {
    var k := SharedKey(e.role, 1, e.seed(e.role));
    assert RoleState([], []).Rotate(k) == RoleState([k], []);
  }

  lemma MemberCanJoin(u0: User, u: User, e: Event) returns (u': User)
    requires Reaches(u0, u) && e.Provision? && OneOwner(u, e.doer) && e.device !in u.ever && e.role == MEMBER_ROLE
    requires e.role !in u.roles && FreshSeeds(u.roles, e.seed)
    ensures Reaches(u0, u') && OneOwner(u', e.doer) && MEMBER_ROLE in u'.roles && u'.ever == u.ever + {e.device}
    ensures u'.roles == u.roles[MEMBER_ROLE := RoleState([SharedKey(MEMBER_ROLE, 1, e.seed(MEMBER_ROLE))], [])]
  {
    MemberJoins(u, e);
    FirstKey(u, e);
    u' := After(u, e);
    ReachesNext(u0, u, e, u');
  }

  lemma OwnerCanJoin(u0: User, u: User, e: Event) returns (u': User)
    requires Reaches(u0, u) && e.Provision? && OneOwner(u, e.doer) && e.device !in u.ever && e.role == OWNER_ROLE
    requires MEMBER_ROLE in u.roles
    ensures Reaches(u0, u') && Inv(u') && CanRotate(u', e.doer) && IsOwner(u', e.device) && e.device != e.doer
    ensures u'.roles == u.roles && forall x :: x in u'.active && x != e.doer ==> !CanRotate(u', x)
  {
    OwnerJoins(u, e);
    u' := After(u, e);
    ReachesNext(u0, u, e, u');
  }

  lemma RotatorCanLeave(u0: User, u: User, d: nat, other: nat, seed: RoleKey -> Seed) returns (u': User)
    requires Reaches(u0, u) && Inv(u) && CanRotate(u, d) && IsOwner(u, other) && other != d
    requires FreshSeeds(u.roles, seed) && forall x :: x in u.active && x != d ==> !CanRotate(u, x)
    ensures Reaches(u0, u') && Stuck(u')
  {
    LastRotatorMayLeave(u, d, other, seed);
    u' := After(u, Leave(u, d, seed));
    ReachesNext(u0, u, Leave(u, d, seed), u');
  }

  lemma ReachesItself(u: User)
    requires Inv(u)
    ensures Reaches(u, u)
  {
    assert Run([u], []);
  }

  function Draw(n: nat): (seed: RoleKey -> Seed) { r => Seed(n, r) }

  lemma FreshDraws(first: RoleStates, second: RoleStates)
    requires first == SignUp(1, Seed(0, OWNER_ROLE)).roles
    requires second == first[MEMBER_ROLE := RoleState([SharedKey(MEMBER_ROLE, 1, Seed(1, MEMBER_ROLE))], [])]
    ensures FreshSeeds(first, Draw(1)) && FreshSeeds(second, Draw(2)) && MEMBER_ROLE !in first
  {
  }

  lemma JoinJoinLeave(u0: User, d: nat, m: nat, o: nat, s1: RoleKey -> Seed, s2: RoleKey -> Seed, roles: RoleStates)
    returns (u: User)
    requires OneOwner(u0, d) && u0.ever !! {m, o} && m != o && MEMBER_ROLE !in u0.roles
    requires FreshSeeds(u0.roles, s1) && FreshSeeds(roles, s2)
    requires roles == u0.roles[MEMBER_ROLE := RoleState([SharedKey(MEMBER_ROLE, 1, s1(MEMBER_ROLE))], [])]
    ensures Reaches(u0, u) && Stuck(u)
  {
    ReachesItself(u0);
    var u1 := MemberCanJoin(u0, u0, Provision(d, m, MEMBER_ROLE, s1));
    var u2 := OwnerCanJoin(u0, u1, Provision(d, o, OWNER_ROLE, s1));
    u := RotatorCanLeave(u0, u2, d, o, s2);
  }

  /**
   An account as signup makes it can end up stuck: a member device joins, a second
   owner device joins, and the first one revokes itself.
   */
  lemma SelfRevocationSticks() returns (u: User)
    ensures Reaches(SignUp(1, Seed(0, OWNER_ROLE)), u) && Stuck(u)
  {
    var u0 := SignUp(1, Seed(0, OWNER_ROLE));
    var roles := u0.roles[MEMBER_ROLE := RoleState([SharedKey(MEMBER_ROLE, 1, Seed(1, MEMBER_ROLE))], [])];
    FreshDraws(u0.roles, roles);
    FirstDeviceRotates(1, Seed(0, OWNER_ROLE));
    u := JoinJoinLeave(u0, 1, 2, 3, Draw(1), Draw(2), roles);
  }
}
