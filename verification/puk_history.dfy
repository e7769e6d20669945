/**
 Recovering a per-user key's whole history from one box and the seed chain
 (client/libclient/puk_minder.go), after any run of provisionings and rotations.
 */
module PukHistory {
  import opened Common
  import opened Roles
  import opened SeedChains
  import opened Derivation
  import opened Puks

  /** The server's answer: the newest box for this device and role, and the role's whole chain. */
  datatype PukParcel = PukParcel(gen: nat, role: RoleKey, sender: nat, box: DeviceBox, chain: seq<SeedChainBox>)

  /** `PUKSet.At`: generation g sits at index g - 1. */
  function At(set': seq<SharedKey>, g: int): (k: Option<SharedKey>) {
    if 1 <= g <= |set'| then Some(set'[g - 1]) else None
  }

  /** The published keys of a role, as the user's chain has them. */
  datatype Chain = Chain(devices: set<nat>, published: map<RoleKey, seq<PublicKey>>)

  /** `decryptPUKParcel`. Only the newest key is checked against the chain. */
  function Decrypt(chain: Chain, me: nat, raw: PukParcel): (r: Result<seq<SharedKey>, KeyError>) {
    if raw.sender !in chain.devices then Err(UnknownSender)
    else if raw.box.sender != raw.sender || raw.box.receiver != me then Err(BadBox)
    else
      var top := raw.box.key;
      if top.role !in chain.published then Err(PublicKeyMismatch)
      else
        var ok := CheckOpened(Some(chain.published[top.role]), top);
        if ok.Err? then Err(ok.error)
        else
          var older := Unwind(None, top, top.gen - 1, raw.chain);
          if older.Err? then Err(older.error) else Ok(older.value + [top])
  }

  /**
   With a chain made by honest rotations, decryption succeeds exactly when the box
   is for the newest generation, and then it yields generations 1 to that one.
   */
  lemma DecryptRecoversHistory(chain: Chain, me: nat, r: RoleKey, s: RoleState, n: nat, sender: nat)
    requires s.Ok(r) && 1 <= n <= |s.keys| && sender in chain.devices
    requires r in chain.published && Publishes(chain.published[r], s.keys)
    ensures var got := Decrypt(chain, me, PukParcel(n, r, sender, DeviceBox(sender, me, s.keys[n - 1]), s.chain));
            if n == |s.keys| then got == Ok(s.keys) else got.Err?
  {
    var top := s.keys[n - 1];
    ChainOfLength(s.keys, |s.keys|);
    if n == |s.keys| {
      UnwindUndoesSealing(None, r, s.keys, 0, n);
      assert s.keys[0..n - 1] + [top] == s.keys;
    } else {
      assert s.chain[|s.chain| - 1].gen == |s.keys| - 1;
    }
  }

  class PUKMinder {
    const me: nat
    var puks: map<RoleKey, seq<SharedKey>>
    var db: map<RoleKey, PukParcel>              // parcels cached on disk

    constructor (me: nat, db: map<RoleKey, PukParcel>)
      ensures this.me == me && this.db == db && puks == map[]
    {
      this.me, this.db, this.puks := me, db, map[];
    }

    /** The parcel to use: the cached one if it is recent enough, else the server's. */
    method GetParcel(r: RoleKey, minGen: nat, server: RoleKey -> Option<PukParcel>) returns (p: Option<PukParcel>)
      modifies this`db
      ensures p.Some? ==> p.value.gen >= minGen && (old(r in db && db[r] == p.value) || server(r) == p)
      ensures p.Some? ==> db == old(db)[r := p.value]
      ensures p.None? ==> db == old(db)
      ensures (old(r in db && db[r].gen >= minGen) || (server(r).Some? && server(r).value.gen >= minGen)) ==> p.Some?
    {
      if r in db && db[r].gen >= minGen {
        return Some(db[r]);
      }
      var pp := server(r);
      if pp.None? || pp.value.gen < minGen { return None; }
      db := db[r := pp.value];
      return pp;
    }

    /** `getPUKSetForRoleMinGenLocked`: from memory if generation `minGen` is there, else decrypt and remember. */
    method GetSet(chain: Chain, r: RoleKey, minGen: nat, server: RoleKey -> Option<PukParcel>)
      returns (res: Option<seq<SharedKey>>)
      modifies this`puks, this`db
      ensures old(r in puks && At(puks[r], minGen).Some?) ==>
                res == Some(old(puks[r])) && puks == old(puks) && db == old(db)
      ensures res.Some? ==> r in puks && puks[r] == res.value
      ensures res.Some? ==> || old(r in puks && puks[r] == res.value)
                            || (r in db && db[r].gen >= minGen && Decrypt(chain, me, db[r]) == Ok(res.value))
      ensures res.None? ==> puks == old(puks)
    {
      if r in puks && At(puks[r], minGen).Some? { return Some(puks[r]); }
      var raw := GetParcel(r, minGen, server);
      if raw.None? { return None; }
      var lst := Decrypt(chain, me, raw.value);
      if lst.Err? { return None; }
      puks := puks[r := lst.value];
      return Some(lst.value);
    }
  }

  // ------------------------------------------------------------------------- runs

  datatype Slot = Slot(device: nat, role: RoleKey, gen: nat)

  datatype User = User(
    active: map<nat, RoleKey>,               // active devices and their roles
    ever: set<nat>,                          // devices the chain ever had
    roles: map<RoleKey, RoleState>,
    boxes: map<Slot, DeviceBox>)

  /**
   A new device is boxed the current key of its own role. If the role had no key, one is
   drawn, and every device that may read the role is boxed it as well. A rotation is as
   the manager makes it. The server takes either from owner devices only.
   */
  datatype Event =
    | Provision(doer: nat, device: nat, role: RoleKey, seed: RoleKey -> Seed)
    | Rotate(doer: nat, p: Rotation)

  ghost predicate IsOwner(u: User, d: nat) { d in u.active && u.active[d] == OWNER_ROLE }

  /** The device can load the role's keys: the server has a box of the newest one for it. */
  ghost predicate Holds(u: User, d: nat, r: RoleKey) {
    r in u.roles && Slot(d, r, |u.roles[r].keys|) in u.boxes
  }

  ghost predicate HoldsAll(u: User, d: nat) {
    forall r :: r in u.roles ==> Holds(u, d, r)
  }

  ghost predicate Describes(u: User, doer: nat, p: Rotation) {
    && p.puks == (map r | r in u.roles :: u.roles[r].keys)
    && (p.target.Some? ==>
          p.target.value.id in u.active && p.targetRole == p.target.value.role == u.active[p.target.value.id])
    && (p.selfRevoke <==> p.target.Some? && p.target.value.id == doer)
  }

  /** Some owner device remains when the target is gone. */
  ghost predicate OwnerRemains(u: User, p: Rotation) {
    exists d :: IsOwner(u, d) && (p.target.Some? ==> p.target.value.id != d)
  }

  ghost predicate Enabled(u: User, e: Event) {
    match e
    case Provision(doer, d, role, seed) =>
      && IsOwner(u, doer) && d !in u.ever && role.Valid() && !role.IsNone()
      && if role in u.roles then Holds(u, doer, role) else FreshSeeds(u.roles, seed)
    case Rotate(doer, p) =>
      && IsOwner(u, doer) && HoldsAll(u, doer) && Describes(u, doer, p) && OwnerRemains(u, p)
      && FreshSeeds(u.roles, p.seed)
      // the server only takes boxes of new generations
      && (forall d, r :: d in u.active && r in u.roles && p.Boxed(Device(d, u.active[d]), r) && !p.selfRevoke ==>
            p.Rotates(r))
  }

  ghost function RoleAfter(u: User, doer: nat, p: Rotation, r: RoleKey): (s: RoleState)
    requires r in u.roles && u.roles[r].keys != [] && Describes(u, doer, p)
  {
    if p.Rotates(r) then u.roles[r].Rotate(p.NextPuk(r)) else u.roles[r]
  }

  ghost function RolesAfter(u: User, e: Event): (roles: RoleStates)
    requires Enabled(u, e) && RolesOk(u)
  {
    match e
    case Provision(_, _, role, seed) =>
      if role in u.roles then u.roles
      else u.roles[role := RoleState([], []).Rotate(SharedKey(role, 1, seed(role)))]
    case Rotate(doer, p) => map r | r in u.roles :: RoleAfter(u, doer, p, r)
  }

  /** Who is boxed the newest key of which role. */
  ghost predicate Gives(u: User, e: Event, d: nat, r: RoleKey) {
    match e
    case Provision(_, device, role, _) =>
      r == role && (d == device || (role !in u.roles && d in u.active && role.AtMost(u.active[d])))
    case Rotate(_, p) =>
      d in u.active && r in u.roles && !p.selfRevoke && p.Boxed(Device(d, u.active[d]), r)
  }

  ghost function Joins(e: Event): (s: set<nat>) { if e.Provision? then {e.device} else {} }

  ghost function NewSlots(u: User, e: Event): (s: set<Slot>)
    requires Enabled(u, e) && RolesOk(u)
    ensures forall k :: k in s <==> && k.role in RolesAfter(u, e) && Gives(u, e, k.device, k.role)
                                    && k.gen == |RolesAfter(u, e)[k.role].keys|
  {
    set d, r | d in u.active.Keys + Joins(e) && r in RolesAfter(u, e) && Gives(u, e, d, r)
      :: Slot(d, r, |RolesAfter(u, e)[r].keys|)
  }

  ghost function ActiveAfter(u: User, e: Event): (active: map<nat, RoleKey>) {
    match e
    case Provision(_, d, role, _) => u.active[d := role]
    case Rotate(_, p) => if p.target.Some? then u.active - {p.target.value.id} else u.active
  }

  ghost function NewestAfter(u: User, e: Event, r: RoleKey): (k: SharedKey)
    requires Enabled(u, e) && RolesOk(u) && r in RolesAfter(u, e)
  {
    match e
    case Provision(_, _, role, seed) => if r in u.roles then u.roles[r].Newest() else SharedKey(r, 1, seed(r))
    case Rotate(_, p) => p.NextPuk(r)
  }

  ghost function After(u: User, e: Event): (u': User)
    requires Enabled(u, e) && RolesOk(u)
  {
    User(ActiveAfter(u, e), u.ever + Joins(e), RolesAfter(u, e),
         u.boxes + map k | k in NewSlots(u, e) :: DeviceBox(e.doer, k.device, NewestAfter(u, e, k.role)))
  }

  ghost predicate RolesOk(u: User) { StatesOk(u.roles) }

  ghost predicate BoxOk(u: User, k: Slot, b: DeviceBox) {
    && k.role in u.roles && 1 <= k.gen <= |u.roles[k.role].keys| && k.device in u.ever
    && b.key == u.roles[k.role].keys[k.gen - 1] && b.receiver == k.device && b.sender in u.ever
    && (k.device in u.active ==> k.role.AtMost(u.active[k.device]))
  }

  /** An active device that was ever boxed a role's key is boxed its newest one. */
  ghost predicate UpToDate(u: User, k: Slot) {
    k.device in u.active ==> Holds(u, k.device, k.role)
  }

  /** An active device can load the key of its own role. */
  ghost predicate DeviceOk(u: User, d: nat)
    requires d in u.active
  {
    d in u.ever && u.active[d].Valid() && Holds(u, d, u.active[d])
  }

  ghost predicate HasOwner(u: User) { exists d :: IsOwner(u, d) }

  ghost predicate Inv(u: User) {
    && RolesOk(u) && SeedsDistinct(u.roles)
    && HasOwner(u)
    && (forall d {:trigger DeviceOk(u, d)} :: d in u.active ==> DeviceOk(u, d))
    && (forall k :: k in u.boxes ==> BoxOk(u, k, u.boxes[k]) && UpToDate(u, k))
  }

  /** The account as signup makes it: one owner device, boxed the first owner key by itself. */
  function SignUp(d: nat, seed: Seed): (u: User) {
    var k := SharedKey(OWNER_ROLE, 1, seed);
    User(map[d := OWNER_ROLE], {d}, map[OWNER_ROLE := RoleState([k], [])],
         map[Slot(d, OWNER_ROLE, 1) := DeviceBox(d, d, k)])
  }

  lemma SignUpOk(d: nat, seed: Seed)
    ensures Inv(SignUp(d, seed))
  {
    var u := SignUp(d, seed);
    assert IsOwner(u, d);
    RotateOk(OWNER_ROLE, RoleState([], []), SharedKey(OWNER_ROLE, 1, seed));
  }

  /** The roles are still histories with their chains, they only grow, and on top is the key that is boxed. */
  lemma RoleOkAfter(u: User, e: Event, r: RoleKey)
    requires RolesOk(u) && Enabled(u, e) && r in RolesAfter(u, e)
    ensures RolesAfter(u, e)[r].Ok(r) && RolesAfter(u, e)[r].Newest() == NewestAfter(u, e, r)
    ensures r in u.roles ==> u.roles[r].keys <= RolesAfter(u, e)[r].keys
  {
    assert r in u.roles ==> u.roles[r].Ok(r);
    match e
    case Provision(_, _, _, seed) =>
      if r !in u.roles { RotateOk(r, RoleState([], []), SharedKey(r, 1, seed(r))); }
    case Rotate(_, p) =>
      if p.Rotates(r) { RotateOk(r, u.roles[r], p.NextPuk(r)); }
  }

  /** A device that stays is given a role's newest key exactly if it may read the role and the key is new. */
  lemma GivenIffGrown(u: User, e: Event, d: nat, r: RoleKey)
    requires RolesOk(u) && Enabled(u, e) && d in u.active && d in ActiveAfter(u, e) && d in u.ever
    requires r in RolesAfter(u, e)
    ensures Gives(u, e, d, r) <==> r.AtMost(u.active[d]) && Grew(u.roles, RolesAfter(u, e), r)
  {
    RoleOkAfter(u, e, r);
    if e.Rotate? && e.p.target.Some? { assert Device(d, u.active[d]) != e.p.target.value; }
  }

  /** The role has a newer key than before. */
  ghost predicate Grew(before: RoleStates, after: RoleStates, r: RoleKey) {
    r in after && (r !in before || |before[r].keys| < |after[r].keys|)
  }

  lemma OldBoxOk(u: User, e: Event, k: Slot)
    requires Inv(u) && Enabled(u, e) && k in u.boxes
    ensures BoxOk(After(u, e), k, u.boxes[k]) && k !in NewSlots(u, e)
  {
    assert BoxOk(u, k, u.boxes[k]);
    RoleOkAfter(u, e, k.role);
    if k.device in ActiveAfter(u, e) && k.device in u.active { GivenIffGrown(u, e, k.device, k.role); }
    if e.Rotate? && k in NewSlots(u, e) { assert k.device in u.active; }
  }

  /** Keys are boxed for the user's devices only, and only those of roles they may read. */
  lemma GivenMayRead(u: User, e: Event, d: nat, r: RoleKey)
    requires Inv(u) && Enabled(u, e) && Gives(u, e, d, r)
    ensures e.doer in u.ever && d in u.ever + Joins(e)
    ensures d in ActiveAfter(u, e) ==> r.AtMost(ActiveAfter(u, e)[d])
  {
    assert DeviceOk(u, e.doer);
    if d in u.active { assert DeviceOk(u, d); }
  }

  lemma NewBoxOk(u: User, e: Event, k: Slot)
    requires Inv(u) && Enabled(u, e) && k in NewSlots(u, e)
    ensures BoxOk(After(u, e), k, After(u, e).boxes[k]) && Holds(After(u, e), k.device, k.role)
  {
    RoleOkAfter(u, e, k.role);
    GivenMayRead(u, e, k.device, k.role);
  }

  /** A device that stays goes on holding the roles it holds. */
  lemma HoldsStays(u: User, e: Event, d: nat, r: RoleKey)
    requires Inv(u) && Enabled(u, e) && d in u.active && d in ActiveAfter(u, e) && Holds(u, d, r)
    ensures Holds(After(u, e), d, r)
  {
    var k := Slot(d, r, |u.roles[r].keys|);
    assert BoxOk(u, k, u.boxes[k]) && DeviceOk(u, d);
    RoleOkAfter(u, e, r);
    GivenIffGrown(u, e, d, r);
    if Grew(u.roles, RolesAfter(u, e), r) {
      assert Slot(d, r, |RolesAfter(u, e)[r].keys|) in NewSlots(u, e);
    }
  }

  lemma DevicesOkAfter(u: User, e: Event, d: nat)
    requires Inv(u) && Enabled(u, e) && d in ActiveAfter(u, e)
    ensures DeviceOk(After(u, e), d)
  {
    if d in Joins(e) {
      RoleOkAfter(u, e, e.role);
      assert Slot(d, e.role, |RolesAfter(u, e)[e.role].keys|) in NewSlots(u, e);
    } else {
      assert DeviceOk(u, d);
      HoldsStays(u, e, d, u.active[d]);
    }
  }

  lemma OwnerAfter(u: User, e: Event)
    requires Inv(u) && Enabled(u, e)
    ensures HasOwner(After(u, e))
  {
    if e.Provision? {
      assert IsOwner(After(u, e), e.doer) by { assert DeviceOk(u, e.doer); }
    } else {
      var d :| IsOwner(u, d) && (e.p.target.Some? ==> e.p.target.value.id != d);
      assert IsOwner(After(u, e), d);
    }
  }

  lemma GrowsAt(u: User, e: Event, seed: RoleKey -> Seed, r: RoleKey, i: nat)
    requires RolesOk(u) && Enabled(u, e) && r in RolesAfter(u, e) && i < |RolesAfter(u, e)[r].keys|
    requires e.Provision? ==> e.role !in u.roles && seed == e.seed
    requires e.Rotate? ==> seed == e.p.seed
    ensures GrownAt(u.roles, RolesAfter(u, e), seed, r, i)
  {
  }

  lemma SeedsDistinctAfter(u: User, e: Event)
    requires RolesOk(u) && SeedsDistinct(u.roles) && Enabled(u, e)
    ensures SeedsDistinct(RolesAfter(u, e))
  {
    var after := RolesAfter(u, e);
    if !(e.Provision? && e.role in u.roles) {
      var seed := if e.Provision? then e.seed else e.p.seed;
      forall r, i | r in after && 0 <= i < |after[r].keys| ensures GrownAt(u.roles, after, seed, r, i) {
        GrowsAt(u, e, seed, r, i);
      }
      SeedsStayDistinct(u.roles, after, seed);
    }
  }

  lemma BoxesOkAfter(u: User, e: Event, k: Slot)
    requires Inv(u) && Enabled(u, e) && k in After(u, e).boxes
    ensures BoxOk(After(u, e), k, After(u, e).boxes[k]) && UpToDate(After(u, e), k)
  {
    if k in NewSlots(u, e) {
      NewBoxOk(u, e, k);
    } else {
      OldBoxOk(u, e, k);
      assert BoxOk(u, k, u.boxes[k]) && UpToDate(u, k);
      if k.device in ActiveAfter(u, e) { HoldsStays(u, e, k.device, k.role); }
    }
  }

  ghost predicate Step(u: User, e: Event, u': User) {
    RolesOk(u) && Enabled(u, e) && u' == After(u, e)
  }

  lemma StepKeepsInv(u: User, e: Event, u': User)
    requires Inv(u) && Step(u, e, u')
    ensures Inv(u')
  {
    forall r | r in u'.roles ensures u'.roles[r].Ok(r) { RoleOkAfter(u, e, r); }
    SeedsDistinctAfter(u, e);
    OwnerAfter(u, e);
    forall d | d in u'.active ensures DeviceOk(u', d) { DevicesOkAfter(u, e, d); }
    forall k | k in u'.boxes ensures BoxOk(u', k, u'.boxes[k]) && UpToDate(u', k) { BoxesOkAfter(u, e, k); }
  }

  ghost predicate Run(us: seq<User>, es: seq<Event>) {
    && |us| == |es| + 1 && Inv(us[0])
    && forall i {:trigger es[i]} :: 0 <= i < |es| ==>
        Step(us[i], es[i], us[i + 1])
  }

  lemma {:induction false} RunKeepsInv(us: seq<User>, es: seq<Event>, n: nat)
    requires Run(us, es) && n < |us|
    ensures Inv(us[n])
  {
    if n > 0 {
      RunKeepsInv(us, es, n - 1);
      StepKeepsInv(us[n - 1], es[n - 1], us[n]);
    }
  }

  /**
   After any run, an active device that was ever given a role's key recovers, from
   its newest box and the whole chain, exactly generations 1 to the newest, so that
   asking for generation g gives the generation-g key.
   */
  lemma DeviceRecoversHistory(us: seq<User>, es: seq<Event>, n: nat, k: Slot, chain: Chain)
    requires Run(us, es) && n < |us| && k in us[n].boxes && k.device in us[n].active
    requires k.role in us[n].roles ==>
              k.role in chain.published && Publishes(chain.published[k.role], us[n].roles[k.role].keys)
    requires chain.devices == us[n].ever
    ensures var u := us[n];
            && k.role in u.roles
            && var s := u.roles[k.role];
               var newest := Slot(k.device, k.role, |s.keys|);
               && newest in u.boxes
               && var b := u.boxes[newest];
                  && Decrypt(chain, k.device, PukParcel(|s.keys|, k.role, b.sender, b, s.chain)) == Ok(s.keys)
                  && forall g :: 1 <= g <= |s.keys| ==>
                      At(s.keys, g).Some? && At(s.keys, g).value.gen == g && At(s.keys, g).value.role == k.role
  {
    RunKeepsInv(us, es, n);
    var u := us[n];
    assert BoxOk(u, k, u.boxes[k]) && UpToDate(u, k);
    var s := u.roles[k.role];
    var newest := Slot(k.device, k.role, |s.keys|);
    assert BoxOk(u, newest, u.boxes[newest]);
    var b := u.boxes[newest];
    assert b == DeviceBox(b.sender, k.device, s.keys[|s.keys| - 1]);
    DecryptRecoversHistory(chain, k.device, k.role, s, |s.keys|, b.sender);
  }

  /** A device that is gone and was never given the current key of any role. */
  ghost predicate LeftBehind(u: User, d: nat) {
    && d in u.ever && d !in u.active
    && forall k :: k in u.boxes && k.device == d && k.role in u.roles ==> k.gen < |u.roles[k.role].keys|
  }

  lemma ActiveWasEver(u: User, d: nat)
    requires Inv(u) && d in u.active
    ensures d in u.ever
  {
    assert DeviceOk(u, d);
  }

  /** Whatever box the target has after its revocation it had before. */
  lemma RevokedHadTheBox(u: User, doer: nat, p: Rotation, k: Slot)
    requires Inv(u) && Enabled(u, Rotate(doer, p)) && p.target.Some? && p.force.None? && !p.selfRevoke
    requires k in After(u, Rotate(doer, p)).boxes && k.device == p.target.value.id
    ensures k in u.boxes && k.role in u.roles && k.gen <= |u.roles[k.role].keys| && k.role.AtMost(p.targetRole)
  {
    assert Device(k.device, u.active[k.device]) == p.target.value;
    assert k !in NewSlots(u, Rotate(doer, p));
    assert BoxOk(u, k, u.boxes[k]);
  }

  lemma RevocationGrows(u: User, doer: nat, p: Rotation, r: RoleKey)
    requires RolesOk(u) && Enabled(u, Rotate(doer, p)) && p.target.Some? && p.force.None? && !p.selfRevoke
    requires r in u.roles && r.AtMost(p.targetRole)
    ensures r in RolesAfter(u, Rotate(doer, p)) && |RolesAfter(u, Rotate(doer, p))[r].keys| == |u.roles[r].keys| + 1
  {
    assert p.Rotates(r);
  }

  lemma RevokedIsLeftBehind(u: User, doer: nat, p: Rotation)
    requires Inv(u) && Enabled(u, Rotate(doer, p)) && p.target.Some? && p.force.None? && !p.selfRevoke
    ensures LeftBehind(After(u, Rotate(doer, p)), p.target.value.id)
  {
    var u', d := After(u, Rotate(doer, p)), p.target.value.id;
    ActiveWasEver(u, d);
    forall k | k in u'.boxes && k.device == d && k.role in u'.roles ensures k.gen < |u'.roles[k.role].keys| {
      RevokedHadTheBox(u, doer, p, k);
      RevocationGrows(u, doer, p, k.role);
    }
  }

  lemma StaysLeftBehind(u: User, e: Event, u': User, d: nat)
    requires Inv(u) && Step(u, e, u') && LeftBehind(u, d)
    ensures LeftBehind(u', d)
  {
    GoneIsNotBoxed(u, e, u', d);
    forall k | k in u'.boxes && k.device == d && k.role in u'.roles ensures k.gen < |u'.roles[k.role].keys| {
      RoleOkAfter(u, e, k.role);
      assert BoxOk(u, k, u.boxes[k]);
    }
  }

  lemma StepOfRun(us: seq<User>, es: seq<Event>, i: nat)
    requires Run(us, es) && i < |es|
    ensures Inv(us[i]) && Step(us[i], es[i], us[i + 1])
  {
    RunKeepsInv(us, es, i);
  }

  lemma LeftBehindOnRun(us: seq<User>, es: seq<Event>, i: nat, d: nat)
    requires Run(us, es) && i < |es| && LeftBehind(us[i], d)
    ensures LeftBehind(us[i + 1], d)
  {
    StepOfRun(us, es, i);
    StaysLeftBehind(us[i], es[i], us[i + 1], d);
  }

  lemma {:induction false} LeftBehindForGood(us: seq<User>, es: seq<Event>, n: nat, m: nat, d: nat)
    requires Run(us, es) && n <= m < |us| && LeftBehind(us[n], d)
    ensures LeftBehind(us[m], d)
  {
    if n < m {
      LeftBehindForGood(us, es, n, m - 1, d);
      LeftBehindOnRun(us, es, m - 1, d);
    }
  }

  /** Once revoked by another device, a device is never given the current key of any role again. */
  lemma RevokedForGood(us: seq<User>, es: seq<Event>, n: nat, m: nat)
    requires Run(us, es) && n < m < |us| && es[n].Rotate? && es[n].p.target.Some?
    requires es[n].p.force.None? && !es[n].p.selfRevoke
    ensures LeftBehind(us[m], es[n].p.target.value.id)
  {
    StepOfRun(us, es, n);
    RevokedIsLeftBehind(us[n], es[n].doer, es[n].p);
    LeftBehindForGood(us, es, n + 1, m, es[n].p.target.value.id);
  }

  // ------------------------------------------------------------------------- secrecy

  /** The keys in all boxes the server ever stored for a device. */
  ghost function BoxedFor(u: User, d: nat): (s: set<SharedKey>) {
    set k | k in u.boxes && u.boxes[k].receiver == d :: u.boxes[k].key
  }

  ghost predicate GivenAtLeast(u: User, d: nat, r: RoleKey, g: nat) {
    exists k :: k in u.boxes && k.device == d && k.role == r && g <= k.gen
  }

  lemma BoxIsLabelled(u: User, k: Slot)
    requires Inv(u) && k in u.boxes
    ensures RealKey(u.roles, u.boxes[k].key) && u.boxes[k].receiver == k.device
    ensures u.boxes[k].key.role == k.role && u.boxes[k].key.gen == k.gen
  {
    assert BoxOk(u, k, u.boxes[k]) && u.roles[k.role].Ok(k.role);
  }

  /** From all boxes and links the server stores, a device can derive exactly the keys at or below one it was boxed. */
  lemma DerivableIffGiven(u: User, d: nat, key: SharedKey)
    requires Inv(u)
    ensures Derivable(u.roles, BoxedFor(u, d), key) <==> RealKey(u.roles, key) && GivenAtLeast(u, d, key.role, key.gen)
  {
    forall k | k in u.boxes
      ensures RealKey(u.roles, u.boxes[k].key) && u.boxes[k].receiver == k.device
      ensures u.boxes[k].key.role == k.role && u.boxes[k].key.gen == k.gen
    {
      BoxIsLabelled(u, k);
    }
    if GivenAtLeast(u, d, key.role, key.gen) {
      var k :| k in u.boxes && k.device == d && k.role == key.role && key.gen <= k.gen;
      assert u.boxes[k].key in BoxedFor(u, d);
    }
    DerivableIff(u.roles, BoxedFor(u, d), key);
  }

  /** In every reachable state a device can derive the newest key of a role exactly if it was boxed that key. */
  lemma NewestDerivableIffBoxed(us: seq<User>, es: seq<Event>, n: nat, d: nat, r: RoleKey)
    requires Run(us, es) && n < |us| && r in us[n].roles
    ensures us[n].roles[r].keys != []
    ensures Derivable(us[n].roles, BoxedFor(us[n], d), us[n].roles[r].Newest()) <==>
            Slot(d, r, |us[n].roles[r].keys|) in us[n].boxes
  {
    RunKeepsInv(us, es, n);
    var u := us[n];
    assert u.roles[r].Ok(r);
    DerivableIffGiven(u, d, u.roles[r].Newest());
    if GivenAtLeast(u, d, r, |u.roles[r].keys|) {
      var k :| k in u.boxes && k.device == d && k.role == r && |u.roles[r].keys| <= k.gen;
      assert BoxOk(u, k, u.boxes[k]);
    }
  }

  /** The device is gone at both times, and between them nothing was boxed for it while histories only grew. */
  ghost predicate StaysOut(u: User, u': User, d: nat) {
    && d in u'.ever && d !in u'.active
    && (forall r :: r in u.roles ==> r in u'.roles && u.roles[r].keys <= u'.roles[r].keys)
    && (forall k :: k in u'.boxes && k.device == d ==> k in u.boxes)
  }

  /** A device that is gone is never boxed anything again. */
  lemma GoneIsNotBoxed(u: User, e: Event, u': User, d: nat)
    requires Inv(u) && Step(u, e, u') && d in u.ever && d !in u.active
    ensures StaysOut(u, u', d)
  {
    forall r | r in u.roles ensures u.roles[r].keys <= u'.roles[r].keys { RoleOkAfter(u, e, r); }
  }

  lemma GoneOnRun(us: seq<User>, es: seq<Event>, i: nat, d: nat)
    requires Run(us, es) && i < |es| && d in us[i].ever && d !in us[i].active
    ensures StaysOut(us[i], us[i + 1], d)
  {
    StepOfRun(us, es, i);
    GoneIsNotBoxed(us[i], es[i], us[i + 1], d);
  }

  lemma {:induction false} GoneForGood(us: seq<User>, es: seq<Event>, n: nat, m: nat, d: nat)
    requires Run(us, es) && n <= m < |us| && d in us[n].ever && d !in us[n].active
    ensures StaysOut(us[n], us[m], d)
  {
    if n < m {
      GoneForGood(us, es, n, m - 1, d);
      GoneOnRun(us, es, m - 1, d);
    }
  }

  /**
   Once revoked by another device, a device can work out from all boxes and links
   together no key made at its revocation or later, of any role, however long the run.
   */
  lemma RevokedDerivesNothingNew(us: seq<User>, es: seq<Event>, n: nat, m: nat, key: SharedKey)
    requires Run(us, es) && n < m < |us| && es[n].Rotate? && es[n].p.target.Some?
    requires es[n].p.force.None? && !es[n].p.selfRevoke
    requires Derivable(us[m].roles, BoxedFor(us[m], es[n].p.target.value.id), key)
    ensures key.role in us[n].roles && 1 <= key.gen <= |us[n].roles[key.role].keys|
    ensures key.role in us[m].roles && key.gen < |us[m].roles[key.role].keys|
  {
    var d := es[n].p.target.value.id;
    StepOfRun(us, es, n);
    RunKeepsInv(us, es, m);
    RevokedIsLeftBehind(us[n], es[n].doer, es[n].p);
    GoneForGood(us, es, n + 1, m, d);
    DerivableIffGiven(us[m], d, key);
    var k :| k in us[m].boxes && k.device == d && k.role == key.role && key.gen <= k.gen;
    RevokedHadTheBox(us[n], es[n].doer, es[n].p, k);
  }
}
