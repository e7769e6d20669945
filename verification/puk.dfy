/**
 Per-user key rotation (client/libclient/rotate_mgr.go) and recovery of a key's
 history (client/libclient/puk_minder.go). A rotation happens when a device is
 revoked, or when roles are forced to rotate; it seals each old key under its
 successor and boxes the new keys for the devices that may have them.
 */
module Puks {
  import opened Common
  import opened Roles
  import opened SeedChains
  import opened Gameplans

  datatype Device = Device(id: nat, role: RoleKey)

  /** A key boxed by one device for another. */
  datatype DeviceBox = DeviceBox(sender: nat, receiver: nat, key: SharedKey)

  datatype RotateError = DeviceNotFound | AlreadyRevoked | HigherRole | LastOwner | CannotRotate

  /** What the user's chain says about a device. */
  datatype DeviceInfo = DeviceInfo(dev: Device, revoked: bool)

  predicate IsActiveOwner(d: DeviceInfo) { !d.revoked && d.dev.role.typ == OWNER }

  function CountOwners(ds: seq<DeviceInfo>): (n: nat) {
    if ds == [] then 0 else CountOwners(ds[..|ds| - 1]) + if IsActiveOwner(ds[|ds| - 1]) then 1 else 0
  }

  function FirstWith(ds: seq<DeviceInfo>, id: nat): (at: Option<nat>)
    ensures at.None? <==> forall i :: 0 <= i < |ds| ==> ds[i].dev.id != id
    ensures at.Some? ==> at.value < |ds| && ds[at.value].dev.id == id
    decreases |ds|
  {
    if ds == [] then None
    else
      var front := FirstWith(ds[..|ds| - 1], id);
      if front.Some? then front else if ds[|ds| - 1].dev.id == id then Some(|ds| - 1) else None
  }

  /** The parameters of one rotation, once they have been checked. */
  datatype Rotation = Rotation(
    target: Option<Device>,                     // the device to revoke, if any
    force: Option<set<RoleKey>>,                // the roles to rotate, if not revoking
    targetRole: RoleKey, selfRevoke: bool,
    puks: map<RoleKey, seq<SharedKey>>,         // every generation of every role's key
    seed: RoleKey -> Seed)
  {
    /** Every role's key set is loaded and complete. */
    ghost predicate Loaded() {
      forall r :: r in puks ==> puks[r] != [] && IsHistory(r, puks[r])
    }

    function Current(r: RoleKey): (k: SharedKey)
      requires r in puks && puks[r] != []
    {
      puks[r][|puks[r]| - 1]
    }

    predicate Rotates(r: RoleKey) {
      !((force.Some? && r !in force.value) || (target.Some? && targetRole.LessThan(r)) || selfRevoke)
    }

    function NextPuk(r: RoleKey): (k: SharedKey)
      requires r in puks && puks[r] != []
    {
      if Rotates(r) then SharedKey(Current(r).role, Current(r).gen + 1, seed(r)) else Current(r)
    }

    ghost predicate Knows(roles: seq<RoleKey>) {
      forall i :: 0 <= i < |roles| ==> roles[i] in puks && puks[roles[i]] != []
    }

    /** The new keys among the first `n` roles. */
    ghost function PostOf(roles: seq<RoleKey>, n: nat): (ks: seq<SharedKey>)
      requires n <= |roles| && Knows(roles)
    {
      if n == 0 then [] else PostOf(roles, n - 1) + if Rotates(roles[n - 1]) then [NextPuk(roles[n - 1])] else []
    }

    /** The chain links of the first `n` roles. */
    ghost function LinksOf(roles: seq<RoleKey>, n: nat): (ls: seq<SeedChainBox>)
      requires n <= |roles| && Knows(roles)
    {
      if n == 0 then []
      else
        var r := roles[n - 1];
        LinksOf(roles, n - 1) + if Rotates(r) then [SealPrevious(Current(r), NextPuk(r))] else []
    }

    /** Which keys a device is to be boxed. */
    predicate Boxed(dev: Device, r: RoleKey) {
      && !(target.Some? && dev == target.value)
      && !(dev.role.LessThan(r) || (target.Some? && targetRole.LessThan(r)))
    }
  }

  /** The roles in ascending order, each once. */
  ghost predicate ListsRoles(keys: seq<RoleKey>, puks: map<RoleKey, seq<SharedKey>>) {
    && (forall i, j :: 0 <= i < j < |keys| ==> keys[i].LessThan(keys[j]))
    && (forall r :: r in keys <==> r in puks)
  }

  predicate HasRole(made: seq<DeviceBox>, r: RoleKey) {
    exists i :: 0 <= i < |made| && made[i].key.role == r
  }

  /** The boxes made for one device: one for each key it is to have, in any order. */
  ghost predicate BoxesFor(p: Rotation, me: nat, next: map<RoleKey, SharedKey>, done: set<RoleKey>, dev: Device,
                           made: seq<DeviceBox>) {
    && (forall i :: 0 <= i < |made| ==>
                      var r := made[i].key.role;
                      r in next && r in done && p.Boxed(dev, r) && made[i] == DeviceBox(me, dev.id, next[r]))
    && (forall r :: r in next && r in done && p.Boxed(dev, r) ==> HasRole(made, r))
    && (forall i, j :: 0 <= i < j < |made| ==> made[i].key.role != made[j].key.role)
  }

  method SeedsFor(p: Rotation, keys: seq<RoleKey>)
    returns (next: map<RoleKey, SharedKey>, post: seq<SharedKey>, links: seq<SeedChainBox>)
    requires p.Knows(keys)
    ensures forall r :: r in next <==> r in keys
    ensures forall r :: r in next ==> next[r] == p.NextPuk(r)
    ensures post == p.PostOf(keys, |keys|) && links == p.LinksOf(keys, |keys|)
  {
    next, post, links := map[], [], [];
    for i := 0 to |keys|
      invariant forall j :: 0 <= j < i ==> keys[j] in next
      invariant forall r :: r in next ==> r in keys && next[r] == p.NextPuk(r)
      invariant post == p.PostOf(keys, i) && links == p.LinksOf(keys, i)
    {
      var rk := keys[i];
      var curr := p.Current(rk);
      if (p.force.Some? && rk !in p.force.value) || (p.target.Some? && p.targetRole.LessThan(rk)) || p.selfRevoke {
        next := next[rk := curr];
      } else {
        var newPuk := SharedKey(curr.role, curr.gen + 1, p.seed(rk));
        next := next[rk := newPuk];
        post := post + [newPuk];
        links := links + [SealPrevious(curr, newPuk)];
      }
    }
  }

  class RotateMgr {
    const me: Device
    const chain: seq<DeviceInfo>                // all devices the user ever had
    const active: seq<Device>
    const target: Option<Device>
    const force: Option<set<RoleKey>>
    const allPuks: map<RoleKey, seq<SharedKey>>
    const seed: RoleKey -> Seed
    var targetRole: RoleKey
    var selfRevoke: bool
    var nextPuks: map<RoleKey, SharedKey>
    var puksToPost: seq<SharedKey>
    var seedChain: seq<SeedChainBox>
    var boxes: seq<seq<DeviceBox>>              // by active device

    constructor (me: Device, chain: seq<DeviceInfo>, active: seq<Device>, target: Option<Device>,
                 force: Option<set<RoleKey>>, allPuks: map<RoleKey, seq<SharedKey>>, seed: RoleKey -> Seed)
      ensures this.me == me && this.chain == chain && this.active == active
      ensures this.target == target && this.force == force
      ensures this.allPuks == allPuks && this.seed == seed && !selfRevoke
      ensures nextPuks == map[] && puksToPost == [] && seedChain == [] && boxes == []
    {
      this.me, this.chain, this.active, this.target, this.force := me, chain, active, target, force;
      this.allPuks, this.seed := allPuks, seed;
      targetRole, selfRevoke := RoleKey(NONE, 0), false;
      nextPuks, puksToPost, seedChain, boxes := map[], [], [], [];
    }

    function Params(): (p: Rotation)
      reads this`targetRole, this`selfRevoke
    {
      Rotation(target, force, targetRole, selfRevoke, allPuks, seed)
    }

    /** Whether the target may be revoked by this device. */
    method CheckRevoke() returns (r: Result<(), RotateError>)
      requires target.Some?
      modifies this`targetRole, this`selfRevoke
      ensures r.Ok? <==> && FirstWith(chain, target.value.id).Some?
                         && (var dev := chain[FirstWith(chain, target.value.id).value];
                             !dev.revoked && dev.dev.role.AtMost(me.role))
                         && !(target.value.role.typ == OWNER && CountOwners(chain) == 1)
      ensures r.Ok? ==> targetRole == target.value.role && selfRevoke == (target.value == me)
    {
      var at := FirstWith(chain, target.value.id);
      if at.None? { return Err(DeviceNotFound); }
      var dev := chain[at.value];
      if dev.revoked { return Err(AlreadyRevoked); }
      if me.role.LessThan(dev.dev.role) { return Err(HigherRole); }
      selfRevoke := target.value == me;
      targetRole := target.value.role;
      if targetRole.typ == OWNER {
        var c := 0;
        for i := 0 to |chain|
          invariant c == CountOwners(chain[..i])
        {
          assert chain[..i + 1][..i] == chain[..i];
          if IsActiveOwner(chain[i]) { c := c + 1; }
        }
        assert chain[..|chain|] == chain;
        if c == 1 { return Err(LastOwner); }
      }
      return Ok(());
    }

    /** Forced rotation needs one role this device can read; the target role is the highest one forced. */
    method CheckRotate() returns (r: Result<(), RotateError>)
      requires force.Some?
      modifies this`targetRole
      ensures r.Ok? <==> exists f :: f in force.value && f.AtMost(me.role)
      ensures r.Ok? ==> targetRole in force.value && forall f :: f in force.value ==> f.AtMost(targetRole)
      ensures r.Err? ==> targetRole == old(targetRole)
    {
      var left, found := force.value, false;
      var maxRole: Option<RoleKey> := None;
      while left != {}
        invariant left <= force.value && targetRole == old(targetRole)
        invariant found <==> exists f :: f in force.value && f !in left && f.AtMost(me.role)
        invariant maxRole.None? <==> left == force.value
        invariant maxRole.Some? ==> maxRole.value in force.value
        invariant maxRole.Some? ==> forall f :: f in force.value && f !in left ==> f.AtMost(maxRole.value)
      {
        var f :| f in left;
        if maxRole.None? || maxRole.value.LessThan(f) { maxRole := Some(f); }
        if !me.role.LessThan(f) { found := true; }
        left := left - {f};
      }
      if !found { return Err(CannotRotate); }
      targetRole := maxRole.value;
      return Ok(());
    }

    method SortedRoleList() returns (keys: seq<RoleKey>)
      ensures ListsRoles(keys, allPuks)
    {
      keys := [];
      var left := allPuks.Keys;
      while left != {}
        invariant left <= allPuks.Keys
        invariant forall r :: r in keys <==> r in allPuks && r !in left
        invariant forall i, j :: 0 <= i < j < |keys| ==> keys[i].LessThan(keys[j])
        invariant forall i, q :: 0 <= i < |keys| && q in left ==> keys[i].LessThan(q)
      {
        ghost var lowest := LowestRole(left);
        var r :| r in left && forall q :: q in left ==> r.AtMost(q);
        forall q | q in left && q != r ensures r.LessThan(q) { AtMostOther(r, q); }
        keys := keys + [r];
        left := left - {r};
      }
    }

    /** Walks the roles in order: a rotating role gets a new key and a link sealing the old one. */
    method MakeSeeds() returns (ghost roles: seq<RoleKey>)
      requires Params().Loaded() && puksToPost == [] && seedChain == []
      modifies this`nextPuks, this`puksToPost, this`seedChain
      ensures ListsRoles(roles, allPuks)
      ensures nextPuks.Keys == allPuks.Keys && forall r :: r in allPuks ==> nextPuks[r] == Params().NextPuk(r)
      ensures Params().Knows(roles) && puksToPost == Params().PostOf(roles, |roles|)
      ensures seedChain == Params().LinksOf(roles, |roles|)
    {
      var keys := SortedRoleList();
      roles := keys;
      nextPuks, puksToPost, seedChain := SeedsFor(Params(), keys);
    }

    method BoxForDevice(dev: Device) returns (made: seq<DeviceBox>)
      requires forall r :: r in nextPuks ==> nextPuks[r].role == r
      ensures BoxesFor(Params(), me.id, nextPuks, nextPuks.Keys, dev, made)
    {
      made := [];
      if target.Some? && dev == target.value { return; }
      var left := nextPuks.Keys;
      while left != {}
        invariant left <= nextPuks.Keys && BoxesFor(Params(), me.id, nextPuks, nextPuks.Keys - left, dev, made)
      {
        var rk :| rk in left;
        OneMoreBox(Params(), me.id, nextPuks, nextPuks.Keys - left, dev, made, rk);
        assert nextPuks.Keys - (left - {rk}) == nextPuks.Keys - left + {rk};
        left := left - {rk};
        if !(dev.role.LessThan(rk) || (target.Some? && targetRole.LessThan(rk))) {
          made := made + [DeviceBox(me.id, dev.id, nextPuks[rk])];
        }
      }
      assert nextPuks.Keys - {} == nextPuks.Keys;
    }

    /** Boxes the next keys for the active devices; a device revoking itself leaves that to the others. */
    method MakeBoxes()
      requires boxes == [] && forall r :: r in nextPuks ==> nextPuks[r].role == r
      modifies this`boxes
      ensures selfRevoke ==> boxes == []
      ensures !selfRevoke ==>
                && |boxes| == |active|
                && forall d :: 0 <= d < |active| ==>
                    BoxesFor(Params(), me.id, nextPuks, nextPuks.Keys, active[d], boxes[d])
    {
      if selfRevoke { return; }
      for d := 0 to |active|
        invariant |boxes| == d
        invariant forall c :: 0 <= c < d ==> BoxesFor(Params(), me.id, nextPuks, nextPuks.Keys, active[c], boxes[c])
      {
        var made := BoxForDevice(active[d]);
        boxes := boxes + [made];
      }
    }

    /**
     Revoking another device raises every role at or below the target's by exactly
     one generation and leaves the others alone, seals each old key once, and boxes
     each new key once for every remaining device that may read it.
     */
    method Revoke() returns (r: Result<(), RotateError>)
      requires target.Some? && force.None? && nextPuks == map[] && puksToPost == [] && seedChain == [] && boxes == []
      requires forall r :: r in allPuks ==> allPuks[r] != [] && IsHistory(r, allPuks[r])
      modifies this
      ensures r.Ok? && target.value != me ==> Distributed(target.value, allPuks, seed, nextPuks, seedChain, puksToPost)
      ensures r.Ok? && target.value != me ==> |boxes| == |active|
      ensures r.Ok? && target.value != me ==>
                forall d :: 0 <= d < |active| ==> DistributedTo(target.value, me.id, nextPuks, active[d], boxes[d])
      ensures r.Ok? && target.value == me ==> puksToPost == [] && seedChain == [] && boxes == []
    {
      r := CheckRevoke();
      if r.Err? { return; }
      ghost var roles := MakeSeeds();
      if selfRevoke { NoneRotate(Params(), roles, |roles|); } else { RevocationDistributes(Params(), roles, nextPuks); }
      MakeBoxes();
      if !selfRevoke {
        forall d | 0 <= d < |active| ensures DistributedTo(target.value, me.id, nextPuks, active[d], boxes[d]) {
          BoxesAreDistributed(Params(), me.id, nextPuks, active[d], boxes[d]);
        }
      }
    }
  }

  lemma BoxesAreDistributed(p: Rotation, me: nat, next: map<RoleKey, SharedKey>, dev: Device, made: seq<DeviceBox>)
    requires p.target.Some? && p.targetRole == p.target.value.role && BoxesFor(p, me, next, next.Keys, dev, made)
    ensures DistributedTo(p.target.value, me, next, dev, made)
  {
    if made != [] {
      assert p.Boxed(dev, made[0].key.role);
    }
    forall i | 0 <= i < |made|
      ensures var r := made[i].key.role;
              && r in next && r.AtMost(dev.role) && r.AtMost(p.target.value.role)
              && made[i] == DeviceBox(me, dev.id, next[r])
    {
      assert p.Boxed(dev, made[i].key.role);
    }
    forall r | dev != p.target.value && r in next && r.AtMost(dev.role) && r.AtMost(p.target.value.role)
      ensures HasRole(made, r)
    {
      assert p.Boxed(dev, r);
    }
  }

  /** What revoking `target` must do to the keys. */
  ghost predicate Distributed(target: Device, puks: map<RoleKey, seq<SharedKey>>, seed: RoleKey -> Seed,
                              next: map<RoleKey, SharedKey>, links: seq<SeedChainBox>, posted: seq<SharedKey>)
    requires forall r :: r in puks ==> puks[r] != []
  {
    && next.Keys == puks.Keys
    && (forall r :: r in puks ==>
                      next[r] == if r.AtMost(target.role) then SharedKey(r, |puks[r]| + 1, seed(r))
                                 else puks[r][|puks[r]| - 1])
    // one link for each rotated role, no other
    && (forall i :: 0 <= i < |links| ==>
                      var r := links[i].role;
                      r in puks && r.AtMost(target.role) && links[i] == SealPrevious(puks[r][|puks[r]| - 1], next[r]))
    && (forall r :: r in puks && r.AtMost(target.role) ==> HasLink(links, r))
    && (forall i, j :: 0 <= i < j < |links| ==> links[i].role != links[j].role)
    // the keys posted are the new ones, in step with the links
    && |posted| == |links| && (forall i :: 0 <= i < |links| ==> posted[i] == next[links[i].role])
  }

  /** What revoking `target` must box for one active device: nothing for the target itself. */
  ghost predicate DistributedTo(target: Device, me: nat, next: map<RoleKey, SharedKey>, dev: Device,
                                made: seq<DeviceBox>) {
    && (dev == target ==> made == [])
    && (forall i :: 0 <= i < |made| ==>
                      var r := made[i].key.role;
                      && r in next && r.AtMost(dev.role) && r.AtMost(target.role)
                      && made[i] == DeviceBox(me, dev.id, next[r]))
    && (dev != target ==> forall r :: r in next && r.AtMost(dev.role) && r.AtMost(target.role) ==> HasRole(made, r))
    && (forall i, j :: 0 <= i < j < |made| ==> made[i].key.role != made[j].key.role)
  }

  predicate HasLink(links: seq<SeedChainBox>, r: RoleKey) {
    exists i :: 0 <= i < |links| && links[i].role == r
  }

  /** The link seals the old key of a rotating role under its new one. */
  ghost predicate LinkOk(p: Rotation, l: SeedChainBox) {
    && l.role in p.puks && p.puks[l.role] != [] && p.Rotates(l.role)
    && l == SealPrevious(p.Current(l.role), p.NextPuk(l.role))
  }

  lemma {:induction false} LinksSound(p: Rotation, roles: seq<RoleKey>, n: nat)
    requires p.Loaded() && p.Knows(roles) && n <= |roles|
    requires forall i, j :: 0 <= i < j < |roles| ==> roles[i].LessThan(roles[j])
    ensures forall i :: 0 <= i < |p.LinksOf(roles, n)| ==> LinkOk(p, p.LinksOf(roles, n)[i])
    ensures forall i, k :: 0 <= i < |p.LinksOf(roles, n)| && n <= k < |roles| ==>
              p.LinksOf(roles, n)[i].role.LessThan(roles[k])
    ensures forall i, j :: 0 <= i < j < |p.LinksOf(roles, n)| ==>
              p.LinksOf(roles, n)[i].role.LessThan(p.LinksOf(roles, n)[j].role)
  {
    if n > 0 {
      LinksSound(p, roles, n - 1);
      var r := roles[n - 1];
      assert p.Current(r).role == r;
    }
  }

  /** Each key posted is the new key of the role whose link was made with it. */
  lemma {:induction false} PostedWithLinks(p: Rotation, roles: seq<RoleKey>, n: nat)
    requires p.Loaded() && p.Knows(roles) && n <= |roles|
    ensures |p.PostOf(roles, n)| == |p.LinksOf(roles, n)|
    ensures forall i :: 0 <= i < |p.PostOf(roles, n)| ==>
                          var r := p.LinksOf(roles, n)[i].role; r in p.puks && p.PostOf(roles, n)[i] == p.NextPuk(r)
  {
    if n > 0 {
      PostedWithLinks(p, roles, n - 1);
      assert p.Current(roles[n - 1]).role == roles[n - 1];
    }
  }

  lemma {:induction false} LinksComplete(p: Rotation, roles: seq<RoleKey>, n: nat, k: nat)
    requires p.Loaded() && p.Knows(roles) && k < n <= |roles| && p.Rotates(roles[k])
    ensures HasLink(p.LinksOf(roles, n), roles[k])
  {
    var before, links := p.LinksOf(roles, n - 1), p.LinksOf(roles, n);
    if k < n - 1 {
      LinksComplete(p, roles, n - 1, k);
      var i :| 0 <= i < |before| && before[i].role == roles[k];
      assert links[i].role == roles[k];
    } else {
      assert p.Current(roles[k]).role == roles[k];
      assert links[|before|].role == roles[k];
    }
  }

  lemma {:induction false} NoneRotate(p: Rotation, roles: seq<RoleKey>, n: nat)
    requires p.selfRevoke && p.Knows(roles) && n <= |roles|
    ensures p.LinksOf(roles, n) == [] && p.PostOf(roles, n) == []
  {
    if n > 0 { NoneRotate(p, roles, n - 1); }
  }

  lemma RevocationDistributes(p: Rotation, roles: seq<RoleKey>, next: map<RoleKey, SharedKey>)
    requires p.Loaded() && ListsRoles(roles, p.puks) && p.Knows(roles)
    requires p.target.Some? && p.force.None? && !p.selfRevoke && p.targetRole == p.target.value.role
    requires next.Keys == p.puks.Keys && forall r :: r in p.puks ==> next[r] == p.NextPuk(r)
    ensures Distributed(p.target.value, p.puks, p.seed, next, p.LinksOf(roles, |roles|), p.PostOf(roles, |roles|))
  {
    var links := p.LinksOf(roles, |roles|);
    LinksSound(p, roles, |roles|);
    PostedWithLinks(p, roles, |roles|);
    forall r | r in p.puks && r.AtMost(p.target.value.role) ensures HasLink(links, r) {
      assert r in roles;
      var k :| 0 <= k < |roles| && roles[k] == r;
      LinksComplete(p, roles, |roles|, k);
    }
    forall i | 0 <= i < |links| ensures LinkOk(p, links[i]) {}
  }

  lemma AtMostOther(r: RoleKey, q: RoleKey)
    requires r.AtMost(q) && q != r
    ensures r.LessThan(q)
  {
  }

  lemma OneMoreBox(p: Rotation, me: nat, next: map<RoleKey, SharedKey>, done: set<RoleKey>, dev: Device,
                   made: seq<DeviceBox>, rk: RoleKey)
    requires BoxesFor(p, me, next, done, dev, made) && rk in next && rk !in done && next[rk].role == rk
    ensures BoxesFor(p, me, next, done + {rk}, dev,
                     if p.Boxed(dev, rk) then made + [DeviceBox(me, dev.id, next[rk])] else made)
  {
    if p.Boxed(dev, rk) {
      var made' := made + [DeviceBox(me, dev.id, next[rk])];
      assert made'[|made|].key.role == rk;
      forall r | r in next && r in done && p.Boxed(dev, r) ensures HasRole(made', r) {
        var i :| 0 <= i < |made| && made[i].key.role == r;
        assert made'[i].key.role == r;
      }
    }
  }

  // ---------------------------------------------------------------- what the server takes

  /** The server's check on a rotation: every box is one generation above what it has for the role. */
  ghost predicate ServerTakes(puks: map<RoleKey, seq<SharedKey>>, boxes: seq<seq<DeviceBox>>) {
    forall d, i :: 0 <= d < |boxes| && 0 <= i < |boxes[d]| ==>
                     boxes[d][i].key.role in puks && boxes[d][i].key.gen == |puks[boxes[d][i].key.role]| + 1
  }

  /**
   A forced rotation boxes every role, rotated or not, but the server only takes
   boxes of new generations: it goes through exactly when each role that some
   active device can read is being rotated. A revocation always does.
   */
  lemma RotationIsTakenIff(p: Rotation, me: nat, next: map<RoleKey, SharedKey>, active: seq<Device>,
                           boxes: seq<seq<DeviceBox>>)
    requires p.Loaded() && !p.selfRevoke && next.Keys == p.puks.Keys
    requires forall r :: r in p.puks ==> next[r] == p.NextPuk(r)
    requires |boxes| == |active|
    requires forall d :: 0 <= d < |active| ==> BoxesFor(p, me, next, next.Keys, active[d], boxes[d])
    ensures ServerTakes(p.puks, boxes) <==>
            forall d, r :: 0 <= d < |active| && r in p.puks && p.Boxed(active[d], r) ==> p.Rotates(r)
    ensures p.target.Some? && p.force.None? ==> ServerTakes(p.puks, boxes)
  {
    forall d, r | 0 <= d < |active| && r in p.puks && p.Boxed(active[d], r)
      ensures ServerTakes(p.puks, boxes) ==> p.Rotates(r)
    {
      assert HasRole(boxes[d], r);
      var i :| 0 <= i < |boxes[d]| && boxes[d][i].key.role == r;
      assert boxes[d][i].key == next[r];
    }
    forall d, i | 0 <= d < |boxes| && 0 <= i < |boxes[d]|
      ensures var r := boxes[d][i].key.role;
              r in p.puks && p.Boxed(active[d], r) && boxes[d][i].key.gen == |p.puks[r]| + if p.Rotates(r) then 1 else 0
    {
      var r := boxes[d][i].key.role;
      assert r in next && boxes[d][i] == DeviceBox(me, active[d].id, next[r]);
    }
  }

  /** Forcing the member key alone is refused: the owner device is also boxed its old owner key. */
  lemma MemberRotationIsRefused(owner: SharedKey, member: SharedKey, seed: RoleKey -> Seed)
    requires owner.role == OWNER_ROLE && owner.gen == 1 && member.role == MEMBER_ROLE && member.gen == 1
    ensures var p := Rotation(None, Some({MEMBER_ROLE}), MEMBER_ROLE, false,
                              map[OWNER_ROLE := [owner], MEMBER_ROLE := [member]], seed);
            var next := map[OWNER_ROLE := owner, MEMBER_ROLE := SharedKey(MEMBER_ROLE, 2, seed(MEMBER_ROLE))];
            var made := [DeviceBox(1, 1, next[MEMBER_ROLE]), DeviceBox(1, 1, next[OWNER_ROLE])];
            && p.Loaded() && next == (map r | r in p.puks :: p.NextPuk(r))
            && BoxesFor(p, 1, next, next.Keys, Device(1, OWNER_ROLE), made)
            && !ServerTakes(p.puks, [made])
  {
    var p := Rotation(None, Some({MEMBER_ROLE}), MEMBER_ROLE, false,
                      map[OWNER_ROLE := [owner], MEMBER_ROLE := [member]], seed);
    var next := map[OWNER_ROLE := owner, MEMBER_ROLE := SharedKey(MEMBER_ROLE, 2, seed(MEMBER_ROLE))];
    var made := [DeviceBox(1, 1, next[MEMBER_ROLE]), DeviceBox(1, 1, next[OWNER_ROLE])];
    assert p.Current(OWNER_ROLE) == owner && p.Current(MEMBER_ROLE) == member;
    assert made[0].key.role == MEMBER_ROLE && made[1].key.role == OWNER_ROLE;
    RotationIsTakenIff(p, 1, next, [Device(1, OWNER_ROLE)], [made]);
    assert [Device(1, OWNER_ROLE)][0] == Device(1, OWNER_ROLE) && !p.Rotates(OWNER_ROLE);
  }
}
