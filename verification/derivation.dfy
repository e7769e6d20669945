/**
 What can be worked out from boxed keys and seed chains. Whoever holds a key can open
 the chain links sealed under it, of any role, and go on from there.
 */
module Derivation {
  import opened Common
  import opened Roles
  import opened SeedChains

  type RoleStates = map<RoleKey, RoleState>

  ghost predicate StatesOk(roles: RoleStates) {
    forall r :: r in roles ==> roles[r].Ok(r)
  }

  ghost predicate SeedAt(roles: RoleStates, r: RoleKey, i: int, seed: Seed) {
    r in roles && 0 <= i < |roles[r].keys| && roles[r].keys[i].seed == seed
  }

  /** No two keys share a seed. */
  ghost predicate SeedsDistinct(roles: RoleStates) {
    forall seed, r1, i1, r2, i2 :: SeedAt(roles, r1, i1, seed) && SeedAt(roles, r2, i2, seed) ==> r1 == r2 && i1 == i2
  }

  /** New seeds are random, so no two agree and none was used before. */
  ghost predicate FreshSeeds(roles: RoleStates, seed: RoleKey -> Seed) {
    && (forall r1, r2 :: seed(r1) == seed(r2) ==> r1 == r2)
    && (forall r, r', i :: r' in roles && 0 <= i < |roles[r'].keys| ==> roles[r'].keys[i].seed != seed(r))
  }

  /** Each key after is the one before at its place, or a new one from a fresh seed on top. */
  ghost predicate GrownAt(before: RoleStates, after: RoleStates, seed: RoleKey -> Seed, r: RoleKey, i: int)
    requires r in after && 0 <= i < |after[r].keys|
  {
    if r in before && i < |before[r].keys| then after[r].keys[i] == before[r].keys[i]
    else after[r].keys[i].seed == seed(r) && i == if r in before then |before[r].keys| else 0
  }

  lemma SeedsStayDistinct(before: RoleStates, after: RoleStates, seed: RoleKey -> Seed)
    requires SeedsDistinct(before) && FreshSeeds(before, seed)
    requires forall r, i :: r in after && 0 <= i < |after[r].keys| ==> GrownAt(before, after, seed, r, i)
    ensures SeedsDistinct(after)
  {
    forall s, r1, i1, r2, i2 | SeedAt(after, r1, i1, s) && SeedAt(after, r2, i2, s) ensures r1 == r2 && i1 == i2 {
      assert GrownAt(before, after, seed, r1, i1) && GrownAt(before, after, seed, r2, i2);
      assert r1 in before && i1 < |before[r1].keys| ==> SeedAt(before, r1, i1, s);
      assert r2 in before && i2 < |before[r2].keys| ==> SeedAt(before, r2, i2, s);
    }
  }

  /** Some chain link opens under `prev` and holds `k`. */
  ghost predicate LinkOpens(roles: RoleStates, prev: SharedKey, k: SharedKey) {
    exists r, i :: r in roles && 0 <= i < |roles[r].chain|
                   && OpenSecretBox(roles[r].chain[i].box, BoxKeyOf(prev.seed)) == Ok(k)
  }

  /** What can be worked out from these boxed keys and all chain links, in `n` openings. */
  ghost predicate Derives(roles: RoleStates, boxed: set<SharedKey>, k: SharedKey, n: nat)
    decreases n
  {
    if n == 0 then k in boxed else exists prev :: Derives(roles, boxed, prev, n - 1) && LinkOpens(roles, prev, k)
  }

  ghost predicate Derivable(roles: RoleStates, boxed: set<SharedKey>, k: SharedKey) {
    exists n :: Derives(roles, boxed, k, n)
  }

  /** A key really made, at its place in its role's history. */
  ghost predicate RealKey(roles: RoleStates, k: SharedKey) {
    k.role in roles && 1 <= k.gen <= |roles[k.role].keys| && roles[k.role].keys[k.gen - 1] == k
  }

  ghost predicate AllReal(roles: RoleStates, boxed: set<SharedKey>) {
    forall b :: b in boxed ==> RealKey(roles, b)
  }

  /** Some boxed key is of the same role and at least this generation. */
  ghost predicate Below(boxed: set<SharedKey>, k: SharedKey) {
    exists b :: b in boxed && b.role == k.role && k.gen <= b.gen
  }

  lemma LinkIsSealed(r: RoleKey, st: RoleState, i: nat, prev: SharedKey, k: SharedKey)
    requires st.Ok(r) && i < |st.chain| && OpenSecretBox(st.chain[i].box, BoxKeyOf(prev.seed)) == Ok(k)
    ensures i + 1 < |st.keys| && st.keys[i] == k && st.keys[i + 1].seed == prev.seed && k.role == r && k.gen == i + 1
  {
    ChainOfLength(st.keys, |st.keys|);
    assert st.chain[i] == SealPrevious(st.keys[i], st.keys[i + 1]);
  }

  /** A real key opens one link only, the one just below it. */
  lemma LinkOpensOneDown(roles: RoleStates, prev: SharedKey, k: SharedKey)
    requires StatesOk(roles) && SeedsDistinct(roles) && RealKey(roles, prev) && LinkOpens(roles, prev, k)
    ensures k.role == prev.role && k.gen == prev.gen - 1 && RealKey(roles, k)
  {
    var r, i :| r in roles && 0 <= i < |roles[r].chain|
                && OpenSecretBox(roles[r].chain[i].box, BoxKeyOf(prev.seed)) == Ok(k);
    LinkIsSealed(r, roles[r], i, prev, k);
    assert SeedAt(roles, r, i + 1, prev.seed) && SeedAt(roles, prev.role, prev.gen - 1, prev.seed);
  }

  /** Opening links never leaves the keys below a boxed one. */
  lemma {:induction false} DerivedIsBelow(roles: RoleStates, boxed: set<SharedKey>, k: SharedKey, n: nat)
    requires StatesOk(roles) && SeedsDistinct(roles) && AllReal(roles, boxed) && Derives(roles, boxed, k, n)
    ensures RealKey(roles, k) && Below(boxed, k)
    decreases n
  {
    if n > 0 {
      var prev :| Derives(roles, boxed, prev, n - 1) && LinkOpens(roles, prev, k);
      DerivedIsBelow(roles, boxed, prev, n - 1);
      LinkOpensOneDown(roles, prev, k);
    }
  }

  lemma LinkBelowOpens(roles: RoleStates, r: RoleKey, g: nat)
    requires StatesOk(roles) && r in roles && 1 <= g < |roles[r].keys|
    ensures LinkOpens(roles, roles[r].keys[g], roles[r].keys[g - 1])
  {
    var keys := roles[r].keys;
    ChainOfLength(keys, |keys|);
    assert OpenSecretBox(roles[r].chain[g - 1].box, BoxKeyOf(keys[g].seed)) == Ok(keys[g - 1]);
  }

  /** Everything below a boxed key is derived by opening one link after another. */
  lemma {:induction false} BelowIsDerived(roles: RoleStates, boxed: set<SharedKey>, b: SharedKey, g: nat)
    requires StatesOk(roles) && b in boxed && RealKey(roles, b) && 1 <= g <= b.gen
    ensures Derives(roles, boxed, roles[b.role].keys[g - 1], b.gen - g)
    decreases b.gen - g
  {
    if g < b.gen {
      BelowIsDerived(roles, boxed, b, g + 1);
      LinkBelowOpens(roles, b.role, g);
    }
  }

  /** From real keys, exactly the real keys at or below a boxed one can be worked out. */
  lemma DerivableIff(roles: RoleStates, boxed: set<SharedKey>, k: SharedKey)
    requires StatesOk(roles) && SeedsDistinct(roles) && AllReal(roles, boxed)
    ensures Derivable(roles, boxed, k) <==> RealKey(roles, k) && Below(boxed, k)
  {
    if n :| Derives(roles, boxed, k, n) {
      DerivedIsBelow(roles, boxed, k, n);
    }
    if RealKey(roles, k) && Below(boxed, k) {
      var b :| b in boxed && b.role == k.role && k.gen <= b.gen;
      BelowIsDerived(roles, boxed, b, k.gen);
      assert Derives(roles, boxed, k, b.gen - k.gen);
    }
  }
}
