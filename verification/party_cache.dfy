/**
 Locking in the party cache (client/libclient/party_loader_cache.go). Threads look up,
 load and reload team nodes, taking up to four kinds of lock. A node lock is held
 across a network reload, and one team may be named in two ways, so nothing but the
 order of acquisition rules out a deadlock.
 */
module PartyCache {
  import opened Common

  datatype Lock =
    | Reload(node: nat)      // a node's generation-ahead reload mutex
    | Name(hash: nat)        // the lock table's entry for one way of naming a team
    | Node(node: nat)        // a node's read-write lock
    | Cache                  // the cache's own lock
    | Table                  // the lock table's inner mutex
  {
    function Rank(): (r: nat) {
      match this
      case Reload(_) => 0
      case Name(_) => 1
      case Node(_) => 2
      case Cache => 3
      case Table => 4
    }
  }

  datatype Mode = Read | Write
  datatype Instr = Acquire(lock: Lock, mode: Mode) | Release(lock: Lock) | Work

  // ------------------------------------------------------- what each operation does

  /** The cache is only ever held for one map access. */
  const PEEK: seq<Instr> := [Acquire(Cache, Write), Release(Cache)]

  function Lookup(node: nat, created: bool): (t: seq<Instr>) {
    PEEK + (if created then PEEK else []) + [Acquire(Node(node), Write)]
  }

  function NameLock(hash: nat): (t: seq<Instr>) {
    [Acquire(Table, Write), Release(Table), Acquire(Name(hash), Write)]
  }

  function NameUnlock(hash: nat): (t: seq<Instr>) {
    [Release(Name(hash)), Acquire(Table, Write), Release(Table)]
  }

  /** How a team load can go: the cached node if the name is known, and how far it gets. */
  datatype LoadPath =
    | Fresh(node: nat, created: bool)                  // known and fresh enough
    | Stale(node: nat, created: bool, failed: bool)    // known, reloaded while its lock is held
    | Unknown(node: nat, created: bool)                // loaded first, then its node found
    | LoadFailed                                       // unknown, and the load failed
    | Unresolved(loaded: bool)                         // no node can be found for the party named

  function Middle(p: LoadPath): (t: seq<Instr>) {
    match p
    case Fresh(n, created) => Lookup(n, created) + [Release(Node(n))]
    case Stale(n, created, failed) => Lookup(n, created) + [Work] + (if failed then [] else PEEK) + [Release(Node(n))]
    case Unknown(n, created) => [Work] + PEEK + Lookup(n, created) + [Release(Node(n))]
    case LoadFailed => [Work]
    case Unresolved(loaded) => if loaded then [Work] + PEEK else []
  }

  /** `loadTeam`, with deferred unlocks at the end. */
  function LoadTeam(hash: nat, p: LoadPath): (t: seq<Instr>) {
    NameLock(hash) + PEEK + Middle(p) + NameUnlock(hash)
  }

  function LoadUser(node: nat, created: bool): (t: seq<Instr>) {
    Lookup(node, created) + [Work, Release(Node(node))]
  }

  /** An accessor such as `SKM` or `configTeam`. */
  function ReadNode(node: nat): (t: seq<Instr>) {
    [Acquire(Node(node), Read), Release(Node(node))]
  }

  /** How a reload finds its team: by the hash of its name. */
  datatype Reloading = Reloading(hash: nat, path: LoadPath)

  /** `Refresh`: read how the team was named; unless it was not, expire the node and load it again. */
  function Refresh(node: nat, again: Option<Reloading>): (t: seq<Instr>) {
    ReadNode(node)
    + if again.None? then []
      else [Acquire(Node(node), Write), Release(Node(node))] + LoadTeam(again.value.hash, again.value.path)
  }

  /** How a key lookup can go. */
  datatype KeysPath =
    | Held                                             // nothing ahead of what the node has
    | Waited                                           // no longer ahead once the mutex is held, or too soon to reload
    | Reloaded(again: Option<Reloading>, ok: bool)     // reloaded; the keys are read again if that worked

  /** `PrivateKeysForRoleAtGen`. */
  function PrivateKeys(node: nat, p: KeysPath): (t: seq<Instr>) {
    ReadNode(node)
    + if p.Held? then []
      else [Acquire(Reload(node), Write)] + ReadNode(node) + ReloadPart(node, p) + [Release(Reload(node))]
  }

  function ReloadPart(node: nat, p: KeysPath): (t: seq<Instr>) {
    if p.Reloaded? then Refresh(node, p.again) + (if p.ok then ReadNode(node) else []) else []
  }

  datatype Op =
    | OpLoadUser(node: nat, created: bool)
    | OpLoadTeam(hash: nat, path: LoadPath)
    | OpRead(node: nat)
    | OpRefresh(node: nat, again: Option<Reloading>)
    | OpPrivateKeys(node: nat, keysPath: KeysPath)

  function Trace(op: Op): (t: seq<Instr>) {
    match op
    case OpLoadUser(n, c) => LoadUser(n, c)
    case OpLoadTeam(h, p) => LoadTeam(h, p)
    case OpRead(n) => ReadNode(n)
    case OpRefresh(n, again) => Refresh(n, again)
    case OpPrivateKeys(n, p) => PrivateKeys(n, p)
  }

  // ---------------------------------------------------------------------- the order

  /** Every acquisition is above all locks held. */
  predicate Above(held: set<Lock>, l: Lock) {
    l !in held && forall h :: h in held ==> h.Rank() < l.Rank()
  }

  /** The locks held after one instruction, if it respects the order and releases only what is held. */
  function Next(held: set<Lock>, i: Instr): (r: Option<set<Lock>>) {
    if i.Acquire? then if Above(held, i.lock) then Some(held + {i.lock}) else None
    else if i.Release? then if i.lock in held then Some(held - {i.lock}) else None
    else Some(held)
  }

  function After(held: set<Lock>, t: seq<Instr>): (r: Option<set<Lock>>)
    decreases |t|
  {
    if t == [] then Some(held)
    else
      var next := Next(held, t[0]);
      if next.None? then None else After(next.value, t[1..])
  }

  lemma {:induction false} AfterConcat(held: set<Lock>, a: seq<Instr>, b: seq<Instr>)
    requires After(held, a).Some?
    ensures After(held, a + b) == After(After(held, a).value, b)
    decreases |a|
  {
    if a == [] {
      assert a + b == b;
    } else {
      assert (a + b)[1..] == a[1..] + b;
      AfterConcat(Next(held, a[0]).value, a[1..], b);
    }
  }

  lemma Run1(held: set<Lock>, i: Instr)
    ensures After(held, [i]) == Next(held, i)
  {
    assert [i][1..] == [];
  }

  /** A lock taken and released again leaves things as they were. */
  lemma TakeAndGive(held: set<Lock>, l: Lock, m: Mode)
    requires Above(held, l)
    ensures After(held, [Acquire(l, m), Release(l)]) == Some(held)
  {
    Run1(held, Acquire(l, m));
    AfterConcat(held, [Acquire(l, m)], [Release(l)]);
    Run1(held + {l}, Release(l));
    assert [Acquire(l, m)] + [Release(l)] == [Acquire(l, m), Release(l)];
    assert held + {l} - {l} == held;
  }

  lemma LookupTakesNode(held: set<Lock>, node: nat, created: bool)
    requires Above(held, Cache) && Above(held, Node(node))
    ensures After(held, Lookup(node, created)) == Some(held + {Node(node)})
  {
    TakeAndGive(held, Cache, Write);
    var more := if created then PEEK else [];
    AfterConcat(held, PEEK, more);
    AfterConcat(held, PEEK + more, [Acquire(Node(node), Write)]);
    Run1(held, Acquire(Node(node), Write));
  }

  /** From the reload mutex up, a team load respects the order and lets everything go. */
  lemma LoadTeamIsOrdered(held: set<Lock>, hash: nat, p: LoadPath)
    requires forall h :: h in held ==> h.Rank() < 1
    ensures After(held, LoadTeam(hash, p)) == Some(held)
  {
    var named := held + {Name(hash)};
    NameLockTakes(held, hash);
    TakeAndGive(named, Cache, Write);
    AfterConcat(held, NameLock(hash), PEEK);
    var mid := Middle(p);
    MiddleIsOrdered(named, p);
    AfterConcat(held, NameLock(hash) + PEEK, mid);
    AfterConcat(held, NameLock(hash) + PEEK + mid, NameUnlock(hash));
    NameUnlockGives(held, hash);
  }

  lemma NameLockTakes(held: set<Lock>, hash: nat)
    requires forall h :: h in held ==> h.Rank() < 1
    ensures After(held, NameLock(hash)) == Some(held + {Name(hash)})
  {
    TakeAndGive(held, Table, Write);
    var take := [Acquire(Name(hash), Write)];
    AfterConcat(held, [Acquire(Table, Write), Release(Table)], take);
    Run1(held, Acquire(Name(hash), Write));
    assert NameLock(hash) == [Acquire(Table, Write), Release(Table)] + take;
  }

  lemma NameUnlockGives(held: set<Lock>, hash: nat)
    requires forall h :: h in held ==> h.Rank() < 1
    ensures After(held + {Name(hash)}, NameUnlock(hash)) == Some(held)
  {
    var give := [Release(Name(hash))];
    Run1(held + {Name(hash)}, Release(Name(hash)));
    assert held + {Name(hash)} - {Name(hash)} == held;
    TakeAndGive(held, Table, Write);
    AfterConcat(held + {Name(hash)}, give, [Acquire(Table, Write), Release(Table)]);
    assert NameUnlock(hash) == give + [Acquire(Table, Write), Release(Table)];
  }

  lemma NodeGiven(held: set<Lock>, n: nat)
    requires Node(n) !in held
    ensures After(held + {Node(n)}, [Release(Node(n))]) == Some(held)
  {
    Run1(held + {Node(n)}, Release(Node(n)));
    assert held + {Node(n)} - {Node(n)} == held;
  }

  lemma MiddleIsOrdered(held: set<Lock>, p: LoadPath)
    requires forall h :: h in held ==> h.Rank() < 2
    ensures After(held, Middle(p)) == Some(held)
  {
    Run1(held, Work);
    match p
    case Fresh(n, created) =>
      LookupTakesNode(held, n, created);
      AfterConcat(held, Lookup(n, created), [Release(Node(n))]);
      NodeGiven(held, n);
    case Stale(n, created, failed) =>
      var locked, look, peek := held + {Node(n)}, Lookup(n, created), if failed then [] else PEEK;
      LookupTakesNode(held, n, created);
      AfterConcat(held, look, [Work]);
      Run1(locked, Work);
      TakeAndGive(locked, Cache, Write);
      AfterConcat(held, look + [Work], peek);
      AfterConcat(held, look + [Work] + peek, [Release(Node(n))]);
      NodeGiven(held, n);
    case Unknown(n, created) =>
      TakeAndGive(held, Cache, Write);
      AfterConcat(held, [Work], PEEK);
      LookupTakesNode(held, n, created);
      AfterConcat(held, [Work] + PEEK, Lookup(n, created));
      AfterConcat(held, [Work] + PEEK + Lookup(n, created), [Release(Node(n))]);
      NodeGiven(held, n);
    case LoadFailed =>
    case Unresolved(loaded) =>
      TakeAndGive(held, Cache, Write);
      AfterConcat(held, [Work], PEEK);
  }

  lemma ReadIsOrdered(held: set<Lock>, n: nat)
    requires forall h :: h in held ==> h.Rank() < 2
    ensures After(held, ReadNode(n)) == Some(held)
  {
    TakeAndGive(held, Node(n), Read);
  }

  lemma RefreshIsOrdered(held: set<Lock>, n: nat, again: Option<Reloading>)
    requires forall h :: h in held ==> h.Rank() < 1
    ensures After(held, Refresh(n, again)) == Some(held)
  {
    ReadIsOrdered(held, n);
    if again.None? {
      AfterConcat(held, ReadNode(n), []);
    } else {
      var expire, load := [Acquire(Node(n), Write), Release(Node(n))], LoadTeam(again.value.hash, again.value.path);
      TakeAndGive(held, Node(n), Write);
      AfterConcat(held, expire, load);
      LoadTeamIsOrdered(held, again.value.hash, again.value.path);
      AfterConcat(held, ReadNode(n), expire + load);
    }
  }

  lemma ReloadPartIsOrdered(n: nat, p: KeysPath)
    ensures After({Reload(n)}, ReloadPart(n, p)) == Some({Reload(n)})
  {
    if p.Reloaded? {
      RefreshIsOrdered({Reload(n)}, n, p.again);
      ReadIsOrdered({Reload(n)}, n);
      AfterConcat({Reload(n)}, Refresh(n, p.again), if p.ok then ReadNode(n) else []);
    }
  }

  lemma PrivateKeysIsOrdered(n: nat, p: KeysPath)
    ensures After({}, PrivateKeys(n, p)) == Some({})
  {
    ReadIsOrdered({}, n);
    if p.Held? {
      AfterConcat({}, ReadNode(n), []);
    } else {
      var take, give, held, part := [Acquire(Reload(n), Write)], [Release(Reload(n))], {Reload(n)}, ReloadPart(n, p);
      Run1({}, take[0]);
      assert {} + {Reload(n)} == held;
      ReadIsOrdered(held, n);
      AfterConcat({}, take, ReadNode(n));
      ReloadPartIsOrdered(n, p);
      AfterConcat({}, take + ReadNode(n), part);
      AfterConcat({}, take + ReadNode(n) + part, give);
      Run1(held, give[0]);
      assert held - {Reload(n)} == {};
      AfterConcat({}, ReadNode(n), take + ReadNode(n) + part + give);
    }
  }

  /** Every operation, on every path through it, takes locks in order and keeps none. */
  lemma EveryOpIsOrdered(op: Op)
    ensures After({}, Trace(op)) == Some({})
  {
    match op
    case OpLoadUser(n, c) =>
      LookupTakesNode({}, n, c);
      var locked := {} + {Node(n)};
      AfterConcat({}, Lookup(n, c), [Work]);
      Run1(locked, Work);
      AfterConcat({}, Lookup(n, c) + [Work], [Release(Node(n))]);
      NodeGiven({}, n);
      assert Lookup(n, c) + [Work] + [Release(Node(n))] == LoadUser(n, c);
    case OpLoadTeam(h, p) => LoadTeamIsOrdered({}, h, p);
    case OpRead(n) => ReadIsOrdered({}, n);
    case OpRefresh(n, again) => RefreshIsOrdered({}, n, again);
    case OpPrivateKeys(n, p) => PrivateKeysIsOrdered(n, p);
  }

  // -------------------------------------------------------------------- the threads

  /** `announced`: a blocked writer has queued up, and new readers wait behind it. */
  datatype Thread = Thread(todo: seq<Instr>, held: map<Lock, Mode>, announced: bool)

  type State = seq<Thread>

  predicate WantsToWrite(t: Thread, l: Lock) {
    t.announced && t.todo != [] && t.todo[0] == Acquire(l, Write)
  }

  /** Thread `j` stands in the way of thread `i` taking `l`. */
  predicate InTheWay(s: State, j: nat, l: Lock, m: Mode)
    requires j < |s|
  {
    if m == Write then l in s[j].held else (l in s[j].held && s[j].held[l] == Write) || WantsToWrite(s[j], l)
  }

  predicate CanTake(s: State, i: nat, l: Lock, m: Mode)
    requires i < |s|
  {
    forall j :: 0 <= j < |s| && j != i ==> !InTheWay(s, j, l, m)
  }

  predicate CanAdvance(s: State, i: nat) {
    i < |s| && s[i].todo != [] && (s[i].todo[0].Acquire? ==> CanTake(s, i, s[i].todo[0].lock, s[i].todo[0].mode))
  }

  function Advanced(t: Thread): (t': Thread)
    requires t.todo != []
  {
    var i := t.todo[0];
    Thread(t.todo[1..],
           if i.Acquire? then t.held[i.lock := i.mode] else if i.Release? then t.held - {i.lock} else t.held, false)
  }

  datatype Step = Start(op: Op) | Announce(i: nat) | Advance(i: nat)

  predicate Enabled(s: State, a: Step) {
    match a
    case Start(_) => true
    case Announce(i) => i < |s| && s[i].todo != [] && s[i].todo[0].Acquire? && s[i].todo[0].mode == Write
    case Advance(i) => CanAdvance(s, i)
  }

  function Do(s: State, a: Step): (s': State)
    requires Enabled(s, a)
  {
    match a
    case Start(op) => s + [Thread(Trace(op), map[], false)]
    case Announce(i) => s[i := s[i].(announced := true)]
    case Advance(i) => s[i := Advanced(s[i])]
  }

  /** What a thread still has to do respects the order and leaves nothing held. */
  ghost predicate ThreadOk(t: Thread) { After(t.held.Keys, t.todo) == Some({}) }

  /** Two threads share a lock only for reading. */
  ghost predicate Exclusive(s: State) {
    forall i, j, l :: 0 <= i < j < |s| && l in s[i].held && l in s[j].held ==>
        s[i].held[l] == Read && s[j].held[l] == Read
  }

  ghost predicate Inv(s: State) { (forall i :: 0 <= i < |s| ==> ThreadOk(s[i])) && Exclusive(s) }

  lemma AdvancedIsOk(t: Thread)
    requires ThreadOk(t) && t.todo != []
    ensures ThreadOk(Advanced(t))
  {
    assert Advanced(t).held.Keys == Next(t.held.Keys, t.todo[0]).value;
  }

  lemma StepKeepsInv(s: State, a: Step)
    requires Inv(s) && Enabled(s, a)
    ensures Inv(Do(s, a))
  {
    match a
    case Start(op) =>
      EveryOpIsOrdered(op);
      var none: map<Lock, Mode> := map[];
      assert none.Keys == {};
    case Announce(i) =>
    case Advance(i) =>
      AdvancedIsOk(s[i]);
      AdvanceKeepsExclusive(s, i);
  }

  lemma AdvanceKeepsExclusive(s: State, i: nat)
    requires Exclusive(s) && CanAdvance(s, i) && ThreadOk(s[i])
    ensures Exclusive(s[i := Advanced(s[i])])
  {
    var s' := s[i := Advanced(s[i])];
    forall a, b, l | 0 <= a < b < |s'| && l in s'[a].held && l in s'[b].held
      ensures s'[a].held[l] == Read && s'[b].held[l] == Read
    {
      if a == i || b == i {
        var j := if a == i then b else a;
        if s[i].todo[0].Acquire? && s[i].todo[0].lock == l {
          WantedIsAbove(s[i]);
          assert !InTheWay(s, j, l, s[i].todo[0].mode);
        }
      }
    }
  }

  ghost predicate Run(ss: seq<State>, acts: seq<Step>) {
    && |ss| == |acts| + 1 && ss[0] == []
    && forall i {:trigger acts[i]} :: 0 <= i < |acts| ==> Enabled(ss[i], acts[i]) && ss[i + 1] == Do(ss[i], acts[i])
  }

  lemma {:induction false} RunKeepsInv(ss: seq<State>, acts: seq<Step>, n: nat)
    requires Run(ss, acts) && n < |ss|
    ensures Inv(ss[n])
  {
    if n > 0 {
      RunKeepsInv(ss, acts, n - 1);
      StepKeepsInv(ss[n - 1], acts[n - 1]);
    }
  }

  // -------------------------------------------------------------------- no deadlock

  ghost predicate Waits(s: State, i: nat, l: Lock) {
    i < |s| && s[i].todo != [] && s[i].todo[0].Acquire? && s[i].todo[0].lock == l && !CanAdvance(s, i)
  }

  lemma WantedIsAbove(t: Thread)
    requires ThreadOk(t) && t.todo != [] && t.todo[0].Acquire?
    ensures Above(t.held.Keys, t.todo[0].lock)
  {
  }

  /** Whoever waits for a lock waits, directly or behind a queued writer, for a thread that holds it. */
  lemma SomebodyHolds(s: State, i: nat, l: Lock) returns (j: nat)
    requires Inv(s) && Waits(s, i, l)
    ensures j < |s| && (CanAdvance(s, j) || l in s[j].held)
  {
    j :| 0 <= j < |s| && j != i && InTheWay(s, j, l, s[i].todo[0].mode);
    if l !in s[j].held && !CanAdvance(s, j) {
      var w := j;
      j :| 0 <= j < |s| && j != w && InTheWay(s, j, l, Write);
    }
  }

  /** Following holders upward through the ranks ends at a thread that can move. */
  lemma {:induction false} SomebodyCanMove(s: State, i: nat) returns (j: nat)
    requires Inv(s) && i < |s| && s[i].todo != []
    ensures CanAdvance(s, j)
    decreases if s[i].todo[0].Acquire? then 5 - s[i].todo[0].lock.Rank() else 0
  {
    if CanAdvance(s, i) {
      j := i;
    } else {
      var l := s[i].todo[0].lock;
      var h := SomebodyHolds(s, i, l);
      if CanAdvance(s, h) {
        j := h;
      } else {
        assert ThreadOk(s[h]) && s[h].todo != [];
        WantedIsAbove(s[h]);
        j := SomebodyCanMove(s, h);
      }
    }
  }

  /**
   No reachable state is stuck: however many operations run, on however many teams
   named in whatever ways, while one of them is unfinished some thread can go on.
   */
  lemma NeverStuck(ss: seq<State>, acts: seq<Step>, n: nat, i: nat)
    requires Run(ss, acts) && n < |ss| && i < |ss[n]| && ss[n][i].todo != []
    ensures exists j :: CanAdvance(ss[n], j)
  {
    RunKeepsInv(ss, acts, n);
    var j := SomebodyCanMove(ss[n], i);
  }

  /** No circular wait: a thread that waits never waits, over any chain of holders, for itself. */
  ghost predicate WaitChain(s: State, path: seq<nat>, locks: seq<Lock>) {
    && |path| == |locks| + 1 >= 2
    && forall k {:trigger locks[k]} :: 0 <= k < |locks| ==>
        Waits(s, path[k], locks[k]) && path[k + 1] < |s| && locks[k] in s[path[k + 1]].held
  }

  lemma {:induction false} ChainClimbs(s: State, path: seq<nat>, locks: seq<Lock>, k: nat)
    requires Inv(s) && WaitChain(s, path, locks) && 1 <= k < |locks|
    ensures locks[0].Rank() < locks[k].Rank()
  {
    var before := locks[k - 1];
    assert Waits(s, path[k], locks[k]) && before in s[path[k]].held;
    WantedIsAbove(s[path[k]]);
    if k > 1 { ChainClimbs(s, path, locks, k - 1); }
  }

  lemma NoCircularWait(ss: seq<State>, acts: seq<Step>, n: nat, path: seq<nat>, locks: seq<Lock>)
    requires Run(ss, acts) && n < |ss| && WaitChain(ss[n], path, locks)
    ensures path[0] != path[|path| - 1]
  {
    RunKeepsInv(ss, acts, n);
    var s, m := ss[n], |locks|;
    var last := locks[m - 1];
    assert Waits(s, path[0], locks[0]) && path[m] < |s| && last in s[path[m]].held;
    if path[0] == path[m] {
      WantedIsAbove(s[path[0]]);
      if m > 1 { ChainClimbs(s, path, locks, m - 1); }
    }
  }

  // ------------------------------------------------------------------ reload floor

  const RELOAD_FLOOR := 30_000_000_000    // nanoseconds

  /** The reload clock of one node. */
  class ReloadClock {
    var genAheadAt: Option<nat>

    constructor ()
      ensures genAheadAt == None
    {
      genAheadAt := None;
    }

    /** `claimGenAheadReloadLocked`: grants a reload unless one was granted less than the floor ago. */
    method Claim(now: nat) returns (ok: bool)
      modifies this
      ensures ok == Grants(old(genAheadAt), now)
      ensures genAheadAt == Granted(old(genAheadAt), now)
    {
      if genAheadAt.Some? && now - genAheadAt.value < RELOAD_FLOOR { return false; }
      genAheadAt := Some(now);
      return true;
    }
  }

  predicate Grants(last: Option<nat>, now: nat) { last.None? || now - last.value >= RELOAD_FLOOR }
  function Granted(last: Option<nat>, now: nat): (l: Option<nat>) { if Grants(last, now) then Some(now) else last }

  /** The clock's reading before claim `n` of a series of claims. */
  function LastGrant(times: seq<nat>, n: nat): (l: Option<nat>)
    requires n <= |times|
  {
    if n == 0 then None else Granted(LastGrant(times, n - 1), times[n - 1])
  }

  lemma {:induction false} LastGrantKnows(times: seq<nat>, i: nat, n: nat)
    requires i < n <= |times| && Grants(LastGrant(times, i), times[i])
    requires forall a, b :: 0 <= a <= b < |times| ==> times[a] <= times[b]
    ensures LastGrant(times, n).Some? && times[i] <= LastGrant(times, n).value
  {
    if i < n - 1 { LastGrantKnows(times, i, n - 1); }
  }

  /** On a clock that does not go back, two granted reloads of one node are at least the floor apart. */
  lemma ReloadsAreSpaced(times: seq<nat>, i: nat, j: nat)
    requires i < j < |times| && forall a, b :: 0 <= a <= b < |times| ==> times[a] <= times[b]
    requires Grants(LastGrant(times, i), times[i]) && Grants(LastGrant(times, j), times[j])
    ensures times[j] - times[i] >= RELOAD_FLOOR
  {
    LastGrantKnows(times, i, j);
  }
}
