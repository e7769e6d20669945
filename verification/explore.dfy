/**
 Concurrent exploration of the team graph (client/libclient/team_minder.go): a pool
 of at most `limit` loads walks outward from the user's teams. Each load needs the
 stored record of the team through which its node was discovered.

 Goroutines are workers that take one step at a time; which worker moves next is
 arbitrary at every turn, and so is what each load returns.
 */
module Explore {
  import opened Common

  type Team = nat

  /** `member` is the team on whose behalf this one is loaded, or the user if there is none. */
  datatype Node = Node(team: Team, srcRole: nat, member: Option<Team>)

  datatype ExploreError = TeamNotFound | LoadFailed(code: nat)

  /** What loading a team can come to. `kids` are the teams its membership chain names. */
  datatype Outcome =
    | PermissionDenied
    | Failed(code: nat)
    | Loaded(kids: seq<(Team, nat)>, update: bool, chainError: Option<nat>)

  datatype Worker =
    | Launched(node: Node)
    | Armed(node: Node)                                              // has the keys to load with
    | Finished(node: Node, found: seq<Node>, err: Option<ExploreError>)

  /** Everything the walk knows, as a value. `loads` and `received` only record what happened. */
  datatype View = View(
    teams: set<Team>, visited: set<Team>, edges: map<Team, seq<Team>>,
    queue: seq<Node>, inflight: seq<Worker>, firstErr: Option<ExploreError>, loads: seq<Team>, received: nat)

  function TeamsOf(nodes: seq<Node>): (ts: seq<Team>)
    ensures |ts| == |nodes| && forall i :: 0 <= i < |nodes| ==> ts[i] == nodes[i].team
  {
    seq(|nodes|, i requires 0 <= i < |nodes| => nodes[i].team)
  }

  function KidNodes(parent: Team, kids: seq<(Team, nat)>): (ns: seq<Node>)
    ensures |ns| == |kids| && forall i :: 0 <= i < |kids| ==> ns[i] == Node(kids[i].0, kids[i].1, Some(parent))
  {
    seq(|kids|, i requires 0 <= i < |kids| => Node(kids[i].0, kids[i].1, Some(parent)))
  }

  // ---------------------------------------------------------------- transitions

  function Dispatched(v: View): (v': View)
    requires v.queue != []
  {
    var n := v.queue[0];
    v.(queue := v.queue[1..], inflight := v.inflight + [Launched(n)], loads := v.loads + [n.team])
  }

  /** `loadTeamArg`: the worker looks up the record of the team it loads on behalf of. */
  function ArmedOr(w: Worker, teams: set<Team>): (w': Worker)
    requires w.Launched?
  {
    if w.node.member.Some? && w.node.member.value !in teams
    then Finished(w.node, [], Some(TeamNotFound))
    else Armed(w.node)
  }

  function Ended(w: Worker, o: Outcome): (w': Worker)
    requires w.Armed?
  {
    match o
    case PermissionDenied => Finished(w.node, [], None)
    case Failed(e) => Finished(w.node, [], Some(LoadFailed(e)))
    case Loaded(kids, _, chainError) =>
      if chainError.Some? then Finished(w.node, [], Some(LoadFailed(chainError.value)))
      else Finished(w.node, KidNodes(w.node.team, kids), None)
  }

  /** A worker's next step. A load that goes through stores its record before it reports. */
  function Stepped(v: View, i: nat, o: Outcome): (v': View)
    requires i < |v.inflight| && !v.inflight[i].Finished?
  {
    var w := v.inflight[i];
    if w.Launched? then v.(inflight := v.inflight[i := ArmedOr(w, v.teams)])
    else v.(inflight := v.inflight[i := Ended(w, o)], teams := if o.Loaded? then v.teams + {w.node.team} else v.teams)
  }

  /** Claims each newly found team once, in order, and queues it. */
  function Claimed(v: View, found: seq<Node>): (v': View)
    decreases |found|
  {
    if found == [] then v
    else
      var w, n := Claimed(v, found[..|found| - 1]), found[|found| - 1];
      if n.team in w.visited then w else w.(visited := w.visited + {n.team}, queue := w.queue + [n])
  }

  function Received(v: View, i: nat): (v': View)
    requires i < |v.inflight| && v.inflight[i].Finished?
  {
    var w := v.inflight[i];
    var v1 := v.(inflight := v.inflight[..i] + v.inflight[i + 1..], received := v.received + 1);
    if w.err.Some? then v1.(firstErr := if v.firstErr.None? then w.err else v.firstErr)
    else
      var v2 := Claimed(v1, w.found);
      v2.(edges := v2.edges[w.node.team := TeamsOf(w.found)])
  }

  // ------------------------------------------------------------------ invariant

  ghost predicate NodeOk(v: View, n: Node) {
    n.team in v.visited && (n.member.Some? ==> n.member.value in v.teams)
  }

  ghost predicate WorkerOk(v: View, world: set<Team>, w: Worker) {
    && NodeOk(v, w.node)
    && (w.Finished? ==>
          && w.err != Some(TeamNotFound)
          && forall i :: 0 <= i < |w.found| ==>
              w.found[i].member == Some(w.node.team) && w.node.team in v.teams && w.found[i].team in world)
  }

  /** A claimed team has its edges recorded, or still waits to be loaded, or is being loaded. */
  ghost predicate Accounted(v: View, t: Team) {
    || t in v.edges
    || (exists i :: 0 <= i < |v.queue| && v.queue[i].team == t)
    || (exists i :: 0 <= i < |v.inflight| && v.inflight[i].node.team == t)
  }

  /** Each seed is loaded as often as it is named, every other claimed team once. */
  ghost predicate LoadsOk(v: View, seeds: seq<Node>) {
    multiset(v.loads) + multiset(TeamsOf(v.queue)) == multiset(TeamsOf(seeds)) + multiset(v.visited - SeedTeams(seeds))
  }

  function SeedTeams(seeds: seq<Node>): (s: set<Team>) { set n | n in seeds :: n.team }

  ghost predicate EdgesOk(v: View) {
    forall t :: t in v.edges ==> t in v.visited && forall i :: 0 <= i < |v.edges[t]| ==> v.edges[t][i] in v.visited
  }

  ghost predicate WorkersOk(v: View, world: set<Team>) {
    forall i :: 0 <= i < |v.inflight| ==> WorkerOk(v, world, v.inflight[i])
  }

  ghost predicate Inv(v: View, seeds: seq<Node>, world: set<Team>, limit: nat) {
    && v.visited <= world && SeedTeams(seeds) <= v.visited
    && |v.inflight| <= limit && |v.loads| == v.received + |v.inflight|
    && (forall i :: 0 <= i < |v.queue| ==> NodeOk(v, v.queue[i]))
    && WorkersOk(v, world)
    && (v.firstErr.None? ==> forall t :: t in v.visited ==> Accounted(v, t))
    && EdgesOk(v)
    && v.firstErr != Some(TeamNotFound)
    && LoadsOk(v, seeds)
  }

  // --------------------------------------------------------- termination measure

  function Weight(w: Worker): (n: nat) { if w.Launched? then 3 else if w.Armed? then 2 else 1 }

  function Total(ws: seq<Worker>): (n: nat) {
    if ws == [] then 0 else Total(ws[..|ws| - 1]) + Weight(ws[|ws| - 1])
  }

  /** Unclaimed teams, queued nodes and steps left in flight. */
  function Work(v: View, world: set<Team>): (n: nat) {
    4 * |world - v.visited| + 4 * |v.queue| + Total(v.inflight)
  }

  lemma TotalSplit(a: seq<Worker>, b: seq<Worker>)
    ensures Total(a + b) == Total(a) + Total(b)
    decreases |b|
  {
    if b == [] {
      assert a + b == a;
    } else {
      TotalSplit(a, b[..|b| - 1]);
      assert (a + b)[..|a + b| - 1] == a + b[..|b| - 1];
    }
  }

  lemma TotalAt(ws: seq<Worker>, i: nat, w: Worker)
    requires i < |ws|
    ensures Total(ws[i := w]) == Total(ws) - Weight(ws[i]) + Weight(w)
    ensures Total(ws[..i] + ws[i + 1..]) == Total(ws) - Weight(ws[i])
  {
    var a, b := ws[..i], ws[i + 1..];
    assert ws == a + [ws[i]] + b && ws[i := w] == a + [w] + b;
    TotalSplit(a + [ws[i]], b);
    TotalSplit(a + [w], b);
    TotalSplit(a, b);
    assert (a + [ws[i]])[..|a|] == a && (a + [w])[..|a|] == a;
  }

  // ------------------------------------------------------ each transition keeps it

  lemma DispatchOk(v: View, seeds: seq<Node>, world: set<Team>, limit: nat)
    requires Inv(v, seeds, world, limit) && v.queue != [] && |v.inflight| < limit
    ensures Inv(Dispatched(v), seeds, world, limit) && Work(Dispatched(v), world) < Work(v, world)
  {
    DispatchLoads(v, seeds);
    DispatchWork(v, world);
    DispatchWorkers(v, world);
    forall t | v.firstErr.None? && t in v.visited ensures Accounted(Dispatched(v), t) {
      DispatchAccounts(v, t);
    }
  }

  lemma DispatchLoads(v: View, seeds: seq<Node>)
    requires LoadsOk(v, seeds) && v.queue != []
    ensures LoadsOk(Dispatched(v), seeds)
  {
    var t, rest := v.queue[0].team, TeamsOf(v.queue[1..]);
    assert TeamsOf(v.queue) == [t] + rest;
    assert multiset(v.loads + [t]) + multiset(rest) == multiset(v.loads) + multiset([t] + rest);
  }

  lemma DispatchWork(v: View, world: set<Team>)
    requires v.queue != []
    ensures Work(Dispatched(v), world) < Work(v, world)
  {
    TotalSplit(v.inflight, [Launched(v.queue[0])]);
    assert Total([Launched(v.queue[0])]) == 3;
  }

  lemma DispatchWorkers(v: View, world: set<Team>)
    requires WorkersOk(v, world) && v.queue != [] && NodeOk(v, v.queue[0])
    ensures WorkersOk(Dispatched(v), world)
  {
    var v' := Dispatched(v);
    forall i | 0 <= i < |v'.inflight| ensures WorkerOk(v', world, v'.inflight[i]) {
      if i < |v.inflight| { assert WorkerOk(v, world, v.inflight[i]); }
    }
  }

  lemma DispatchAccounts(v: View, t: Team)
    requires v.queue != [] && Accounted(v, t)
    ensures Accounted(Dispatched(v), t)
  {
    var v' := Dispatched(v);
    if i :| 0 <= i < |v.queue| && v.queue[i].team == t {
      if i == 0 { assert v'.inflight[|v.inflight|].node.team == t; } else { assert v'.queue[i - 1].team == t; }
    } else if i :| 0 <= i < |v.inflight| && v.inflight[i].node.team == t {
      assert v'.inflight[i].node.team == t;
    }
  }

  /** The record a worker asks for is there, so it is never told that its team was not found. */
  lemma StepOk(v: View, seeds: seq<Node>, world: set<Team>, limit: nat, i: nat, o: Outcome)
    requires Inv(v, seeds, world, limit) && i < |v.inflight| && !v.inflight[i].Finished?
    requires o.Loaded? ==> forall k :: 0 <= k < |o.kids| ==> o.kids[k].0 in world
    ensures Inv(Stepped(v, i, o), seeds, world, limit) && Work(Stepped(v, i, o), world) < Work(v, world)
  {
    StepWorkers(v, world, i, o);
    TotalAt(v.inflight, i, Stepped(v, i, o).inflight[i]);
    forall t | v.firstErr.None? && t in v.visited ensures Accounted(Stepped(v, i, o), t) {
      StepAccounts(v, i, o, t);
    }
  }

  lemma StepWorkers(v: View, world: set<Team>, i: nat, o: Outcome)
    requires WorkersOk(v, world) && i < |v.inflight| && !v.inflight[i].Finished?
    requires o.Loaded? ==> forall k :: 0 <= k < |o.kids| ==> o.kids[k].0 in world
    ensures WorkersOk(Stepped(v, i, o), world)
  {
    var v' := Stepped(v, i, o);
    forall j | 0 <= j < |v'.inflight| ensures WorkerOk(v', world, v'.inflight[j]) {
      if j == i { SteppedWorkerOk(v, world, i, o); } else { WorkerStaysOk(v, v', world, v.inflight[j]); }
    }
  }

  lemma WorkerStaysOk(v: View, v': View, world: set<Team>, w: Worker)
    requires WorkerOk(v, world, w) && v.visited <= v'.visited && v.teams <= v'.teams
    ensures WorkerOk(v', world, w)
  {
  }

  lemma SteppedWorkerOk(v: View, world: set<Team>, i: nat, o: Outcome)
    requires i < |v.inflight| && !v.inflight[i].Finished? && WorkerOk(v, world, v.inflight[i])
    requires o.Loaded? ==> forall k :: 0 <= k < |o.kids| ==> o.kids[k].0 in world
    ensures WorkerOk(Stepped(v, i, o), world, Stepped(v, i, o).inflight[i])
  {
  }

  lemma StepAccounts(v: View, i: nat, o: Outcome, t: Team)
    requires i < |v.inflight| && !v.inflight[i].Finished? && Accounted(v, t)
    ensures Accounted(Stepped(v, i, o), t)
  {
    if j :| 0 <= j < |v.inflight| && v.inflight[j].node.team == t {
      assert Stepped(v, i, o).inflight[j].node.team == t;
    }
  }

  /** Claiming keeps everything but the account of the team just received. */
  ghost predicate MidInv(v: View, seeds: seq<Node>, world: set<Team>, done: Team) {
    && v.visited <= world && SeedTeams(seeds) <= v.visited && done in v.visited
    && (forall i :: 0 <= i < |v.queue| ==> NodeOk(v, v.queue[i]))
    && (v.firstErr.None? ==> forall t :: t in v.visited && t != done ==> Accounted(v, t))
    && LoadsOk(v, seeds)
  }

  lemma ClaimOne(v: View, seeds: seq<Node>, world: set<Team>, done: Team, n: Node)
    requires MidInv(v, seeds, world, done) && n.team in world && n.team !in v.visited
    requires n.member.Some? ==> n.member.value in v.teams
    ensures var v' := v.(visited := v.visited + {n.team}, queue := v.queue + [n]);
            MidInv(v', seeds, world, done) && |world - v'.visited| == |world - v.visited| - 1
  {
    var v' := v.(visited := v.visited + {n.team}, queue := v.queue + [n]);
    assert world - v.visited == (world - v'.visited) + {n.team};
    ClaimLoads(v, seeds, n);
    forall t | v.firstErr.None? && t in v'.visited && t != done ensures Accounted(v', t) {
      if t == n.team {
        assert v'.queue[|v.queue|].team == t;
      } else {
        QueueGrows(v, v', n, t);
      }
    }
  }

  lemma ClaimLoads(v: View, seeds: seq<Node>, n: Node)
    requires LoadsOk(v, seeds) && n.team !in v.visited && SeedTeams(seeds) <= v.visited
    ensures LoadsOk(v.(visited := v.visited + {n.team}, queue := v.queue + [n]), seeds)
  {
    var v' := v.(visited := v.visited + {n.team}, queue := v.queue + [n]);
    var others, ts := v.visited - SeedTeams(seeds), TeamsOf(v.queue);
    assert n.team !in SeedTeams(seeds);
    assert v'.visited - SeedTeams(seeds) == others + {n.team};
    assert multiset(others + {n.team}) == multiset(others) + multiset{n.team};
    assert TeamsOf(v'.queue) == ts + [n.team];
    assert multiset(ts + [n.team]) == multiset(ts) + multiset{n.team};
    assert multiset(v.loads) + (multiset(ts) + multiset{n.team})
        == (multiset(v.loads) + multiset(ts)) + multiset{n.team};
    assert multiset(TeamsOf(seeds)) + (multiset(others) + multiset{n.team})
        == (multiset(TeamsOf(seeds)) + multiset(others)) + multiset{n.team};
  }

  lemma QueueGrows(v: View, v': View, n: Node, t: Team)
    requires v'.queue == v.queue + [n] && v'.edges == v.edges && v'.inflight == v.inflight && Accounted(v, t)
    ensures Accounted(v', t)
  {
    if i :| 0 <= i < |v.queue| && v.queue[i].team == t { assert v'.queue[i].team == t; }
  }

  /** Claiming touches only the claims and the queue, and claims everything found. */
  lemma {:induction false} ClaimsAllFound(v: View, found: seq<Node>)
    ensures var v' := Claimed(v, found);
            && v' == v.(visited := v'.visited, queue := v'.queue) && v.visited <= v'.visited
            && forall i :: 0 <= i < |found| ==> found[i].team in v'.visited
    decreases |found|
  {
    if found != [] {
      var k := |found| - 1;
      ClaimsAllFound(v, found[..k]);
      forall i | 0 <= i < |found| ensures found[i].team in Claimed(v, found).visited {
        if i < k { assert found[..k][i] == found[i]; }
      }
    }
  }

  ghost predicate Claimable(v: View, world: set<Team>, found: seq<Node>) {
    forall i :: 0 <= i < |found| ==>
                  found[i].team in world && (found[i].member.Some? ==> found[i].member.value in v.teams)
  }

  lemma {:induction false} ClaimAll(v: View, seeds: seq<Node>, world: set<Team>, done: Team, found: seq<Node>)
    requires MidInv(v, seeds, world, done) && Claimable(v, world, found)
    ensures var v' := Claimed(v, found);
            && MidInv(v', seeds, world, done)
            && |world - v'.visited| + |v'.queue| == |world - v.visited| + |v.queue|
    decreases |found|
  {
    if found != [] {
      var k := |found| - 1;
      ClaimAll(v, seeds, world, done, found[..k]);
      ClaimsAllFound(v, found[..k]);
      var w := Claimed(v, found[..k]);
      if found[k].team !in w.visited { ClaimOne(w, seeds, world, done, found[k]); }
    }
  }

  /** Taking a worker out only un-accounts for its own team. */
  lemma TakeOut(v: View, seeds: seq<Node>, world: set<Team>, limit: nat, i: nat)
    requires Inv(v, seeds, world, limit) && i < |v.inflight|
    ensures var v1 := v.(inflight := v.inflight[..i] + v.inflight[i + 1..], received := v.received + 1);
            MidInv(v1, seeds, world, v.inflight[i].node.team)
  {
    var v1 := v.(inflight := v.inflight[..i] + v.inflight[i + 1..], received := v.received + 1);
    assert WorkerOk(v, world, v.inflight[i]);
    forall t | v.firstErr.None? && t in v.visited && t != v.inflight[i].node.team ensures Accounted(v1, t) {
      assert Accounted(v, t);
      if j :| 0 <= j < |v.inflight| && v.inflight[j].node.team == t {
        assert v1.inflight[if j < i then j else j - 1].node.team == t;
      }
    }
  }

  lemma WorkersLeft(v: View, v': View, world: set<Team>, i: nat)
    requires WorkersOk(v, world) && i < |v.inflight| && v'.inflight == v.inflight[..i] + v.inflight[i + 1..]
    requires v.visited <= v'.visited && v'.teams == v.teams
    ensures WorkersOk(v', world)
  {
    forall j | 0 <= j < |v'.inflight| ensures WorkerOk(v', world, v'.inflight[j]) {
      assert WorkerOk(v, world, v.inflight[if j < i then j else j + 1]);
    }
  }

  lemma ReceiveErrorOk(v: View, seeds: seq<Node>, world: set<Team>, limit: nat, i: nat)
    requires Inv(v, seeds, world, limit) && i < |v.inflight| && v.inflight[i].Finished? && v.inflight[i].err.Some?
    ensures Inv(Received(v, i), seeds, world, limit) && Work(Received(v, i), world) < Work(v, world)
  {
    TotalAt(v.inflight, i, v.inflight[i]);
    assert WorkerOk(v, world, v.inflight[i]);
    WorkersLeft(v, Received(v, i), world, i);
  }

  lemma ReceiveFoundOk(v: View, seeds: seq<Node>, world: set<Team>, limit: nat, i: nat)
    requires Inv(v, seeds, world, limit) && i < |v.inflight| && v.inflight[i].Finished? && v.inflight[i].err.None?
    ensures Inv(Received(v, i), seeds, world, limit) && Work(Received(v, i), world) < Work(v, world)
  {
    var w := v.inflight[i];
    assert WorkerOk(v, world, w);
    var v1 := v.(inflight := v.inflight[..i] + v.inflight[i + 1..], received := v.received + 1);
    TakeOut(v, seeds, world, limit, i);
    ClaimAll(v1, seeds, world, w.node.team, w.found);
    ClaimsAllFound(v1, w.found);
    var v2 := Claimed(v1, w.found);
    assert EdgesOk(v2) by { assert EdgesOk(v); }
    RecordEdges(v2, seeds, world, w.node.team, TeamsOf(w.found));
    WorkersLeft(v, Received(v, i), world, i);
    TotalAt(v.inflight, i, w);
  }

  lemma ReceiveOk(v: View, seeds: seq<Node>, world: set<Team>, limit: nat, i: nat)
    requires Inv(v, seeds, world, limit) && i < |v.inflight| && v.inflight[i].Finished?
    ensures Inv(Received(v, i), seeds, world, limit) && Work(Received(v, i), world) < Work(v, world)
  {
    if v.inflight[i].err.Some? {
      ReceiveErrorOk(v, seeds, world, limit, i);
    } else {
      ReceiveFoundOk(v, seeds, world, limit, i);
    }
  }

  lemma RecordEdges(v: View, seeds: seq<Node>, world: set<Team>, done: Team, to: seq<Team>)
    requires MidInv(v, seeds, world, done) && EdgesOk(v) && forall i :: 0 <= i < |to| ==> to[i] in v.visited
    ensures var v' := v.(edges := v.edges[done := to]);
            MidInv(v', seeds, world, done) && EdgesOk(v') &&
            (v.firstErr.None? ==> forall t :: t in v.visited ==> Accounted(v', t))
  {
    var v' := v.(edges := v.edges[done := to]);
    forall t | v.firstErr.None? && t in v.visited ensures Accounted(v', t) {
      if t != done { assert Accounted(v, t); }
    }
  }

  lemma {:induction false} ClaimedKeeps(v: View, found: seq<Node>)
    ensures Claimed(v, found) == v.(visited := Claimed(v, found).visited, queue := Claimed(v, found).queue)
    decreases |found|
  {
    if found != [] { ClaimedKeeps(v, found[..|found| - 1]); }
  }

  lemma ClaimKeepsInflight(v: View, i: nat)
    requires i < |v.inflight| && v.inflight[i].Finished?
    ensures Received(v, i).inflight == v.inflight[..i] + v.inflight[i + 1..]
  {
    ClaimedKeeps(v.(inflight := v.inflight[..i] + v.inflight[i + 1..], received := v.received + 1),
                 v.inflight[i].found);
  }

  // ------------------------------------------------------ edges are what loads found

  type Server = (nat, Node) -> Outcome

  /** Some load of this team, at some time, named exactly these teams. */
  ghost predicate Genuine(server: Server, t: Team, to: seq<Team>) {
    exists now: nat, n: Node :: n.team == t && Names(server(now, n), to)
  }

  predicate Names(o: Outcome, to: seq<Team>) {
    || (o.PermissionDenied? && to == [])
    || (o.Loaded? && o.chainError.None? && |to| == |o.kids| && forall k :: 0 <= k < |to| ==> to[k] == o.kids[k].0)
  }

  /** The team was named by a load of a team that had been claimed itself. */
  ghost predicate Discovered(server: Server, visited: set<Team>, t: Team) {
    exists from, to :: from in visited && Genuine(server, from, to) && t in to
  }

  ghost predicate Faithful(v: View, server: Server, seeds: seq<Node>) {
    && (forall t :: t in v.edges ==> Genuine(server, t, v.edges[t]))
    && (forall i :: 0 <= i < |v.inflight| && v.inflight[i].Finished? && v.inflight[i].err.None? ==>
                      Genuine(server, v.inflight[i].node.team, TeamsOf(v.inflight[i].found)))
    && (forall t :: t in v.visited ==> t in SeedTeams(seeds) || Discovered(server, v.visited, t))
  }

  lemma StepFaithful(v: View, server: Server, seeds: seq<Node>, i: nat, now: nat)
    requires Faithful(v, server, seeds) && i < |v.inflight| && !v.inflight[i].Finished?
    ensures Faithful(Stepped(v, i, server(now, v.inflight[i].node)), server, seeds)
  {
    var n, o := v.inflight[i].node, server(now, v.inflight[i].node);
    if v.inflight[i].Armed? && Ended(v.inflight[i], o).err.None? {
      assert Names(o, TeamsOf(Ended(v.inflight[i], o).found));
    }
  }

  lemma {:induction false} ClaimedIsFound(v: View, found: seq<Node>, t: Team)
    requires t in Claimed(v, found).visited
    ensures t in v.visited || t in TeamsOf(found)
    decreases |found|
  {
    if found != [] {
      var k := |found| - 1;
      assert TeamsOf(found) == TeamsOf(found[..k]) + [found[k].team];
      if t != found[k].team { ClaimedIsFound(v, found[..k], t); }
    }
  }

  lemma {:induction false} ClaimedGrows(v: View, found: seq<Node>)
    ensures v.visited <= Claimed(v, found).visited
    decreases |found|
  {
    if found != [] { ClaimedGrows(v, found[..|found| - 1]); }
  }

  lemma ReceiveFaithful(v: View, server: Server, seeds: seq<Node>, i: nat)
    requires Faithful(v, server, seeds) && i < |v.inflight|
    requires v.inflight[i].Finished? && v.inflight[i].node.team in v.visited
    ensures Faithful(Received(v, i), server, seeds)
  {
    var w, v' := v.inflight[i], Received(v, i);
    var v1 := v.(inflight := v.inflight[..i] + v.inflight[i + 1..], received := v.received + 1);
    if w.err.None? {
      ClaimedKeeps(v1, w.found);
      ClaimedGrows(v1, w.found);
      forall t | t in v'.visited ensures t in SeedTeams(seeds) || Discovered(server, v'.visited, t) {
        ClaimedIsFound(v1, w.found, t);
        if t in v.visited && t !in SeedTeams(seeds) {
          var from, to :| from in v.visited && Genuine(server, from, to) && t in to;
        }
      }
    }
  }

  lemma DispatchFaithful(v: View, server: Server, seeds: seq<Node>)
    requires Faithful(v, server, seeds) && v.queue != []
    ensures Faithful(Dispatched(v), server, seeds)
  {
  }

  // ------------------------------------------------------------------- the classes

  /** The shared maps; every accessor runs under the state's mutex and is one atomic step. */
  class ExploreState {
    var teams: map<Team, nat>           // team records, by when they were stored
    var visited: set<Team>
    var warnings: set<Team>
    var updates: set<Team>
    var edges: map<Team, seq<Team>>

    constructor ()
      ensures teams == map[] && visited == {} && edges == map[]
    {
      teams, visited, warnings, updates, edges := map[], {}, {}, {}, map[];
    }

    /** Tells exactly one caller per team that it was the one to claim it. */
    method ClaimUnvisited(t: Team) returns (first: bool)
      modifies this`visited
      ensures first <==> t !in old(visited)
      ensures visited == old(visited) + {t}
    {
      first := t !in visited;
      visited := visited + {t};
    }

    method SetEdges(from: Team, to: seq<Team>)
      modifies this`edges
      ensures edges == old(edges)[from := to]
    {
      edges := edges[from := to];
    }
  }

  class Pool {
    const state: ExploreState
    var queue: seq<Node>
    var inflight: seq<Worker>
    var outstanding: nat
    var firstErr: Option<ExploreError>
    ghost var loads: seq<Team>
    ghost var received: nat

    ghost function Seen(): (v: View)
      reads this, state
    {
      View(state.teams.Keys, state.visited, state.edges, queue, inflight, firstErr, loads, received)
    }

    ghost predicate Valid(seeds: seq<Node>, world: set<Team>, limit: nat, server: Server)
      reads this, state
    {
      outstanding == |inflight| && Inv(Seen(), seeds, world, limit) && Faithful(Seen(), server, seeds)
    }

    constructor (state: ExploreState, queue: seq<Node>)
      ensures this.state == state && this.queue == queue && inflight == [] && outstanding == 0
      ensures firstErr == None && loads == [] && received == 0
    {
      this.state, this.queue, this.inflight, outstanding, firstErr := state, queue, [], 0, None;
      loads, received := [], 0;
    }

    /** Launches a load for the front of the queue. */
    method Dispatch(ghost seeds: seq<Node>, ghost world: set<Team>, limit: nat, ghost server: Server)
      requires Valid(seeds, world, limit, server) && queue != [] && outstanding < limit
      modifies this`queue, this`inflight, this`outstanding, this`loads
      ensures Valid(seeds, world, limit, server) && Seen() == Dispatched(old(Seen()))
      ensures Work(Seen(), world) < Work(old(Seen()), world)
    {
      DispatchOk(Seen(), seeds, world, limit);
      DispatchFaithful(Seen(), server, seeds);
      var node := queue[0];
      queue := queue[1..];
      outstanding := outstanding + 1;
      inflight := inflight + [Launched(node)];
      loads := loads + [node.team];
    }

    method MoveWorker(i: nat, now: nat, server: Server)
      requires i < |inflight| && !inflight[i].Finished?
      modifies this`inflight, state`teams, state`warnings, state`updates
      ensures Seen() == Stepped(old(Seen()), i, server(now, old(inflight)[i].node)) && |inflight| == |old(inflight)|
    {
      var w := inflight[i];
      if w.Launched? {
        inflight := inflight[i := ArmedOr(w, state.teams.Keys)];
      } else {
        var o := server(now, w.node);
        if o.PermissionDenied? { state.warnings := state.warnings + {w.node.team}; }
        if o.Loaded? {
          if o.update { state.updates := state.updates + {w.node.team}; }
          state.teams := state.teams[w.node.team := now];
        }
        inflight := inflight[i := Ended(w, o)];
      }
      assert Seen() == Stepped(old(Seen()), i, server(now, w.node));
    }

    /** Some worker that has not finished takes its next step. */
    method StepWorker(i: nat, now: nat, ghost seeds: seq<Node>, ghost world: set<Team>, limit: nat, server: Server)
      requires Valid(seeds, world, limit, server) && i < |inflight| && !inflight[i].Finished?
      requires var o := server(now, inflight[i].node);
               o.Loaded? ==> forall k :: 0 <= k < |o.kids| ==> o.kids[k].0 in world
      modifies this`inflight, state`teams, state`warnings, state`updates
      ensures Valid(seeds, world, limit, server)
      ensures Seen() == Stepped(old(Seen()), i, server(now, old(inflight)[i].node))
      ensures Work(Seen(), world) < Work(old(Seen()), world)
    {
      StepOk(Seen(), seeds, world, limit, i, server(now, inflight[i].node));
      StepFaithful(Seen(), server, seeds, i, now);
      MoveWorker(i, now, server);
    }

    /** Goes through what a load found: queues the teams it is first to claim, and lists them all as edges. */
    method ClaimFound(found: seq<Node>) returns (edges: seq<Team>)
      modifies this`queue, state`visited
      ensures edges == TeamsOf(found) && Seen() == Claimed(old(Seen()), found)
    {
      edges := [];
      for k := 0 to |found|
        invariant edges == TeamsOf(found[..k]) && Seen() == Claimed(old(Seen()), found[..k])
      {
        assert found[..k + 1][..k] == found[..k];
        edges := edges + [found[k].team];
        var first := state.ClaimUnvisited(found[k].team);
        if first { queue := queue + [found[k]]; }
      }
      assert found[..|found|] == found;
    }

    /** Takes one finished result: records its edges and queues what it was first to find. */
    method TakeResult(i: nat)
      requires i < |inflight| == outstanding && inflight[i].Finished?
      modifies this, state`visited, state`edges
      ensures Seen() == Received(old(Seen()), i) && outstanding == |inflight|
    {
      ClaimKeepsInflight(Seen(), i);
      var res := inflight[i];
      outstanding := outstanding - 1;
      inflight := inflight[..i] + inflight[i + 1..];
      received := received + 1;
      if res.err.Some? {
        if firstErr.None? { firstErr := res.err; }
      } else {
        var edges := ClaimFound(res.found);
        state.SetEdges(res.node.team, edges);
      }
    }

    method ReceiveResult(i: nat, ghost seeds: seq<Node>, ghost world: set<Team>, limit: nat, ghost server: Server)
      requires Valid(seeds, world, limit, server) && i < |inflight| && inflight[i].Finished?
      modifies this, state`visited, state`edges
      ensures Valid(seeds, world, limit, server) && Seen() == Received(old(Seen()), i)
      ensures Work(Seen(), world) < Work(old(Seen()), world)
    {
      ReceiveOk(Seen(), seeds, world, limit, i);
      ReceiveFaithful(Seen(), server, seeds, i);
      TakeResult(i);
    }
  }

  /** Everything the walk promises when it returns. */
  ghost predicate Promised(v: View, seeds: seq<Node>) {
    // every launched load has reported back
    && v.inflight == [] && |v.loads| == v.received
    // no load was ever refused for lack of its member team's record
    && v.firstErr != Some(TeamNotFound)
    && SeedTeams(seeds) <= v.visited
    && (v.firstErr.None? ==>
          // every claimed team is a vertex, every edge leads to one
          && v.visited == v.edges.Keys
          && (forall t :: t in v.edges ==> forall i :: 0 <= i < |v.edges[t]| ==> v.edges[t][i] in v.edges)
          // seeds are loaded as often as named, other teams once
          && multiset(v.loads) == multiset(TeamsOf(seeds)) + multiset(v.visited - SeedTeams(seeds)))
  }

  lemma EndIsPromised(v: View, seeds: seq<Node>, world: set<Team>, limit: nat)
    requires Inv(v, seeds, world, limit) && v.inflight == [] && (v.firstErr.Some? || v.queue == [])
    ensures Promised(v, seeds)
  {
    if v.firstErr.None? {
      assert TeamsOf(v.queue) == [];
      forall t | t in v.visited ensures t in v.edges { assert Accounted(v, t); }
      assert v.visited == v.edges.Keys;
    }
  }

  lemma StartIsOk(v: View, seeds: seq<Node>, world: set<Team>, limit: nat)
    requires v == View({}, SeedTeams(seeds), map[], seeds, [], None, [], 0)
    requires SeedTeams(seeds) <= world && forall i :: 0 <= i < |seeds| ==> seeds[i].member.None?
    ensures Inv(v, seeds, world, limit)
  {
    assert v.visited - SeedTeams(seeds) == {};
    assert multiset(v.loads) + multiset(TeamsOf(v.queue)) == multiset(TeamsOf(seeds));
    forall t | t in v.visited ensures Accounted(v, t) {
      var n :| n in seeds && n.team == t;
      var i :| 0 <= i < |seeds| && seeds[i] == n;
      assert v.queue[i].team == t;
    }
  }

  /** Claims every seed, named twice or not. */
  method ClaimSeeds(state: ExploreState, seeds: seq<Node>)
    requires state.visited == {}
    modifies state`visited
    ensures state.visited == SeedTeams(seeds)
  {
    for i := 0 to |seeds|
      invariant state.visited == SeedTeams(seeds[..i])
    {
      var first := state.ClaimUnvisited(seeds[i].team);
      assert seeds[..i + 1] == seeds[..i] + [seeds[i]];
    }
    assert seeds[..|seeds|] == seeds;
  }

  /**
   The walk itself. `server` and `pick` stand for the server and the scheduler; the
   teams that loads can name form a finite set. Concurrency is the configured value,
   at least 1, and `peak` is the most loads ever outstanding.
   */
  method ExplorePool(state: ExploreState, seeds: seq<Node>, configured: nat, server: Server,
                     pick: (nat, nat) -> nat, ghost world: set<Team>)
    returns (err: Option<ExploreError>, peak: nat, ghost end: View)
    requires state.teams == map[] && state.visited == {} && state.edges == map[]
    requires SeedTeams(seeds) <= world && forall i :: 0 <= i < |seeds| ==> seeds[i].member.None?
    requires forall now: nat, n: Node, k ::
               server(now, n).Loaded? && 0 <= k < |server(now, n).kids| ==> server(now, n).kids[k].0 in world
    modifies state
    ensures Promised(end, seeds) && end.visited == state.visited && end.edges == state.edges && err == end.firstErr
    ensures Faithful(end, server, seeds)
    ensures peak <= if configured < 1 then 1 else configured
  {
    var limit := if configured < 1 then 1 else configured;
    ClaimSeeds(state, seeds);
    var pool := new Pool(state, seeds);
    StartIsOk(pool.Seen(), seeds, world, limit);
    var now := 0;
    peak := 0;
    while pool.outstanding > 0 || (pool.firstErr.None? && |pool.queue| > 0)
      invariant pool.Valid(seeds, world, limit, server) && pool.state == state && peak <= limit
      decreases Work(pool.Seen(), world)
    {
      ghost var before := Work(pool.Seen(), world);
      while pool.firstErr.None? && pool.outstanding < limit && |pool.queue| > 0
        invariant pool.Valid(seeds, world, limit, server) && pool.state == state && peak <= limit
        invariant pool.outstanding > 0 || (pool.firstErr.None? && |pool.queue| > 0)
        invariant Work(pool.Seen(), world) <= before
        decreases Work(pool.Seen(), world)
      {
        pool.Dispatch(seeds, world, limit, server);
        if pool.outstanding > peak { peak := pool.outstanding; }
      }
      // Workers move in any order until one that has finished is picked.
      var i := pick(now, pool.outstanding) % pool.outstanding;
      while !pool.inflight[i].Finished?
        invariant pool.Valid(seeds, world, limit, server) && pool.state == state && 0 <= i < pool.outstanding
        invariant Work(pool.Seen(), world) <= before
        decreases Work(pool.Seen(), world)
      {
        pool.StepWorker(i, now, seeds, world, limit, server);
        now := now + 1;
        i := pick(now, pool.outstanding) % pool.outstanding;
      }
      pool.ReceiveResult(i, seeds, world, limit, server);
      now := now + 1;
    }
    end := pool.Seen();
    EndIsPromised(end, seeds, world, limit);
    return pool.firstErr, peak, end;
  }
}
