/**
 Incremental loading of a side chain (client/libclient/chain_loader.go), with the
 team-membership chain (client/libclient/team_membership_loader.go) as its engine.
 A load starts from the state saved by the last one, checks and plays only the
 links after it, and saves the result.
 */
module GenericChain {
  import opened Common
  import opened Roles
  import opened Merkle
  import opened ChainLoad

  datatype FQTeam = FQTeam(host: nat, team: nat) {
    predicate AtMost(other: FQTeam) { host < other.host || (host == other.host && team <= other.team) }
  }

  /** What one membership link says about one team at one source role. */
  datatype Membership = Membership(team: FQTeam, srcRole: RoleKey, state: nat)

  datatype MemberKey = MemberKey(team: FQTeam, srcRole: RoleKey)

  type Data = map<MemberKey, Membership>

  datatype Payload = TeamMembership(m: Membership) | OtherPayload
  datatype SavedPayload = SavedTeams(teams: seq<Membership>) | OtherSaved

  /** What is kept on disk between loads. */
  datatype ChainState = ChainState(lastHash: LinkHash, tail: Link, payload: SavedPayload)

  // ------------------------------------------------------------------- the engine

  function KeyOf(m: Membership): (k: MemberKey) { MemberKey(m.team, m.srcRole) }

  /** Roles are checked when a key is made from a link. */
  function Record(data: Data, m: Membership): (r: Option<Data>) {
    if m.srcRole.Valid() then Some(data[KeyOf(m) := m]) else None
  }

  /** The effect of one link on the membership map. */
  function Play(data: Data, g: Payload): (r: Option<Data>) {
    if g.TeamMembership? then Record(data, g.m) else None
  }

  function FromList(teams: seq<Membership>): (r: Option<Data>)
    decreases |teams|
  {
    if teams == [] then Some(map[])
    else
      var rest := FromList(teams[..|teams| - 1]);
      if rest.None? then None else Record(rest.value, teams[|teams| - 1])
  }

  /** Every entry sits under its own key: true of whatever links were played. */
  ghost predicate Keyed(data: Data) {
    forall k :: k in data ==> KeyOf(data[k]) == k && k.srcRole.Valid()
  }

  predicate SortedByTeam(teams: seq<Membership>) {
    forall i, j :: 0 <= i < j < |teams| ==> teams[i].team.AtMost(teams[j].team)
  }

  ghost predicate DistinctKeys(teams: seq<Membership>) {
    forall i, j :: 0 <= i < j < |teams| ==> KeyOf(teams[i]) != KeyOf(teams[j])
  }

  ghost predicate AllIn(teams: seq<Membership>, data: Data) {
    forall i :: 0 <= i < |teams| ==> KeyOf(teams[i]) in data && data[KeyOf(teams[i])] == teams[i]
  }

  ghost predicate Covers(teams: seq<Membership>, data: Data) {
    forall k :: k in data ==> data[k] in teams
  }

  /** The list holds every entry once, sorted by team; the order within a team is left open. */
  ghost predicate Lists(teams: seq<Membership>, data: Data) {
    SortedByTeam(teams) && DistinctKeys(teams) && AllIn(teams, data) && Covers(teams, data)
  }

  /** Where a new entry goes in a sorted list. */
  function Place(teams: seq<Membership>, m: Membership): (i: nat)
    requires SortedByTeam(teams)
    ensures i <= |teams|
    ensures forall j :: 0 <= j < i ==> teams[j].team.AtMost(m.team)
    ensures forall j :: i <= j < |teams| ==> m.team.AtMost(teams[j].team)
    decreases |teams|
  {
    if teams == [] || teams[|teams| - 1].team.AtMost(m.team) then |teams| else Place(teams[..|teams| - 1], m)
  }

  function Insert(teams: seq<Membership>, m: Membership): (r: seq<Membership>)
    requires SortedByTeam(teams)
  {
    InsertAt(teams, m, Place(teams, m))
  }

  function InsertAt(teams: seq<Membership>, m: Membership, i: nat): (r: seq<Membership>)
    requires i <= |teams|
    ensures |r| == |teams| + 1
    ensures forall j :: 0 <= j < |r| ==> r[j] == if j < i then teams[j] else if j == i then m else teams[j - 1]
  {
    teams[..i] + [m] + teams[i..]
  }

  lemma InsertSorts(teams: seq<Membership>, m: Membership, i: nat)
    requires SortedByTeam(teams) && i <= |teams|
    requires forall j :: 0 <= j < i ==> teams[j].team.AtMost(m.team)
    requires forall j :: i <= j < |teams| ==> m.team.AtMost(teams[j].team)
    ensures SortedByTeam(InsertAt(teams, m, i))
  {
  }

  lemma InsertDistinct(teams: seq<Membership>, m: Membership, i: nat, done: Data)
    requires DistinctKeys(teams) && AllIn(teams, done) && KeyOf(m) !in done && i <= |teams|
    ensures DistinctKeys(InsertAt(teams, m, i))
  {
  }

  lemma InsertCovers(teams: seq<Membership>, m: Membership, i: nat, done: Data)
    requires Covers(teams, done) && i <= |teams|
    ensures Covers(InsertAt(teams, m, i), done[KeyOf(m) := m])
  {
    var r, done' := InsertAt(teams, m, i), done[KeyOf(m) := m];
    forall k | k in done' ensures done'[k] in r {
      if k == KeyOf(m) {
        assert r[i] == m;
      } else {
        var j :| 0 <= j < |teams| && teams[j] == done[k];
        assert r[if j < i then j else j + 1] == done'[k];
      }
    }
  }

  lemma InsertLists(teams: seq<Membership>, done: Data, m: Membership)
    requires Lists(teams, done) && KeyOf(m) !in done
    ensures Lists(Insert(teams, m), done[KeyOf(m) := m])
  {
    var i := Place(teams, m);
    InsertSorts(teams, m, i);
    InsertDistinct(teams, m, i, done);
    InsertCovers(teams, m, i, done);
  }

  class TeamMembershipLoader {
    var data: Data

    constructor ()
      ensures data == map[]
    {
      data := map[];
    }

    method LoadState(p: SavedPayload) returns (ok: bool)
      modifies this
      ensures ok <==> p.SavedTeams? && FromList(p.teams).Some?
      ensures ok ==> data == FromList(p.teams).value
    {
      if !p.SavedTeams? { return false; }
      data := map[];
      for i := 0 to |p.teams|
        invariant FromList(p.teams[..i]) == Some(data)
      {
        assert p.teams[..i + 1][..i] == p.teams[..i];
        var r := Record(data, p.teams[i]);
        if r.None? {
          FromListStuck(p.teams, i + 1);
          return false;
        }
        data := r.value;
      }
      assert p.teams[..|p.teams|] == p.teams;
      return true;
    }

    method PlayLink(g: Payload) returns (ok: bool)
      modifies this
      ensures ok <==> Play(old(data), g).Some?
      ensures data == if ok then Play(old(data), g).value else old(data)
    {
      if !g.TeamMembership? { return false; }
      var r := Record(data, g.m);
      if r.None? { return false; }
      data := r.value;
      return true;
    }

    method SaveState() returns (p: SavedPayload)
      requires Keyed(data)
      ensures p.SavedTeams? && Lists(p.teams, data)
    {
      var teams: seq<Membership> := [];
      var left := data.Keys;
      ghost var done: Data := map[];
      while left != {}
        invariant left <= data.Keys && Lists(teams, done)
        invariant forall k :: k in done <==> k in data && k !in left
        invariant forall k :: k in done ==> done[k] == data[k]
      {
        var k :| k in left;
        InsertLists(teams, done, data[k]);
        teams := Insert(teams, data[k]);
        done := done[k := data[k]];
        left := left - {k};
      }
      assert done == data;
      return SavedTeams(teams);
    }
  }

  lemma {:induction false} FromListStuck(teams: seq<Membership>, n: nat)
    requires n <= |teams| && FromList(teams[..n]).None?
    ensures FromList(teams).None?
    decreases |teams| - n
  {
    if n == |teams| {
      assert teams[..n] == teams;
    } else {
      assert teams[..n + 1][..n] == teams[..n];
      FromListStuck(teams, n + 1);
    }
  }

  /** Loading what was saved gives back the same map, however the sort broke ties. */
  lemma LoadUndoesSave(data: Data, teams: seq<Membership>)
    requires Keyed(data) && Lists(teams, data)
    ensures FromList(teams) == Some(data)
  {
    FromListIs(teams, |teams|, data);
    assert teams[..|teams|] == teams;
    var got := FromList(teams).value;
    forall k | k in data ensures k in got && got[k] == data[k] {
      var i :| 0 <= i < |teams| && teams[i] == data[k];
      assert KeyOf(teams[i]) in got;
    }
    assert got == data;
  }

  lemma {:induction false} FromListIs(teams: seq<Membership>, n: nat, data: Data)
    requires n <= |teams| && Keyed(data) && AllIn(teams, data)
    ensures FromList(teams[..n]).Some?
    ensures forall k :: k in FromList(teams[..n]).value ==> k in data && FromList(teams[..n]).value[k] == data[k]
    ensures forall i :: 0 <= i < n ==> KeyOf(teams[i]) in FromList(teams[..n]).value
  {
    if n > 0 {
      FromListIs(teams, n - 1, data);
      assert teams[..n][..n - 1] == teams[..n - 1];
      assert KeyOf(teams[n - 1]) in data;
    }
  }

  // ------------------------------------------------------------------- the loader

  /** What one attempt gets from outside: the tree root, the first location, how links open, who may sign. */
  datatype Env = Env(
    root: Hash<LinkHash>, entity: nat, loc0: Option<Location>, keyHash: RFInput -> Bits,
    open: Link -> Option<Payload>, signersOk: Load -> bool)

  const MEMBERSHIP_CHAIN := 4

  /** Plays the links in order. */
  function PlayAll(data: Data, links: seq<Link>, open: Link -> Option<Payload>): (r: Option<Data>)
    decreases |links|
  {
    if links == [] then Some(data)
    else
      var n := |links| - 1;
      var front, g := PlayAll(data, links[..n], open), open(links[n]);
      if front.None? || g.None? then None else Play(front.value, g.value)
  }

  function StartSeqno(row: Option<ChainState>): (n: nat) { if row.Some? then row.value.tail.seqno + 1 else FIRST_SEQNO }
  function StartPrev(row: Option<ChainState>): (p: Option<LinkHash>) {
    if row.Some? then Some(row.value.lastHash) else None
  }


  /** Where the load starts looking in the tree. */
  function QueryFor(env: Env, row: Option<ChainState>): (q: Query) {
    Query(env.root, env.entity, MEMBERSHIP_CHAIN, false,
          if row.Some? then Some(row.value.tail.nextLoc) else None,
          StartSeqno(row), if row.Some? then None else env.loc0, env.keyHash)
  }

  function StartData(row: Option<ChainState>): (d: Option<Data>) {
    if row.None? then Some(map[])
    else if row.value.payload.SavedTeams? then FromList(row.value.payload.teams) else None
  }

  /** A load is accepted on top of what is saved. */
  ghost predicate Accepts(env: Env, row: Option<ChainState>, l: Load) {
    && StartData(row).Some?
    && (row.None? ==> env.loc0.Some?)
    && (forall i :: 0 <= i < |l.links| ==> (env.open)(l.links[i]).Some?)
    && ChainOk(StartPrev(row), StartSeqno(row), l.links)
    && PathsOk(QueryFor(env, row), l, Hashes(l.links))
    && (env.signersOk)(l)
    && PlayAll(StartData(row).value, l.links, env.open).Some?
  }

  /** What an accepted load leaves on disk. */
  ghost predicate Saves(env: Env, row: Option<ChainState>, l: Load, row': Option<ChainState>)
    requires Accepts(env, row, l)
  {
    if l.links == [] then row' == row
    else
      var last := l.links[|l.links| - 1];
      && row'.Some? && row'.value.lastHash == HashOfLink(last) && row'.value.tail == last
      && row'.value.payload.SavedTeams?
      && Lists(row'.value.payload.teams, PlayAll(StartData(row).value, l.links, env.open).value)
  }

  class GenericChainLoader {
    const eng: TeamMembershipLoader
    const base: BaseChainLoader
    var row: Option<ChainState>         // the database row
    var existing: Option<ChainState>
    var res: Option<ChainState>

    constructor (row: Option<ChainState>)
      ensures this.row == row && fresh(eng) && fresh(base) && Fresh()
    {
      eng := new TeamMembershipLoader();
      base := new BaseChainLoader();
      this.row, existing, res := row, None, None;
    }

    ghost predicate Fresh()
      reads this, eng, base
    {
      eng.data == map[] && base.linkHashes == [] && existing == None
    }

    /** `openLinks`: every link opens. */
    method OpenLinks(env: Env, l: Load) returns (ok: bool)
      ensures ok <==> forall i :: 0 <= i < |l.links| ==> (env.open)(l.links[i]).Some?
    {
      for i := 0 to |l.links|
        invariant forall j :: 0 <= j < i ==> (env.open)(l.links[j]).Some?
      {
        if (env.open)(l.links[i]).None? { return false; }
      }
      return true;
    }

    /** `playLinks`: plays every link, or stops at the first that does not fit. */
    method PlayLinks(open: Link -> Option<Payload>, links: seq<Link>) returns (ok: bool)
      requires Keyed(eng.data) && forall i :: 0 <= i < |links| ==> open(links[i]).Some?
      modifies eng
      ensures ok <==> PlayAll(old(eng.data), links, open).Some?
      ensures ok ==> eng.data == PlayAll(old(eng.data), links, open).value && Keyed(eng.data)
    {
      for i := 0 to |links|
        invariant PlayAll(old(eng.data), links[..i], open) == Some(eng.data) && Keyed(eng.data)
      {
        assert links[..i + 1][..i] == links[..i];
        var played := eng.PlayLink(open(links[i]).value);
        if !played {
          PlayStuck(old(eng.data), links, i + 1, open);
          return false;
        }
      }
      assert links[..|links|] == links;
      return true;
    }

    /** One attempt on a fresh loader. */
    method RunOnce(env: Env, l: Load) returns (ok: bool)
      requires Fresh()
      modifies this`row, this`existing, this`res, eng, base
      ensures ok <==> Accepts(env, old(row), l)
      ensures if ok then Saves(env, old(row), l, row) && res == row else row == old(row)
    {
      // load existing
      if row.Some? {
        var loaded := eng.LoadState(row.value.payload);
        if !loaded { return false; }
        existing := row;
      }
      assert StartData(row) == Some(eng.data);
      StartIsKeyed(row);
      // open and check
      var openable := OpenLinks(env, l);
      if !openable { return false; }
      if existing.None? && env.loc0.None? { return false; }
      var checked := base.Check(StartPrev(existing), QueryFor(env, existing), l);
      if checked.Err? || !(env.signersOk)(l) { return false; }
      // play
      var played := PlayLinks(env.open, l.links);
      if !played { return false; }
      // save
      if |l.links| == 0 {
        res := existing;
      } else {
        var payload := eng.SaveState();
        row := Some(ChainState(base.lastHash.value, l.links[|l.links| - 1], payload));
        res := row;
      }
      return true;
    }
  }

  lemma {:induction false} PlayStuck(data: Data, links: seq<Link>, n: nat, open: Link -> Option<Payload>)
    requires n <= |links| && PlayAll(data, links[..n], open).None?
    ensures PlayAll(data, links, open).None?
    decreases |links| - n
  {
    if n == |links| {
      assert links[..n] == links;
    } else {
      assert links[..n + 1][..n] == links[..n];
      PlayStuck(data, links, n + 1, open);
    }
  }

  lemma {:induction false} FromListKeyed(teams: seq<Membership>)
    requires FromList(teams).Some?
    ensures Keyed(FromList(teams).value)
    decreases |teams|
  {
    if teams != [] { FromListKeyed(teams[..|teams| - 1]); }
  }

  lemma StartIsKeyed(row: Option<ChainState>)
    ensures StartData(row).Some? ==> Keyed(StartData(row).value)
  {
    if row.Some? && row.value.payload.SavedTeams? && FromList(row.value.payload.teams).Some? {
      FromListKeyed(row.value.payload.teams);
    }
  }

  // --------------------------------------------------------- incremental = replay

  /** What is saved is what replaying these links from the start would save. */
  ghost predicate Represents(open: Link -> Option<Payload>, row: Option<ChainState>, links: seq<Link>) {
    if links == [] then row == None
    else
      && row.Some? && row.value.lastHash == HashOfLink(links[|links| - 1]) && row.value.tail == links[|links| - 1]
      && PlayAll(map[], links, open).Some? && StartData(row) == PlayAll(map[], links, open)
      && ChainOk(None, FIRST_SEQNO, links)
  }

  lemma {:induction false} PlayAppend(data: Data, a: seq<Link>, b: seq<Link>, open: Link -> Option<Payload>)
    requires PlayAll(data, a, open).Some?
    ensures PlayAll(data, a + b, open) == PlayAll(PlayAll(data, a, open).value, b, open)
    decreases |b|
  {
    if b == [] {
      assert a + b == a;
    } else {
      PlayAppend(data, a, b[..|b| - 1], open);
      assert (a + b)[..|a + b| - 1] == a + b[..|b| - 1];
    }
  }

  lemma {:induction false} PlayKeyed(data: Data, links: seq<Link>, open: Link -> Option<Payload>)
    requires Keyed(data) && PlayAll(data, links, open).Some?
    ensures Keyed(PlayAll(data, links, open).value)
    decreases |links|
  {
    if links != [] { PlayKeyed(data, links[..|links| - 1], open); }
  }

  lemma AppendedLinkError(a: seq<Link>, b: seq<Link>, k: nat)
    requires a != [] && a[|a| - 1].seqno == |a| && k < |a| + |b|
    ensures LinkError(None, FIRST_SEQNO, a + b, k)
         == if k < |a| then LinkError(None, FIRST_SEQNO, a, k)
            else LinkError(Some(HashOfLink(a[|a| - 1])), a[|a| - 1].seqno + 1, b, k - |a|)
  {
  }

  /** A chain in order is a chain in order up to any point, and from there on. */
  lemma ChainAppend(a: seq<Link>, b: seq<Link>)
    requires a != [] && ChainOk(None, FIRST_SEQNO, a)
    ensures ChainOk(None, FIRST_SEQNO, a + b) <==>
            ChainOk(Some(HashOfLink(a[|a| - 1])), a[|a| - 1].seqno + 1, b)
  {
    assert LinkError(None, FIRST_SEQNO, a, |a| - 1).None?;
    var prev, seqno := Some(HashOfLink(a[|a| - 1])), a[|a| - 1].seqno + 1;
    if ChainOk(prev, seqno, b) {
      forall k | 0 <= k < |a + b| ensures LinkError(None, FIRST_SEQNO, a + b, k).None? {
        AppendedLinkError(a, b, k);
      }
    }
    if ChainOk(None, FIRST_SEQNO, a + b) {
      forall i | 0 <= i < |b| ensures LinkError(prev, seqno, b, i).None? {
        AppendedLinkError(a, b, |a| + i);
        assert LinkError(None, FIRST_SEQNO, a + b, |a| + i).None?;
      }
    }
  }

  /**
   Saved state plus a suffix is the same as replaying the whole chain: the same
   membership map, tail and last hash. It holds from nothing too, so by repetition
   any sequence of incremental loads equals one full load.
   */
  lemma IncrementalIsReplay(env: Env, row: Option<ChainState>, known: seq<Link>, l: Load, row': Option<ChainState>)
    requires Represents(env.open, row, known) && Accepts(env, row, l) && Saves(env, row, l, row')
    ensures Represents(env.open, row', known + l.links)
  {
    if l.links == [] {
      assert known + l.links == known;
    } else {
      StartIsKeyed(row);
      PlayKeyed(StartData(row).value, l.links, env.open);
      LoadUndoesSave(PlayAll(StartData(row).value, l.links, env.open).value, row'.value.payload.teams);
      if known == [] {
        assert known + l.links == l.links;
      } else {
        PlayAppend(map[], known, l.links, env.open);
        ChainAppend(known, l.links);
      }
    }
  }

  // ---------------------------------------------------- agreement across tree roots

  /** Nothing but `h` can be proved of this key. */
  ghost predicate Settled(root: Hash<LinkHash>, key: Bits, h: LinkHash) {
    !Vacant(root, key) && forall h' :: Proved(root, key, h') ==> h' == h
  }

  /** The later tree never contradicts a value proved in the earlier one. */
  ghost predicate Extends(r1: Hash<LinkHash>, r2: Hash<LinkHash>, keyHash: RFInput -> Bits) {
    forall x, h :: Proved(r1, keyHash(x), h) ==> Settled(r2, keyHash(x), h)
  }

  lemma ProvedIsSettled(root: Hash<LinkHash>, key: Bits, h: LinkHash)
    requires Proved(root, key, h)
    ensures Settled(root, key, h)
  {
    var p1 :| VerifiesPresence(root, key, p1, h);
    forall h' | Proved(root, key, h') ensures h' == h {
      var p :| VerifiesPresence(root, key, p, h');
      RootIsBinding(root, key, p1, h, p, h');
    }
    if Vacant(root, key) {
      var p :| VerifiesAbsence(root, key, p);
      RootIsBinding(root, key, p1, h, p, h);
    }
  }

  /** An honest tree that only gains leaves does extend its earlier self. */
  lemma GrowingTreeExtends(t1: Tree<LinkHash>, t2: Tree<LinkHash>, keyHash: RFInput -> Bits, len: nat)
    requires Proper(t1, len, []) && Proper(t2, len, []) && forall x :: |keyHash(x)| == len
    requires forall k, h :: Merkle.Holds(t1, k, h) ==> Merkle.Holds(t2, k, h)
    ensures Extends(TreeHash(t1, 0), TreeHash(t2, 0), keyHash)
  {
    forall x, h | Proved(TreeHash(t1, 0), keyHash(x), h)
      ensures Settled(TreeHash(t2, 0), keyHash(x), h)
    {
      VerificationDecidesLookup(t1, keyHash(x), h);
      VerificationDecidesLookup(t2, keyHash(x), h);
      ProvedIsSettled(TreeHash(t2, 0), keyHash(x), h);
    }
  }

  /** Where link `i` of a chain sits in the tree, given the links before it. */
  ghost function PlaceOf(q: Query, links: seq<Link>, i: nat): (k: Bits)
    requires i <= |links|
  {
    (q.keyHash)(RFInput(FIRST_SEQNO + i, q.entity, q.chainType,
                        if i == 0 then q.loc0 else Some(links[i - 1].nextLoc.loc)))
  }

  /** The query of a load on top of links that are already known. */
  ghost function Resumed(q: Query, root: Hash<LinkHash>, known: seq<Link>): (q': Query) {
    if known == [] then q.(root := root)
    else q.(root := root, ntlc := Some(known[|known| - 1].nextLoc), seqno := |known| + FIRST_SEQNO, loc0 := None)
  }

  /** A query for a whole chain. */
  ghost predicate FromStart(q: Query) { q.seqno == FIRST_SEQNO && q.ntlc.None? }

  /** An accepted load looks for its links where the whole chain has them. */
  lemma LooksAtPlace(q: Query, root: Hash<LinkHash>, known: seq<Link>, l: Load, i: nat)
    requires FromStart(q) && i <= |l.links|
    requires CountsOk(Resumed(q, root, known), l) && LocationError(Resumed(q, root, known), l, i).None?
    ensures KeyAt(Resumed(q, root, known), l, i) == PlaceOf(q, known + l.links, |known| + i)
  {
    var all := known + l.links;
    assert i > 0 ==> all[|known| + i - 1] == l.links[i - 1];
    assert i == 0 && known != [] ==> all[|known| - 1] == known[|known| - 1];
  }

  /** A load on top of known links passes the path checks. */
  ghost predicate PathsAccepted(q: Query, root: Hash<LinkHash>, known: seq<Link>, l: Load) {
    PathsOk(Resumed(q, root, known), l, Hashes(l.links))
  }

  /** Links from `n` on are proved at their places, and nothing follows them. */
  ghost predicate ProvedFrom(q: Query, root: Hash<LinkHash>, links: seq<Link>, n: nat) {
    && Vacant(root, PlaceOf(q, links, |links|))
    && forall i {:trigger PlaceOf(q, links, i)} :: n <= i < |links| ==>
                                                     Proved(root, PlaceOf(q, links, i), HashOfLink(links[i]))
  }

  lemma StepProves(q: Query, root: Hash<LinkHash>, known: seq<Link>, l: Load, i: nat)
    requires FromStart(q) && PathsAccepted(q, root, known, l) && i <= |l.links|
    ensures var place := PlaceOf(q, known + l.links, |known| + i);
            if i < |l.links| then Proved(root, place, HashOfLink(l.links[i])) else Vacant(root, place)
  {
    assert StepOk(Resumed(q, root, known), l, Hashes(l.links), i);
    LooksAtPlace(q, root, known, l, i);
  }

  /** What an accepted load proves of its links, and of the place after the last one. */
  lemma LoadProves(q: Query, root: Hash<LinkHash>, known: seq<Link>, l: Load, all: seq<Link>)
    requires FromStart(q) && PathsAccepted(q, root, known, l) && all == known + l.links
    ensures ProvedFrom(q, root, all, |known|)
  {
    forall i {:trigger PlaceOf(q, all, i)} | |known| <= i < |all|
      ensures Proved(root, PlaceOf(q, all, i), HashOfLink(all[i]))
    {
      StepProves(q, root, known, l, i - |known|);
    }
    StepProves(q, root, known, l, |l.links|);
  }

  ghost predicate ChainSettled(q: Query, root: Hash<LinkHash>, links: seq<Link>) {
    forall i {:trigger PlaceOf(q, links, i)} :: 0 <= i < |links| ==>
        Settled(root, PlaceOf(q, links, i), HashOfLink(links[i]))
  }

  /** Two chains that are settled and end in one tree are the same, by induction over committed places. */
  lemma {:induction false} AgreeSoFar(q: Query, root: Hash<LinkHash>, a: seq<Link>, b: seq<Link>, n: nat)
    requires ChainSettled(q, root, a) && ProvedFrom(q, root, b, 0) && n <= |a|
    ensures n <= |b| && a[..n] == b[..n]
  {
    if n > 0 {
      AgreeSoFar(q, root, a, b, n - 1);
      SamePlace(q, a, b, n - 1);
      assert Settled(root, PlaceOf(q, a, n - 1), HashOfLink(a[n - 1]));
      if n - 1 < |b| { assert Proved(root, PlaceOf(q, b, n - 1), HashOfLink(b[n - 1])); }
    }
  }

  lemma SamePlace(q: Query, a: seq<Link>, b: seq<Link>, n: nat)
    requires n <= |a| && n <= |b| && a[..n] == b[..n]
    ensures PlaceOf(q, a, n) == PlaceOf(q, b, n)
  {
    if n > 0 { assert a[..n][n - 1] == b[..n][n - 1]; }
  }

  lemma SettledChainsAgree(q: Query, root: Hash<LinkHash>, a: seq<Link>, b: seq<Link>)
    requires ChainSettled(q, root, a) && Vacant(root, PlaceOf(q, a, |a|)) && ProvedFrom(q, root, b, 0)
    ensures a == b
  {
    AgreeSoFar(q, root, a, b, |a|);
    if |a| < |b| {
      SamePlace(q, a, b, |a|);
      ProvedIsSettled(root, PlaceOf(q, b, |a|), HashOfLink(b[|a|]));
    }
  }

  /** All links of the first `n` loads. */
  ghost function Known(ls: seq<Load>, n: nat): (links: seq<Link>)
    requires n <= |ls|
  {
    if n == 0 then [] else Known(ls, n - 1) + ls[n - 1].links
  }

  /** Loads one on top of the other, each accepted under the root of its time. */
  ghost predicate Successive(q: Query, roots: seq<Hash<LinkHash>>, ls: seq<Load>) {
    FromStart(q) && |roots| == |ls| && forall j :: 0 <= j < |ls| ==> AcceptedOnTop(q, roots, ls, j)
  }

  ghost predicate AcceptedOnTop(q: Query, roots: seq<Hash<LinkHash>>, ls: seq<Load>, j: nat)
    requires j < |ls| && j < |roots|
  {
    PathsAccepted(q, roots[j], Known(ls, j), ls[j])
  }

  lemma OnTopProves(q: Query, roots: seq<Hash<LinkHash>>, ls: seq<Load>, n: nat)
    requires Successive(q, roots, ls) && 1 <= n <= |ls|
    ensures ProvedFrom(q, roots[n - 1], Known(ls, n), |Known(ls, n - 1)|)
  {
    assert AcceptedOnTop(q, roots, ls, n - 1);
    LoadProves(q, roots[n - 1], Known(ls, n - 1), ls[n - 1], Known(ls, n));
  }

  ghost predicate AllExtend(q: Query, roots: seq<Hash<LinkHash>>) {
    forall i, j :: 0 <= i < j < |roots| ==> Extends(roots[i], roots[j], q.keyHash)
  }

  lemma PlaceInPrefix(q: Query, a: seq<Link>, b: seq<Link>, i: nat)
    requires i < |a|
    ensures PlaceOf(q, a + b, i) == PlaceOf(q, a, i) && (a + b)[i] == a[i]
  {
  }

  /** What was proved under an earlier root is settled under every later one. */
  lemma {:induction false} KnownIsSettled(
    q: Query, roots: seq<Hash<LinkHash>>, ls: seq<Load>, last: Hash<LinkHash>, n: nat, i: nat)
    requires Successive(q, roots, ls) && n <= |ls| && i < |Known(ls, n)|
    requires forall j :: 0 <= j < n ==> Extends(roots[j], last, q.keyHash) || roots[j] == last
    ensures Settled(last, PlaceOf(q, Known(ls, n), i), HashOfLink(Known(ls, n)[i]))
    decreases n
  {
    var before, links := Known(ls, n - 1), ls[n - 1].links;
    if i < |before| {
      KnownIsSettled(q, roots, ls, last, n - 1, i);
      PlaceInPrefix(q, before, links, i);
    } else {
      OnTopProves(q, roots, ls, n);
      ProvedStaysSettled(q, roots[n - 1], last, Known(ls, n), i);
    }
  }

  lemma ProvedStaysSettled(q: Query, root: Hash<LinkHash>, last: Hash<LinkHash>, links: seq<Link>, i: nat)
    requires i < |links| && Proved(root, PlaceOf(q, links, i), HashOfLink(links[i]))
    requires Extends(root, last, q.keyHash) || root == last
    ensures Settled(last, PlaceOf(q, links, i), HashOfLink(links[i]))
  {
    var key, h := PlaceOf(q, links, i), HashOfLink(links[i]);
    if root == last { ProvedIsSettled(last, key, h); }
  }

  /** The known links are settled under the last root, and nothing follows them. */
  lemma KnownIsAChain(q: Query, roots: seq<Hash<LinkHash>>, ls: seq<Load>)
    requires Successive(q, roots, ls) && AllExtend(q, roots) && ls != []
    ensures ChainSettled(q, roots[|ls| - 1], Known(ls, |ls|))
    ensures Vacant(roots[|ls| - 1], PlaceOf(q, Known(ls, |ls|), |Known(ls, |ls|)|))
  {
    var n := |ls|;
    var all := Known(ls, n);
    forall i | 0 <= i < |all| ensures Settled(roots[n - 1], PlaceOf(q, all, i), HashOfLink(all[i])) {
      KnownIsSettled(q, roots, ls, roots[n - 1], n, i);
    }
    OnTopProves(q, roots, ls, n);
  }

  /**
   If roots only extend one another, any sequence of incremental loads adds up to
   exactly the chain that one full load under the last root would accept.
   */
  lemma IncrementalLoadsAreFullLoad(q: Query, roots: seq<Hash<LinkHash>>, ls: seq<Load>, l: Load)
    requires Successive(q, roots, ls) && AllExtend(q, roots) && ls != []
    requires PathsAccepted(q, roots[|ls| - 1], [], l)
    ensures l.links == Known(ls, |ls|)
  {
    KnownIsAChain(q, roots, ls);
    LoadProves(q, roots[|ls| - 1], [], l, l.links);
    SettledChainsAgree(q, roots[|ls| - 1], Known(ls, |ls|), l.links);
  }

  // ------------------------------------------------------------ runs of the loader

  /** Attempts that succeeded one after the other; a failed one leaves the row and drops out. */
  ghost predicate LoaderRun(env: Env, roots: seq<Hash<LinkHash>>, ls: seq<Load>, rows: seq<Option<ChainState>>) {
    && |roots| == |ls| && |rows| == |ls| + 1 && rows[0] == None
    && forall j {:trigger ls[j]} :: 0 <= j < |ls| ==> Succeeds(env.(root := roots[j]), rows[j], ls[j], rows[j + 1])
  }

  ghost predicate Succeeds(env: Env, row: Option<ChainState>, l: Load, row': Option<ChainState>) {
    Accepts(env, row, l) && Saves(env, row, l, row')
  }

  /** After any number of loads, what is saved is what replaying all the links would save. */
  lemma {:induction false} RunIsReplay(
    env: Env, roots: seq<Hash<LinkHash>>, ls: seq<Load>, rows: seq<Option<ChainState>>, n: nat)
    requires LoaderRun(env, roots, ls, rows) && n <= |ls|
    ensures Represents(env.open, rows[n], Known(ls, n))
  {
    if n > 0 {
      RunIsReplay(env, roots, ls, rows, n - 1);
      SuccessIsReplay(env.(root := roots[n - 1]), rows[n - 1], Known(ls, n - 1), ls[n - 1], rows[n], Known(ls, n));
    }
  }

  lemma SuccessIsReplay(env: Env, row: Option<ChainState>, known: seq<Link>, l: Load, row': Option<ChainState>,
                        all: seq<Link>)
    requires Represents(env.open, row, known) && Succeeds(env, row, l, row') && all == known + l.links
    ensures Represents(env.open, row', all)
  {
    IncrementalIsReplay(env, row, known, l, row');
  }

  lemma QueryIsResumed(env: Env, root: Hash<LinkHash>, row: Option<ChainState>, known: seq<Link>)
    requires Represents(env.open, row, known)
    ensures QueryFor(env.(root := root), row) == Resumed(QueryFor(env, None), root, known)
  {
    if known != [] { assert LinkError(None, FIRST_SEQNO, known, |known| - 1).None?; }
  }

  lemma RunIsSuccessive(env: Env, roots: seq<Hash<LinkHash>>, ls: seq<Load>, rows: seq<Option<ChainState>>)
    requires LoaderRun(env, roots, ls, rows)
    ensures Successive(QueryFor(env, None), roots, ls)
  {
    forall j | 0 <= j < |ls|
      ensures AcceptedOnTop(QueryFor(env, None), roots, ls, j)
    {
      RunIsReplay(env, roots, ls, rows, j);
      QueryIsResumed(env, roots[j], rows[j], Known(ls, j));
    }
  }

  /** What is saved is determined by the links it stands for. */
  lemma SameRepresentation(open: Link -> Option<Payload>, a: Option<ChainState>, b: Option<ChainState>,
                           links: seq<Link>)
    requires Represents(open, a, links) && Represents(open, b, links)
    ensures SameState(a, b)
  {
  }

  ghost predicate SameState(a: Option<ChainState>, b: Option<ChainState>) {
    && StartData(a) == StartData(b) && StartPrev(a) == StartPrev(b) && StartSeqno(a) == StartSeqno(b)
    && (a.Some? <==> b.Some?) && (a.Some? ==> a.value.tail == b.value.tail)
  }

  lemma RunHasTheLinks(env: Env, roots: seq<Hash<LinkHash>>, ls: seq<Load>, rows: seq<Option<ChainState>>, l: Load)
    requires LoaderRun(env, roots, ls, rows) && ls != [] && AllExtend(QueryFor(env, None), roots)
    requires PathsOk(QueryFor(env.(root := roots[|ls| - 1]), None), l, Hashes(l.links))
    ensures l.links == Known(ls, |ls|)
  {
    RunIsSuccessive(env, roots, ls, rows);
    QueryIsResumed(env, roots[|ls| - 1], None, []);
    IncrementalLoadsAreFullLoad(QueryFor(env, None), roots, ls, l);
  }

  lemma FreshIsReplay(env: Env, l: Load, row: Option<ChainState>)
    requires Accepts(env, None, l) && Saves(env, None, l, row)
    ensures Represents(env.open, row, l.links)
  {
    IncrementalIsReplay(env, None, [], l, row);
    assert [] + l.links == l.links;
  }

  /**
   A loader that has been updating all along and one that loads everything now, under
   the same root, end up with the same membership map, tail and last hash.
   */
  lemma RunEqualsFullLoad(env: Env, roots: seq<Hash<LinkHash>>, ls: seq<Load>, rows: seq<Option<ChainState>>,
                          l: Load, row: Option<ChainState>)
    requires LoaderRun(env, roots, ls, rows) && ls != [] && AllExtend(QueryFor(env, None), roots)
    requires Accepts(env.(root := roots[|ls| - 1]), None, l) && Saves(env.(root := roots[|ls| - 1]), None, l, row)
    ensures SameState(rows[|ls|], row)
  {
    RunIsReplay(env, roots, ls, rows, |ls|);
    RunHasTheLinks(env, roots, ls, rows, l);
    FreshIsReplay(env.(root := roots[|ls| - 1]), l, row);
    SameRepresentation(env.open, rows[|ls|], row, l.links);
  }
}
