/**
 Index ranges keep the team graph free of cycles (client/libclient/team_loader.go,
 team_minder_inbox.go and team_minder_index_range.go): a team may only join a team
 whose range lies above its own, and ranges only ever shrink.
 */
module IndexRanges {
  import opened Common
  import opened Rationals

  datatype Range = Range(low: Rational, high: Rational) {
    predicate LessThan(other: Range) { Cmp(high, other.low) < 0 }
    predicate Equals(other: Range) { Cmp(low, other.low) == 0 && Cmp(high, other.high) == 0 }
    predicate Includes(other: Range) { Cmp(low, other.low) <= 0 && Cmp(high, other.high) >= 0 }
    /** What the server checks when it reads a range back; the client does not check it. */
    predicate WellFormed() { Cmp(low, high) <= 0 }
  }

  const DEFAULT_RANGE := Range(Finite([1], 0), Infinity)

  // ------------------------------------------------------------- playing a chain

  datatype RangeError = NoRange | NotFirst | NoPrevious | Unchanged | Grows

  /** The part of the team loader that tracks the range along the chain. */
  class RangeTracker {
    const existing: Option<Range>      // from the saved state
    var indexRange: Option<Range>

    constructor (existing: Option<Range>)
      ensures this.existing == existing && indexRange == None
    {
      this.existing, indexRange := existing, None;
    }

    function Latest(): (r: Option<Range>)
      reads this
    {
      if indexRange.Some? then indexRange else existing
    }

    /** `addIndexRange`: the first link must set a range, a later one may only narrow it. */
    method AddIndexRange(r: Option<Range>, eldest: bool) returns (res: Result<(), RangeError>)
      modifies this`indexRange
      ensures res.Ok? <==> if eldest then r.Some? && old(indexRange).None?
                           else && old(Latest()).Some?
                                && (r.Some? ==> && old(Latest()).value.Includes(r.value)
                                                && !old(Latest()).value.Equals(r.value))
      ensures indexRange == if res.Ok? && r.Some? then r else old(indexRange)
    {
      if eldest {
        if r.None? { return Err(NoRange); }
        if indexRange.Some? { return Err(NotFirst); }
        indexRange := r;
        return Ok(());
      }
      var prev := Latest();
      if prev.None? { return Err(NoPrevious); }
      if r.None? { return Ok(()); }
      if prev.value.Equals(r.value) { return Err(Unchanged); }
      if !prev.value.Includes(r.value) { return Err(Grows); }
      indexRange := r;
      return Ok(());
    }
  }

  // ------------------------------------------------------------- setting a range

  /** Smaller as a number, with infinity on top. */
  ghost predicate Below(a: Rational, b: Rational) { a.Finite? && (b.Infinity? || Value(a) < Value(b)) }

  function SetIndexRange(r: Range, new': Range): (res: Option<Range>)
    ensures res.Some? <==> r.Includes(new') && !r.Equals(new')
    ensures res.Some? ==> res.value == new'
  {
    CmpSymmetric(new'.low, r.low);
    CmpSymmetric(new'.high, r.high);
    if new'.Equals(r) || !r.Includes(new') then None else Some(new')
  }

  function SetIndexRangeHigh(r: Range, high: Rational): (res: Option<Range>)
    ensures res.Some? <==> Below(high, r.high)
    ensures res.Some? ==> res.value.high == high && r.Includes(res.value) && !r.Equals(res.value)
    ensures res.Some? ==> (res.value.WellFormed() <==> Cmp(r.low, high) <= 0)
  {
    CmpIsNumericOrder(high, r.high);
    CmpSymmetric(high, r.high);
    CmpSame(r.low);
    if Cmp(high, r.high) >= 0 then None else Some(Range(r.low, high))
  }

  function SetIndexRangeLow(r: Range, low: Rational): (res: Option<Range>)
    ensures res.Some? <==> Below(r.low, low)
    ensures res.Some? ==> res.value.low == low && r.Includes(res.value) && !r.Equals(res.value)
    ensures res.Some? ==> (res.value.WellFormed() <==> Cmp(low, r.high) <= 0)
  {
    CmpIsNumericOrder(r.low, low);
    CmpSymmetric(low, r.low);
    CmpSame(r.high);
    if Cmp(low, r.low) <= 0 then None else Some(Range(low, r.high))
  }

  /** Halves the top, starting from 0x20 for a fresh range. */
  function LowerIndexRange(r: Range): (res: Option<Range>) {
    if r.Equals(DEFAULT_RANGE) then Some(Range(r.low, Finite([0x20], 0)))
    else
      var high := Rsh(r.high);
      if high.None? then None else Some(Range(r.low, high.value))
  }

  /** Doubles the bottom, starting from 0x80 for a fresh range. */
  function RaiseIndexRange(r: Range): (res: Option<Range>) {
    if r.Equals(DEFAULT_RANGE) then Some(Range(Finite([0x80], 0), r.high))
    else
      var low := Lsh(r.low);
      if low.None? then None else Some(Range(low.value, r.high))
  }

  // ----------------------------------------------------------- order of rationals

  lemma CmpSymmetric(a: Rational, b: Rational)
    ensures Cmp(a, b) < 0 <==> Cmp(b, a) > 0
    ensures Cmp(a, b) == 0 <==> Cmp(b, a) == 0
  {
    CmpIsNumericOrder(a, b);
    CmpIsNumericOrder(b, a);
  }

  lemma CmpSame(a: Rational)
    ensures Cmp(a, a) == 0
  {
    CmpIsNumericOrder(a, a);
  }

  lemma CmpChain(a: Rational, b: Rational, c: Rational)
    ensures Cmp(a, b) <= 0 && Cmp(b, c) <= 0 ==> Cmp(a, c) <= 0
    ensures Cmp(a, b) <= 0 && Cmp(b, c) < 0 ==> Cmp(a, c) < 0
    ensures Cmp(a, b) < 0 && Cmp(b, c) <= 0 ==> Cmp(a, c) < 0
  {
    CmpIsNumericOrder(a, b);
    CmpIsNumericOrder(b, c);
    CmpIsNumericOrder(a, c);
  }

  /** Narrower ranges keep their distance: nested views of both sides stay apart. */
  lemma ApartStaysApart(m: Range, p: Range, m': Range, p': Range)
    requires m.LessThan(p) && m.Includes(m') && p.Includes(p')
    ensures m'.LessThan(p')
  {
    CmpSymmetric(m.high, m'.high);
    CmpChain(m'.high, m.high, p.low);
    CmpChain(m'.high, p.low, p'.low);
  }

  lemma IncludesChain(a: Range, b: Range, c: Range)
    requires a.Includes(b) && b.Includes(c)
    ensures a.Includes(c)
  {
    CmpChain(a.low, b.low, c.low);
    CmpSymmetric(a.high, b.high);
    CmpSymmetric(b.high, c.high);
    CmpChain(c.high, b.high, a.high);
    CmpSymmetric(c.high, a.high);
  }

  lemma WholeNumber(b: Byte)
    ensures Value(Finite([b], 0)) == b as real
  {
    var base: seq<Byte> := [b];
    assert base[..0] == [] && Digits([], 1) == 0.0;
    assert Digits(base, 0) == Digits(base[..0], 1) + Worth(b, 0);
    WorthIs(b, 0);
    assert Pow(0) == 1.0;
  }

  /** A range equal to the default one starts at 1 and has no top. */
  lemma DefaultIs(r: Range)
    ensures r.Equals(DEFAULT_RANGE) <==> r.low.Finite? && Value(r.low) == 1.0 && r.high.Infinity?
  {
    WholeNumber(1);
    CmpIsNumericOrder(r.low, DEFAULT_RANGE.low);
    CmpSymmetric(r.low, DEFAULT_RANGE.low);
    CmpIsNumericOrder(r.high, Infinity);
    CmpSymmetric(r.high, Infinity);
    CmpIsNumericOrder(Infinity, r.high);
    CmpIsNumericOrder(DEFAULT_RANGE.low, r.low);
  }

  /**
   Lowering gives the default range a top and halves any other top; it fails exactly for
   other ranges without a top. The result is inside the old range, differs from it unless
   the top was 0, and is well formed exactly while twice the bottom fits under the top.
   */
  lemma LowerHalves(r: Range)
    ensures LowerIndexRange(r).None? <==> r.high.Infinity? && !r.Equals(DEFAULT_RANGE)
    ensures LowerIndexRange(r).Some? ==> r.Includes(LowerIndexRange(r).value)
    ensures r.Equals(DEFAULT_RANGE) ==>
              LowerIndexRange(r).value.WellFormed() && Value(LowerIndexRange(r).value.high) == 32.0
    ensures r.high.Finite? ==>
              && Value(LowerIndexRange(r).value.high) == Value(r.high) / 2.0
              && (r.Equals(LowerIndexRange(r).value) <==> Value(r.high) == 0.0)
              && (LowerIndexRange(r).value.WellFormed() <==> r.low.Finite? && 2.0 * Value(r.low) <= Value(r.high))
  {
    DefaultIs(r);
    CmpSame(r.low);
    if r.Equals(DEFAULT_RANGE) {
      WholeNumber(0x20);
      CmpIsNumericOrder(r.low, Finite([0x20], 0));
      CmpIsNumericOrder(Finite([0x20], 0), Infinity);
      CmpSymmetric(Infinity, Finite([0x20], 0));
    } else if r.high.Finite? {
      RshHalves(r.high);
      NotNegative(r.high);
      var high := Rsh(r.high).value;
      CmpIsNumericOrder(r.high, high);
      Ordered(r.low, high);
    }
  }

  /** Raising is the same for the bottom; it fails exactly for a range that starts at infinity. */
  lemma RaiseDoubles(r: Range)
    ensures RaiseIndexRange(r).None? <==> r.low.Infinity?
    ensures RaiseIndexRange(r).Some? ==> r.Includes(RaiseIndexRange(r).value)
    ensures r.Equals(DEFAULT_RANGE) ==>
              RaiseIndexRange(r).value.WellFormed() && Value(RaiseIndexRange(r).value.low) == 128.0
    ensures r.low.Finite? && !r.Equals(DEFAULT_RANGE) ==>
              && Value(RaiseIndexRange(r).value.low) == 2.0 * Value(r.low)
              && (r.Equals(RaiseIndexRange(r).value) <==> Value(r.low) == 0.0)
              && (RaiseIndexRange(r).value.WellFormed() <==> r.high.Infinity? || 2.0 * Value(r.low) <= Value(r.high))
  {
    DefaultIs(r);
    CmpSame(r.high);
    if r.Equals(DEFAULT_RANGE) {
      WholeNumber(0x80);
      CmpIsNumericOrder(r.low, Finite([0x80], 0));
      Ordered(Finite([0x80], 0), r.high);
    } else if r.low.Finite? {
      LshDoubles(r.low);
      NotNegative(r.low);
      var low := Lsh(r.low).value;
      CmpIsNumericOrder(r.low, low);
      Ordered(low, r.high);
    }
  }

  /** At most, as numbers. */
  lemma Ordered(a: Rational, b: Rational)
    ensures Cmp(a, b) <= 0 <==> b.Infinity? || (a.Finite? && Value(a) <= Value(b))
  {
    CmpIsNumericOrder(a, b);
    CmpIsNumericOrder(b, a);
    CmpSymmetric(a, b);
  }

  lemma NotNegative(r: Rational)
    requires r.Finite?
    ensures Value(r) >= 0.0
  {
    PlacesAreValue(r, r.MaxPow());
    PlacesBounded(r, r.exp, r.MaxPow());
  }

  // ------------------------------------------------------------------- the graph

  type Team = nat

  /** A join request that passed an admin's checks and waits in the admin's inbox cache. */
  datatype Row = Row(member: Team, parent: Team)

  /** `ranges` is every range a team ever had, the last one being current. */
  datatype World = World(ranges: map<Team, seq<Range>>, rows: set<Row>, edges: set<Row>)

  datatype Action =
    | Create(team: Team, range: Range)
    | Narrow(team: Team, range: Range)
    // an admin of the parent looks at the request with whatever views of both teams were loaded
    | ExpandLocal(row: Row, memberView: nat, parentView: nat)
    | ExpandRemote(row: Row, claimed: Range, memberView: nat, parentView: nat)
    | Admit(row: Row)
    | Leave(row: Row)

  ghost function Current(w: World, t: Team): (r: Range)
    requires t in w.ranges && w.ranges[t] != []
  {
    w.ranges[t][|w.ranges[t]| - 1]
  }

  /** `CheckTeamIndexRange`: the range claimed in the request covers the loaded one and lies below the parent's. */
  predicate CheckTeamIndexRange(target: Range, claimed: Range, loaded: Range) {
    claimed.Includes(loaded) && claimed.LessThan(target)
  }

  ghost predicate Known(w: World, t: Team, view: nat) { t in w.ranges && view < |w.ranges[t]| }

  ghost predicate Enabled(w: World, a: Action) {
    match a
    case Create(t, _) => t !in w.ranges
    case Narrow(t, r) => t in w.ranges && w.ranges[t] != [] && Current(w, t).Includes(r) && !Current(w, t).Equals(r)
    case ExpandLocal(row, mv, pv) =>
      && Known(w, row.member, mv) && Known(w, row.parent, pv)
      && w.ranges[row.member][mv].LessThan(w.ranges[row.parent][pv])
    case ExpandRemote(row, claimed, mv, pv) =>
      && Known(w, row.member, mv) && Known(w, row.parent, pv)
      && CheckTeamIndexRange(w.ranges[row.parent][pv], claimed, w.ranges[row.member][mv])
    case Admit(row) => row in w.rows
    case Leave(row) => row in w.edges
  }

  ghost function After(w: World, a: Action): (w': World)
    requires Enabled(w, a)
  {
    match a
    case Create(t, r) => w.(ranges := w.ranges[t := [r]])
    case Narrow(t, r) => w.(ranges := w.ranges[t := w.ranges[t] + [r]])
    case ExpandLocal(row, _, _) => w.(rows := w.rows + {row})
    case ExpandRemote(row, _, _, _) => w.(rows := w.rows + {row})
    case Admit(row) => w.(edges := w.edges + {row})
    case Leave(row) => w.(edges := w.edges - {row})
  }

  /** Each range a team ever had includes the current one. */
  ghost predicate Nested(w: World, t: Team) {
    t in w.ranges && w.ranges[t] != [] && forall i :: 0 <= i < |w.ranges[t]| ==> w.ranges[t][i].Includes(Current(w, t))
  }

  ghost predicate Apart(w: World, row: Row) {
    Nested(w, row.member) && Nested(w, row.parent) && Current(w, row.member).LessThan(Current(w, row.parent))
  }

  ghost predicate Inv(w: World) {
    && (forall t :: t in w.ranges ==> Nested(w, t))
    && (forall row :: row in w.rows || row in w.edges ==> Apart(w, row))
  }

  lemma NarrowNests(w: World, t: Team, r: Range)
    requires Nested(w, t) && Current(w, t).Includes(r)
    ensures Nested(w.(ranges := w.ranges[t := w.ranges[t] + [r]]), t)
  {
    var w' := w.(ranges := w.ranges[t := w.ranges[t] + [r]]);
    forall i | 0 <= i < |w'.ranges[t]| ensures w'.ranges[t][i].Includes(r) {
      if i < |w.ranges[t]| {
        IncludesChain(w.ranges[t][i], Current(w, t), r);
      } else {
        CmpSame(r.low);
        CmpSame(r.high);
      }
    }
  }

  /** Two teams that are apart stay apart when either narrows. */
  lemma NarrowKeepsApart(w: World, t: Team, r: Range, row: Row)
    requires Apart(w, row) && Nested(w, t) && Current(w, t).Includes(r)
    ensures Apart(w.(ranges := w.ranges[t := w.ranges[t] + [r]]), row)
  {
    var w' := w.(ranges := w.ranges[t := w.ranges[t] + [r]]);
    NarrowNests(w, t, r);
    forall x | x in {row.member, row.parent} ensures Nested(w', x) && Current(w, x).Includes(Current(w', x)) {
      CmpSame(Current(w, x).low);
      CmpSame(Current(w, x).high);
    }
    ApartStaysApart(Current(w, row.member), Current(w, row.parent), Current(w', row.member), Current(w', row.parent));
  }

  /** Any views at all that pass the admin's check put the current ranges apart. */
  lemma ViewsAreApart(w: World, row: Row, mv: nat, pv: nat)
    requires Nested(w, row.member) && Nested(w, row.parent) && Known(w, row.member, mv) && Known(w, row.parent, pv)
    requires w.ranges[row.member][mv].LessThan(w.ranges[row.parent][pv])
    ensures Apart(w, row)
  {
    ApartStaysApart(w.ranges[row.member][mv], w.ranges[row.parent][pv], Current(w, row.member), Current(w, row.parent));
  }

  lemma CreateKeepsInv(w: World, t: Team, r: Range)
    requires Inv(w) && t !in w.ranges
    ensures Inv(w.(ranges := w.ranges[t := [r]]))
  {
    var w' := w.(ranges := w.ranges[t := [r]]);
    CmpSame(r.low);
    CmpSame(r.high);
    forall x | x in w'.ranges ensures Nested(w', x) { if x != t { assert Nested(w, x); } }
    forall row | row in w'.rows || row in w'.edges ensures Apart(w', row) { assert Apart(w, row); }
  }

  lemma NarrowKeepsInv(w: World, t: Team, r: Range)
    requires Inv(w) && t in w.ranges && w.ranges[t] != [] && Current(w, t).Includes(r)
    ensures Inv(w.(ranges := w.ranges[t := w.ranges[t] + [r]]))
  {
    var w' := w.(ranges := w.ranges[t := w.ranges[t] + [r]]);
    NarrowNests(w, t, r);
    forall x | x in w'.ranges ensures Nested(w', x) { if x != t { assert Nested(w, x); } }
    forall row | row in w'.rows || row in w'.edges ensures Apart(w', row) { NarrowKeepsApart(w, t, r, row); }
  }

  /** A step that leaves the ranges alone and adds at most a request that is apart. */
  lemma SameRangesKeepInv(w: World, w': World, row: Row)
    requires Inv(w) && w'.ranges == w.ranges && Apart(w, row)
    requires w'.rows <= w.rows + w.edges + {row} && w'.edges <= w.rows + w.edges + {row}
    ensures Inv(w')
  {
    SameRanges(w, w');
    forall x | x in w'.rows || x in w'.edges ensures Apart(w', x) { assert Apart(w, x); }
  }

  lemma StepKeepsInv(w: World, a: Action)
    requires Inv(w) && Enabled(w, a)
    ensures Inv(After(w, a))
  {
    match a
    case Create(t, r) => CreateKeepsInv(w, t, r);
    case Narrow(t, r) => NarrowKeepsInv(w, t, r);
    case ExpandLocal(row, mv, pv) =>
      ViewsAreApart(w, row, mv, pv);
      SameRangesKeepInv(w, After(w, a), row);
    case ExpandRemote(row, claimed, mv, pv) =>
      var m, p := w.ranges[row.member][mv], w.ranges[row.parent][pv];
      CmpSymmetric(claimed.high, m.high);
      CmpChain(m.high, claimed.high, p.low);
      ViewsAreApart(w, row, mv, pv);
      SameRangesKeepInv(w, After(w, a), row);
    case Admit(row) => SameRangesKeepInv(w, After(w, a), row);
    case Leave(row) => SameRangesKeepInv(w, After(w, a), row);
  }

  lemma SameRanges(w: World, w': World)
    requires w'.ranges == w.ranges
    ensures forall t :: Nested(w, t) ==> Nested(w', t)
    ensures forall row :: Apart(w, row) ==> Apart(w', row)
  {
  }

  ghost predicate Run(ws: seq<World>, acts: seq<Action>) {
    && |ws| == |acts| + 1 && ws[0] == World(map[], {}, {})
    && forall i {:trigger acts[i]} :: 0 <= i < |acts| ==> Enabled(ws[i], acts[i]) && ws[i + 1] == After(ws[i], acts[i])
  }

  lemma {:induction false} RunKeepsInv(ws: seq<World>, acts: seq<Action>, n: nat)
    requires Run(ws, acts) && n < |ws|
    ensures Inv(ws[n])
  {
    if n > 0 {
      RunKeepsInv(ws, acts, n - 1);
      StepKeepsInv(ws[n - 1], acts[n - 1]);
    }
  }

  // ------------------------------------------------------------------- no cycles

  /** A walk upward through memberships. */
  ghost predicate Walk(w: World, path: seq<Team>) {
    |path| >= 1 && forall i :: 0 <= i < |path| - 1 ==> Row(path[i], path[i + 1]) in w.edges
  }

  ghost predicate Cycle(w: World, path: seq<Team>) {
    Walk(w, path) && |path| >= 2 && path[0] == path[|path| - 1]
  }

  ghost predicate UpsideDown(w: World, t: Team) {
    t in w.ranges && w.ranges[t] != [] && !Current(w, t).WellFormed()
  }

  lemma {:induction false} WalkClimbs(w: World, path: seq<Team>, n: nat)
    requires Inv(w) && Walk(w, path) && 1 <= n < |path|
    requires forall i :: 0 <= i < |path| ==> !UpsideDown(w, path[i])
    ensures Nested(w, path[0]) && Nested(w, path[n]) && Cmp(Current(w, path[0]).low, Current(w, path[n]).low) < 0
  {
    var edge := Row(path[n - 1], path[n]);
    assert Row(path[n - 1], path[n - 1 + 1]) in w.edges;
    assert Apart(w, edge);
    var a, b := Current(w, path[n - 1]), Current(w, path[n]);
    CmpChain(a.low, a.high, b.low);
    if n > 1 {
      WalkClimbs(w, path, n - 1);
      CmpChain(Current(w, path[0]).low, a.low, b.low);
    }
  }

  /**
   In every reachable state each member team's range lies below its parent's, and a
   membership cycle can only run through a team whose own range is upside down.
   */
  lemma NoCycleAmongWellFormed(ws: seq<World>, acts: seq<Action>, n: nat, path: seq<Team>)
    requires Run(ws, acts) && n < |ws| && Cycle(ws[n], path)
    ensures exists i :: 0 <= i < |path| && UpsideDown(ws[n], path[i])
  {
    var w := ws[n];
    RunKeepsInv(ws, acts, n);
    if forall i :: 0 <= i < |path| ==> !UpsideDown(w, path[i]) {
      WalkClimbs(w, path, |path| - 1);
      CmpSame(Current(w, path[0]).low);
      assert false;
    }
  }

  lemma MembersLieBelow(ws: seq<World>, acts: seq<Action>, n: nat, row: Row)
    requires Run(ws, acts) && n < |ws| && row in ws[n].edges
    ensures Nested(ws[n], row.member) && Nested(ws[n], row.parent)
    ensures Current(ws[n], row.member).LessThan(Current(ws[n], row.parent))
  {
    RunKeepsInv(ws, acts, n);
    assert Apart(ws[n], row);
  }

  /**
   The server reads every new range back, and thereby validates it, in the transaction
   that stores it (server/engine/team_admin.go, `runEditCommon`).
   */
  ghost predicate ServerTakes(a: Action) {
    match a
    case Create(_, r) => r.WellFormed()
    case Narrow(_, r) => r.WellFormed()
    case ExpandLocal(_, _, _) => true
    case ExpandRemote(_, _, _, _) => true
    case Admit(_) => true
    case Leave(_) => true
  }

  lemma {:induction false} ServersKeepRangesWellFormed(ws: seq<World>, acts: seq<Action>, n: nat, t: Team)
    requires Run(ws, acts) && n < |ws| && forall i :: 0 <= i < n ==> ServerTakes(acts[i])
    requires t in ws[n].ranges
    ensures ws[n].ranges[t] != [] && Current(ws[n], t).WellFormed()
  {
    if n > 0 {
      var a := acts[n - 1];
      if !((a.Create? || a.Narrow?) && a.team == t) {
        ServersKeepRangesWellFormed(ws, acts, n - 1, t);
      }
    }
  }

  /** With servers that validate, no run ever makes a cycle, whatever views the admins had. */
  lemma ServersKeepGraphAcyclic(ws: seq<World>, acts: seq<Action>, n: nat, path: seq<Team>)
    requires Run(ws, acts) && n < |ws| && forall i :: 0 <= i < n ==> ServerTakes(acts[i])
    ensures !Cycle(ws[n], path)
  {
    if Cycle(ws[n], path) {
      NoCycleAmongWellFormed(ws, acts, n, path);
      var i :| 0 <= i < |path| && UpsideDown(ws[n], path[i]);
      ServersKeepRangesWellFormed(ws, acts, n, path[i]);
    }
  }

  // ------------------------------------------- why the client's own checks are not enough

  ghost predicate Reachable(w: World) {
    exists ws, acts :: Run(ws, acts) && ws[|acts|] == w
  }

  lemma ReachOneMore(w: World, a: Action)
    requires Reachable(w) && Enabled(w, a)
    ensures Reachable(After(w, a))
  {
    var ws, acts :| Run(ws, acts) && ws[|acts|] == w;
    var ws', acts' := ws + [After(w, a)], acts + [a];
    forall i {:trigger acts'[i]} | 0 <= i < |acts'|
      ensures Enabled(ws'[i], acts'[i]) && ws'[i + 1] == After(ws'[i], acts'[i])
    {
      if i < |acts| { assert acts'[i] == acts[i]; }
    }
    assert Run(ws', acts');
  }

  /** Small whole numbers compare as expected. */
  lemma SingleDigits(a: Byte, b: Byte)
    ensures Cmp(Finite([a], 0), Finite([b], 0)) == if a < b then -1 else if a == b then 0 else 1
  {
    var x, y := Finite([a], 0), Finite([b], 0);
    assert x.PlaceValue(1) == a && y.PlaceValue(1) == b && x.PlaceValue(0) == 0 && y.PlaceValue(0) == 0;
    assert CmpFrom(x, y, 0, 0) == 0;
  }

  const CROSSED := Range(Finite([5], 0), Finite([1], 0))
  const TWO_TO_THREE := Range(Finite([2], 0), Finite([3], 0))

  lemma CrossedRangesMeet()
    ensures CROSSED.LessThan(TWO_TO_THREE) && TWO_TO_THREE.LessThan(CROSSED) && !CROSSED.WellFormed()
    ensures DEFAULT_RANGE.Includes(CROSSED) && !DEFAULT_RANGE.Equals(CROSSED)
  {
    SingleDigits(1, 2);
    SingleDigits(3, 5);
    SingleDigits(5, 1);
    SingleDigits(1, 5);
  }

  /** A team with some range. */
  lemma OneTeam(a: Range) returns (w: World)
    ensures Reachable(w) && w == World(map[0 := [a]], {}, {})
  {
    w := World(map[], {}, {});
    assert Run([w], []);
    ReachOneMore(w, Create(0, a));
    w := After(w, Create(0, a));
  }

  /** A team that has narrowed its range, and another one. */
  lemma TwoTeams(a: Range, b: Range, other: Range) returns (w: World)
    requires a.Includes(b) && !a.Equals(b)
    ensures Reachable(w) && w.ranges == map[0 := [a, b], 1 := [other]] && w.edges == {}
  {
    w := OneTeam(a);
    ReachOneMore(w, Narrow(0, b));
    w := After(w, Narrow(0, b));
    assert [a] + [b] == [a, b];
    ReachOneMore(w, Create(1, other));
    w := After(w, Create(1, other));
  }

  /**
   By the client's checks alone, a team whose range is narrowed until its ends cross can
   be both below and above another one.
   */
  lemma CrossedRangeAllowsCycle() returns (w: World)
    ensures Reachable(w) && Cycle(w, [0, 1, 0])
  {
    CrossedRangesMeet();
    w := TwoTeams(DEFAULT_RANGE, CROSSED, TWO_TO_THREE);
    w := MutuallyBelowAdmitCycle(w, 0, 1);
  }

  lemma MutuallyBelowAdmitCycle(w: World, t: Team, u: Team) returns (w': World)
    requires Reachable(w) && t in w.ranges && w.ranges[t] != [] && u in w.ranges && w.ranges[u] != []
    requires Current(w, t).LessThan(Current(w, u)) && Current(w, u).LessThan(Current(w, t))
    ensures Reachable(w') && w'.ranges == w.ranges && Cycle(w', [t, u, t])
  {
    w' := Join(w, Row(t, u), |w.ranges[t]| - 1, |w.ranges[u]| - 1);
    w' := Join(w', Row(u, t), |w.ranges[u]| - 1, |w.ranges[t]| - 1);
  }

  lemma Join(w: World, row: Row, mv: nat, pv: nat) returns (w': World)
    requires Reachable(w) && Known(w, row.member, mv) && Known(w, row.parent, pv)
    requires w.ranges[row.member][mv].LessThan(w.ranges[row.parent][pv])
    ensures Reachable(w') && w'.ranges == w.ranges && w'.edges == w.edges + {row}
  {
    ReachOneMore(w, ExpandLocal(row, mv, pv));
    w' := After(w, ExpandLocal(row, mv, pv));
    ReachOneMore(w', Admit(row));
    w' := After(w', Admit(row));
  }

  /** A range that is upside down lies below itself, so its team passes the check to join itself. */
  lemma UpsideDownAdmitsCycle(w: World, t: Team) returns (w': World)
    requires Reachable(w) && UpsideDown(w, t)
    ensures Reachable(w') && w'.ranges == w.ranges && Cycle(w', [t, t])
  {
    var last := |w.ranges[t]| - 1;
    CmpSymmetric(Current(w, t).low, Current(w, t).high);
    w' := Join(w, Row(t, t), last, last);
  }

  /** With the ranges as they are, the client's checks admit a cycle exactly if some range is upside down. */
  lemma CycleAdmittedIffUpsideDown(w: World)
    requires Reachable(w)
    ensures (exists w', path :: Reachable(w') && w'.ranges == w.ranges && Cycle(w', path)) <==>
              exists t :: UpsideDown(w, t)
  {
    if w', path :| Reachable(w') && w'.ranges == w.ranges && Cycle(w', path) {
      var ws, acts :| Run(ws, acts) && ws[|acts|] == w';
      NoCycleAmongWellFormed(ws, acts, |acts|, path);
      var i :| 0 <= i < |path| && UpsideDown(w', path[i]);
      assert UpsideDown(w, path[i]);
    }
    if t :| UpsideDown(w, t) {
      var w' := UpsideDownAdmitsCycle(w, t);
    }
  }
}
