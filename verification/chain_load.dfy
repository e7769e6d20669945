/**
 Verified chain loading (client/libclient/base_chain_loader.go): a chain of links
 is checked link by link, and against a Merkle tree in which each link sits at a
 hidden location that the link before it commits to. Hashes and commitments are
 symbolic and injective; the location-to-key hash can be any function.
 */
module ChainLoad {
  import opened Common
  import opened Merkle

  datatype Location = Location(id: nat)
  datatype Commitment = CommitmentTo(loc: Location)

  /** A link with the parts of its chainer that loading looks at. */
  datatype Link = Link(seqno: nat, prev: Option<LinkHash>, nextLoc: Commitment, body: nat)
  datatype LinkHash = HashOfLink(link: Link)

  datatype RFInput = RFInput(seqno: nat, entity: nat, chainType: nat, loc: Option<Location>)

  datatype ChainError = BadSeqno | BadPrev | PrevIffEldest | BadCount | BadLocation | NoLocation | BadPath | BadLeaf

  const FIRST_SEQNO := 1

  function Hashes(links: seq<Link>): (h: seq<LinkHash>)
    ensures |h| == |links| && forall i :: 0 <= i < |links| ==> h[i] == HashOfLink(links[i])
  {
    seq(|links|, i requires 0 <= i < |links| => HashOfLink(links[i]))
  }

  // ---------------------------------------------------------------- chain order

  /** The hash link `i` must point back to. */
  function PrevAt(prev: Option<LinkHash>, links: seq<Link>, i: nat): (p: Option<LinkHash>)
    requires i <= |links|
  {
    if i == 0 then prev else Some(HashOfLink(links[i - 1]))
  }

  function LinkError(prev: Option<LinkHash>, seqno: nat, links: seq<Link>, i: nat): (e: Option<ChainError>)
    requires i < |links|
  {
    if links[i].seqno != seqno + i then Some(BadSeqno)
    else if links[i].prev != PrevAt(prev, links, i) then Some(BadPrev)
    else if (seqno + i == FIRST_SEQNO) != PrevAt(prev, links, i).None? then Some(PrevIffEldest)
    else None
  }

  /** Numbered consecutively from `seqno`, each pointing at the one before, and only the first at nothing. */
  predicate ChainOk(prev: Option<LinkHash>, seqno: nat, links: seq<Link>) {
    forall i :: 0 <= i < |links| ==> LinkError(prev, seqno, links, i).None?
  }

  // --------------------------------------------------------------- Merkle paths

  /** What a load is about, apart from what the server sends. */
  datatype Query = Query(
    root: Hash<LinkHash>, entity: nat, chainType: nat, isParty: bool,
    ntlc: Option<Commitment>,   // commitment to the first location, from the last link already known
    seqno: nat, loc0: Option<Location>, keyHash: RFInput -> Bits)

  /** What the server sends. */
  datatype Load = Load(links: seq<Link>, locations: seq<Location>, paths: seq<Path<LinkHash>>)

  predicate CountsOk(q: Query, l: Load) {
    |l.paths| == |l.links| + 1 && |l.locations| == if q.ntlc.Some? then |l.paths| else |l.paths| - 1
  }

  function CommitmentAt(q: Query, l: Load, i: nat): (c: Option<Commitment>)
    requires i <= |l.links|
  {
    if i == 0 then q.ntlc else Some(l.links[i - 1].nextLoc)
  }

  function LocationAt(q: Query, l: Load, i: nat): (loc: Option<Location>)
    requires CountsOk(q, l) && i <= |l.links|
  {
    if CommitmentAt(q, l, i).Some? then Some(l.locations[if q.ntlc.Some? then i else i - 1]) else q.loc0
  }

  function LocationError(q: Query, l: Load, i: nat): (e: Option<ChainError>)
    requires CountsOk(q, l) && i <= |l.links|
  {
    match CommitmentAt(q, l, i)
    case Some(c) => if CommitmentTo(LocationAt(q, l, i).value) != c then Some(BadLocation) else None
    case None => if q.loc0.None? && !(q.isParty && q.seqno + i == FIRST_SEQNO) then Some(NoLocation) else None
  }

  function KeyAt(q: Query, l: Load, i: nat): (k: Bits)
    requires CountsOk(q, l) && i <= |l.links|
  {
    (q.keyHash)(RFInput(q.seqno + i, q.entity, q.chainType, LocationAt(q, l, i)))
  }

  /** Step `i` passes: the link's hash is at its place, and after the last link there is nothing. */
  ghost predicate StepOk(q: Query, l: Load, hashes: seq<LinkHash>, i: nat)
    requires CountsOk(q, l) && i <= |l.links| <= |hashes|
  {
    && LocationError(q, l, i).None?
    && if i < |l.links| then VerifiesPresence(q.root, KeyAt(q, l, i), l.paths[i], hashes[i])
       else VerifiesAbsence(q.root, KeyAt(q, l, i), l.paths[i])
  }

  ghost predicate PathsOk(q: Query, l: Load, hashes: seq<LinkHash>)
    requires |l.links| <= |hashes|
  {
    CountsOk(q, l) && forall i :: 0 <= i <= |l.links| ==> StepOk(q, l, hashes, i)
  }

  class BaseChainLoader {
    var linkHashes: seq<LinkHash>
    var lastHash: Option<LinkHash>
    var merkleLeaves: seq<(Bits, LinkHash)>

    constructor ()
      ensures linkHashes == [] && lastHash == None && merkleLeaves == []
    {
      linkHashes, lastHash, merkleLeaves := [], None, [];
    }

    /** Accepts exactly the chains in order; otherwise reports the first fault and keeps the old last hash. */
    method CheckChain(prev0: Option<LinkHash>, seqno0: nat, links: seq<Link>) returns (r: Result<(), ChainError>)
      modifies this`linkHashes, this`lastHash
      ensures r.Ok? <==> ChainOk(prev0, seqno0, links)
      ensures r.Ok? ==> linkHashes == old(linkHashes) + Hashes(links) && lastHash == PrevAt(prev0, links, |links|)
      ensures r.Err? ==> lastHash == old(lastHash)
      ensures r.Err? ==> exists i :: && 0 <= i < |links| && LinkError(prev0, seqno0, links, i) == Some(r.error)
                                     && ChainOk(prev0, seqno0, links[..i])
    {
      var prev, seqno := prev0, seqno0;
      for i := 0 to |links|
        invariant seqno == seqno0 + i && prev == PrevAt(prev0, links, i)
        invariant lastHash == old(lastHash) && linkHashes == old(linkHashes) + Hashes(links[..i])
        invariant forall j :: 0 <= j < i ==> LinkError(prev0, seqno0, links, j).None?
      {
        assert ChainOk(prev0, seqno0, links[..i]) by { PrefixErrors(prev0, seqno0, links, i); }
        var link := links[i];
        ghost var bad := LinkError(prev0, seqno0, links, i);
        if link.seqno != seqno { return Err(BadSeqno); }
        linkHashes := linkHashes + [HashOfLink(link)];
        if link.prev != prev { return Err(BadPrev); }
        if (seqno == FIRST_SEQNO) != prev.None? { return Err(PrevIffEldest); }
        assert Hashes(links[..i + 1]) == Hashes(links[..i]) + [HashOfLink(link)];
        prev := Some(HashOfLink(link));
        seqno := seqno + 1;
      }
      assert links[..|links|] == links;
      lastHash := prev;
      return Ok(());
    }

    /**
     Accepts exactly the loads whose every step passes, comparing leaves with the
     hashes recorded since the loader was made.
     */
    method CheckMerklePaths(q: Query, l: Load) returns (r: Result<(), ChainError>)
      requires |l.links| <= |linkHashes|
      modifies this`merkleLeaves
      ensures r.Ok? <==> PathsOk(q, l, linkHashes)
      ensures r.Ok? ==> |merkleLeaves| == |old(merkleLeaves)| + |l.links| && old(merkleLeaves) <= merkleLeaves
      ensures r.Ok? ==> forall i :: 0 <= i < |l.links| ==>
                merkleLeaves[|old(merkleLeaves)| + i] == (KeyAt(q, l, i), linkHashes[i])
    {
      if |l.paths| != |l.links| + 1 { return Err(BadCount); }
      if (if q.ntlc.Some? then |l.paths| else |l.paths| - 1) != |l.locations| { return Err(BadCount); }
      for i := 0 to |l.paths|
        invariant forall j :: 0 <= j < i ==> StepOk(q, l, linkHashes, j)
        invariant old(merkleLeaves) <= merkleLeaves
        invariant |merkleLeaves| == |old(merkleLeaves)| + if i <= |l.links| then i else |l.links|
        invariant forall j :: 0 <= j < i && j < |l.links| ==>
                  merkleLeaves[|old(merkleLeaves)| + j] == (KeyAt(q, l, j), linkHashes[j])
      {
        var bad := LocationError(q, l, i);
        ghost var good := StepOk(q, l, linkHashes, i);
        if bad.Some? { return Err(bad.value); }
        var key, last := KeyAt(q, l, i), i == |l.links|;
        if l.paths[i].terminal.KeyWasFound() == last { return Err(BadPath); }
        var ok := VerifyPath(q.root, key, l.paths[i]);
        if !ok { return Err(BadPath); }
        if !last {
          if l.paths[i].terminal.value != linkHashes[i] { return Err(BadLeaf); }
          merkleLeaves := merkleLeaves + [(key, linkHashes[i])];
        }
      }
      return Ok(());
    }

    /** One attempt on a fresh loader. */
    method Check(prev: Option<LinkHash>, q: Query, l: Load) returns (r: Result<(), ChainError>)
      requires linkHashes == []
      modifies this
      ensures r.Ok? <==> ChainOk(prev, q.seqno, l.links) && PathsOk(q, l, Hashes(l.links))
      ensures r.Ok? ==> lastHash == PrevAt(prev, l.links, |l.links|)
    {
      r := CheckChain(prev, q.seqno, l.links);
      if r.Ok? {
        assert linkHashes == Hashes(l.links);
        r := CheckMerklePaths(q, l);
      }
    }
  }

  lemma PrefixErrors(prev: Option<LinkHash>, seqno: nat, links: seq<Link>, n: nat)
    requires n <= |links|
    ensures forall i :: 0 <= i < n ==> LinkError(prev, seqno, links[..n], i) == LinkError(prev, seqno, links, i)
  {
  }

  // ----------------------------------------------------------------- uniqueness

  /** As long as two accepted loads agree so far, they look for the next link in the same place. */
  lemma SameLocation(q: Query, l1: Load, l2: Load, i: nat)
    requires CountsOk(q, l1) && CountsOk(q, l2) && i <= |l1.links| && i <= |l2.links|
    requires LocationError(q, l1, i).None? && LocationError(q, l2, i).None?
    requires i > 0 ==> l1.links[i - 1] == l2.links[i - 1]
    ensures LocationAt(q, l1, i) == LocationAt(q, l2, i) && KeyAt(q, l1, i) == KeyAt(q, l2, i)
  {
  }

  lemma {:induction false} SameSoFar(q: Query, l1: Load, l2: Load, n: nat)
    requires PathsOk(q, l1, Hashes(l1.links)) && PathsOk(q, l2, Hashes(l2.links))
    requires n <= |l1.links|
    ensures n <= |l2.links| && forall i :: 0 <= i < n ==> l1.links[i] == l2.links[i]
  {
    if n > 0 {
      SameSoFar(q, l1, l2, n - 1);
      assert StepOk(q, l1, Hashes(l1.links), n - 1) && StepOk(q, l2, Hashes(l2.links), n - 1);
      SameLocation(q, l1, l2, n - 1);
      var key, h1 := KeyAt(q, l1, n - 1), HashOfLink(l1.links[n - 1]);
      RootIsBinding(q.root, key, l1.paths[n - 1], h1, l2.paths[n - 1],
                    if n <= |l2.links| then HashOfLink(l2.links[n - 1]) else h1);
    }
  }

  /**
   One root admits one chain: two loads accepted for the same query have the same
   links. No fork is accepted, and no truncation, since the end is proved absent.
   */
  lemma AcceptedChainIsUnique(q: Query, l1: Load, l2: Load)
    requires PathsOk(q, l1, Hashes(l1.links)) && PathsOk(q, l2, Hashes(l2.links))
    ensures l1.links == l2.links && l1.locations == l2.locations
  {
    SameSoFar(q, l1, l2, |l1.links|);
    SameSoFar(q, l2, l1, |l2.links|);
    forall i | 0 <= i <= |l1.links| && CommitmentAt(q, l1, i).Some?
      ensures LocationAt(q, l1, i) == LocationAt(q, l2, i)
    {
      assert StepOk(q, l1, Hashes(l1.links), i) && StepOk(q, l2, Hashes(l2.links), i);
      SameLocation(q, l1, l2, i);
    }
    forall k | 0 <= k < |l1.locations| ensures l1.locations[k] == l2.locations[k] {
      var i := if q.ntlc.Some? then k else k + 1;
      assert LocationAt(q, l1, i) == LocationAt(q, l2, i);
    }
  }

  /**
   A loader that kept hashes from an earlier attempt compares leaves with the wrong
   hashes: it accepts a good load exactly when the kept hashes happen to line up.
   */
  lemma ReusedLoaderAcceptsIff(q: Query, l: Load, kept: seq<LinkHash>)
    requires PathsOk(q, l, Hashes(l.links))
    ensures PathsOk(q, l, kept + Hashes(l.links)) <==>
            forall i :: 0 <= i < |l.links| ==> (kept + Hashes(l.links))[i] == HashOfLink(l.links[i])
  {
    var all := kept + Hashes(l.links);
    forall i | 0 <= i <= |l.links|
      ensures StepOk(q, l, all, i) <==> (i < |l.links| ==> all[i] == HashOfLink(l.links[i]))
    {
      assert StepOk(q, l, Hashes(l.links), i);
    }
  }

  // --------------------------------------------------------------- completeness

  /** The tree holds this chain from `seqno` on and nothing after it. */
  ghost predicate TreeHolds(t: Tree<LinkHash>, q: Query, l: Load)
    requires CountsOk(q, l)
  {
    && (forall i :: 0 <= i <= |l.links| ==> Proper(t, |KeyAt(q, l, i)|, []))
    && (forall i :: 0 <= i < |l.links| ==> Merkle.Holds(t, KeyAt(q, l, i), HashOfLink(l.links[i])))
    && (forall h :: !Merkle.Holds(t, KeyAt(q, l, |l.links|), h))
  }

  /** The honest server's paths for an honest tree are accepted. */
  lemma HonestLoadIsAccepted(t: Tree<LinkHash>, q: Query, l: Load)
    requires q.root == TreeHash(t, 0) && CountsOk(q, l) && TreeHolds(t, q, l)
    requires forall i :: 0 <= i <= |l.links| ==> LocationError(q, l, i).None?
    requires forall i :: 0 <= i <= |l.links| ==> l.paths[i] == Prove(t, KeyAt(q, l, i), 0)
    ensures PathsOk(q, l, Hashes(l.links))
  {
    forall i | 0 <= i <= |l.links| ensures StepOk(q, l, Hashes(l.links), i) { HonestStepIsAccepted(t, q, l, i); }
  }

  lemma HonestStepIsAccepted(t: Tree<LinkHash>, q: Query, l: Load, i: nat)
    requires q.root == TreeHash(t, 0) && CountsOk(q, l) && i <= |l.links| && LocationError(q, l, i).None?
    requires Proper(t, |KeyAt(q, l, i)|, []) && l.paths[i] == Prove(t, KeyAt(q, l, i), 0)
    requires if i < |l.links| then Merkle.Holds(t, KeyAt(q, l, i), HashOfLink(l.links[i]))
             else forall h :: !Merkle.Holds(t, KeyAt(q, l, i), h)
    ensures StepOk(q, l, Hashes(l.links), i)
  {
    var key := KeyAt(q, l, i);
    ProofHashes(t, key, []);
    if i < |l.links| {
      ProofFinds(t, key, [], HashOfLink(l.links[i]));
    } else if l.paths[i].terminal.KeyWasFound() {
      ProofFinds(t, key, [], l.paths[i].terminal.value);
    }
  }

  /** An honest load of one link, which a fresh loader accepts and one that kept another hash refuses. */
  lemma KeptHashRefusesGoodLoad(kept: LinkHash)
    ensures var link := Link(FIRST_SEQNO, None, CommitmentTo(Location(0)), 0);
            var t := TreeLeaf([true], HashOfLink(link));
            var q := Query(TreeHash(t, 0), 0, 0, true, None, FIRST_SEQNO, None, FirstOnly);
            var l := Load([link], [Location(0)], [Prove(t, [true], 0), Prove(t, [false], 0)]);
            && PathsOk(q, l, Hashes(l.links))
            && (PathsOk(q, l, [kept] + Hashes(l.links)) <==> kept == HashOfLink(link))
  {
    var link := Link(FIRST_SEQNO, None, CommitmentTo(Location(0)), 0);
    var t := TreeLeaf([true], HashOfLink(link));
    var q := Query(TreeHash(t, 0), 0, 0, true, None, FIRST_SEQNO, None, FirstOnly);
    var l := Load([link], [Location(0)], [Prove(t, [true], 0), Prove(t, [false], 0)]);
    assert KeyAt(q, l, 0) == [true] && KeyAt(q, l, 1) == [false];
    HonestLoadIsAccepted(t, q, l);
    ReusedLoaderAcceptsIff(q, l, [kept]);
    assert ([kept] + Hashes(l.links))[0] == kept;
  }

  /** Puts the first link at one key and everything else at the other. */
  function FirstOnly(input: RFInput): (key: Bits) { [input.seqno == FIRST_SEQNO] }
}
