/**
 Finding a view token (`makeViewToken` in client/libclient/team_loader.go). The server
 grants a token for one generation of the loader's own key, not always the newest it
 has, so the loader tries generations until one is accepted.
 */
module ViewTokens {
  import opened Common

  /** A token, and the team the server says it is for. */
  datatype Token = Token(id: nat, team: nat)

  /** The server's answer to a challenge for one generation. */
  datatype Answer = Granted(token: Token) | Denied(reason: nat) | Failed(code: nat)

  datatype TokenError = NoKeys | WrongTeam | Permission(reason: nat) | Other(code: nat)

  /** What refreshing the loader's keys yields: a failure, or how many generations there are now (0 if none). */
  datatype Refreshed = RefreshFailed(code: nat) | Keys(count: nat)

  /** The newest generation worth trying once the first attempt was denied. */
  function Top(newest: nat, refresh: Option<Refreshed>): (t: nat)
    ensures t >= newest
  {
    match refresh
    case Some(Keys(count)) => if newest < count then count else newest
    case _ => newest
  }

  /** The outcome of trying `gen`, `gen - 1`, ... 1, leaving out `done`. */
  function Descend(answer: nat -> Answer, gen: nat, done: nat, firstErr: TokenError)
    : (r: Result<(Token, nat), TokenError>)
    decreases gen
  {
    if gen == 0 then Err(firstErr)
    else if gen == done then Descend(answer, gen - 1, done, firstErr)
    else
      match answer(gen)
      case Granted(tok) => Ok((tok, gen))
      case Failed(code) => Err(Other(code))
      case Denied(_) => Descend(answer, gen - 1, done, firstErr)
  }

  /** The whole search: the newest key first, then a refresh, then everything below. */
  function Search(answer: nat -> Answer, newest: nat, refresh: Option<Refreshed>)
    : (r: Result<(Token, nat), TokenError>)
  {
    if newest == 0 then Err(NoKeys)
    else
      match answer(newest)
      case Granted(tok) => Ok((tok, newest))
      case Failed(code) => Err(Other(code))
      case Denied(reason) =>
        if refresh.Some? && refresh.value.RefreshFailed? then Err(Other(refresh.value.code))
        else Descend(answer, Top(newest, refresh), newest, Permission(reason))
  }

  class TeamLoader {
    var keys: nat                 // generations 1..keys of the loader's own key
    var team: Option<nat>         // the team to load, unless it is only known by name
    var voTok: Option<Token>
    var voTokGen: nat
    var tried: set<nat>
    ghost var challenged: seq<nat>

    constructor (keys: nat, team: Option<nat>)
      ensures this.keys == keys && this.team == team && voTok == None && tried == {} && challenged == []
    {
      this.keys, this.team, voTok, voTokGen, tried, challenged := keys, team, None, 0, {}, [];
    }

    /** No generation is challenged twice. */
    ghost predicate Valid()
      reads this
    {
      && (forall g :: g in tried <==> g in challenged)
      && (forall i, j :: 0 <= i < j < |challenged| ==> challenged[i] != challenged[j])
    }

    /** `tokAtGen`: challenges a generation unless it was challenged before. */
    method TokenAt(gen: nat, answer: nat -> Answer) returns (a: Answer)
      requires Valid()
      modifies this`tried, this`challenged
      ensures Valid()
      ensures gen in old(tried) ==> a.Denied? && tried == old(tried) && challenged == old(challenged)
      ensures gen !in old(tried) ==>
                a == answer(gen) && tried == old(tried) + {gen} && challenged == old(challenged) + [gen]
    {
      if gen in tried { return Denied(0); }
      tried := tried + {gen};
      challenged := challenged + [gen];
      return answer(gen);
    }

    /**
     Records the token the search finds, with the generation it was granted for, unless
     it is for another team than the one asked for. It challenges every generation once
     at most; when it gives up for want of permission, it has challenged all of them.
     */
    method MakeViewToken(answer: nat -> Answer, refresher: Option<Refreshed>) returns (r: Result<Token, TokenError>)
      requires tried == {} && challenged == []
      modifies this
      ensures Valid() && keys >= old(keys)
      ensures match Search(answer, old(keys), refresher)
              case Ok(found) =>
                if old(team).Some? && old(team).value != found.0.team then r == Err(WrongTeam)
                  else r == Ok(found.0) && voTokGen == found.1
              case Err(e) => r == Err(e)
      ensures r.Ok? ==> voTok == Some(r.value) && team == Some(r.value.team) && (old(team).Some? ==> team == old(team))
      ensures r.Ok? ==> challenged != [] && challenged[|challenged| - 1] == voTokGen
      ensures r.Err? ==> voTok == old(voTok) && voTokGen == old(voTokGen) && team == old(team)
      ensures r.Err? && r.error.Permission? ==> forall g :: g in challenged <==> 1 <= g <= Top(old(keys), refresher)
    {
      var found := FindToken(answer, refresher);
      if found.Err? { return Err(found.error); }
      var tok := found.value.0;
      if team.Some? && team.value != tok.team { return Err(WrongTeam); }
      team, voTok, voTokGen := Some(tok.team), Some(tok), found.value.1;
      return Ok(tok);
    }

    /** `findTok`: the newest generation, a refresh of the keys, then the retries. */
    method FindToken(answer: nat -> Answer, refresher: Option<Refreshed>) returns (r: Result<(Token, nat), TokenError>)
      requires tried == {} && challenged == []
      modifies this`tried, this`challenged, this`keys
      ensures Valid() && keys >= old(keys)
      ensures r == Search(answer, old(keys), refresher)
      ensures r.Ok? ==> challenged != [] && challenged[|challenged| - 1] == r.value.1
      ensures r.Err? && r.error.Permission? ==> forall g :: g in challenged <==> 1 <= g <= Top(old(keys), refresher)
    {
      if keys == 0 { return Err(NoKeys); }
      var newest := keys;
      var gen := newest;
      var first := TokenAt(gen, answer);
      if first.Granted? { return Ok((first.token, gen)); }
      if first.Failed? { return Err(Other(first.code)); }
      if refresher.Some? {
        if refresher.value.RefreshFailed? { return Err(Other(refresher.value.code)); }
        if gen < refresher.value.count {
          keys := refresher.value.count;
          gen := refresher.value.count + 1;
        }
      }
      r := Retry(gen, newest, Top(newest, refresher), first.reason, answer);
    }

    /** The retry loop: from just below `gen` down to generation 1. */
    method Retry(gen0: nat, newest: nat, ghost top: nat, reason: nat, answer: nat -> Answer)
      returns (r: Result<(Token, nat), TokenError>)
      requires Valid() && 1 <= gen0 <= top + 1 && newest <= top
      requires forall g :: g in tried <==> g == newest || gen0 <= g <= top
      modifies this`tried, this`challenged
      ensures Valid() && r == Descend(answer, gen0 - 1, newest, Permission(reason))
      ensures r.Err? && r.error.Permission? ==> forall g :: g in challenged <==> 1 <= g <= top || g == newest
      ensures r.Ok? ==> challenged != [] && challenged[|challenged| - 1] == r.value.1
    {
      var gen := gen0;
      while gen > 1
        invariant 1 <= gen <= gen0 && Valid()
        invariant forall g :: g in tried <==> g == newest || gen <= g <= top
        invariant Descend(answer, gen - 1, newest, Permission(reason))
               == Descend(answer, gen0 - 1, newest, Permission(reason))
      {
        gen := gen - 1;
        var a := TokenAt(gen, answer);
        if a.Granted? { return Ok((a.token, gen)); }
        if a.Failed? { return Err(Other(a.code)); }
      }
      return Err(Permission(reason));
    }
  }

  // --------------------------------------------------------- what the search finds

  /** Absent other failures, the descent finds the highest generation that is granted, or none is. */
  lemma {:induction false} DescendFinds(answer: nat -> Answer, gen: nat, done: nat, e: TokenError)
    requires forall g :: 1 <= g <= gen ==> !answer(g).Failed?
    requires 1 <= done <= gen ==> answer(done).Denied?
    ensures Descend(answer, gen, done, e).Ok? ==>
              var g := Descend(answer, gen, done, e).value.1;
              && 1 <= g <= gen && answer(g) == Granted(Descend(answer, gen, done, e).value.0)
              && forall h :: g < h <= gen ==> answer(h).Denied?
    ensures Descend(answer, gen, done, e).Err? ==>
              Descend(answer, gen, done, e) == Err(e) && forall h :: 1 <= h <= gen ==> answer(h).Denied?
    decreases gen
  {
    if gen > 0 && answer(gen).Denied? { DescendFinds(answer, gen - 1, done, e); }
  }

  /**
   Unless something other than permission fails, a token is found exactly when some
   generation up to the newest known one is accepted; otherwise the first refusal is
   reported.
   */
  lemma SearchFindsToken(answer: nat -> Answer, newest: nat, refresh: Option<Refreshed>)
    requires newest >= 1 && (refresh.Some? ==> refresh.value.Keys?)
    requires forall g :: 1 <= g <= Top(newest, refresh) ==> !answer(g).Failed?
    ensures Search(answer, newest, refresh).Ok? <==> exists g :: 1 <= g <= Top(newest, refresh) && answer(g).Granted?
    ensures Search(answer, newest, refresh).Ok? ==>
              answer(Search(answer, newest, refresh).value.1) == Granted(Search(answer, newest, refresh).value.0)
    ensures Search(answer, newest, refresh).Err? ==>
              answer(newest).Denied? && Search(answer, newest, refresh) == Err(Permission(answer(newest).reason))
  {
    if answer(newest).Denied? {
      DescendFinds(answer, Top(newest, refresh), newest, Permission(answer(newest).reason));
    } else {
      assert answer(newest).Granted?;
    }
  }
}
