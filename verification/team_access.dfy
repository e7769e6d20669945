/**
 Who can open what after a history of team edits: a loader opens a role exactly
 when it can look up the sender of the newest box, which runs keep that, and
 what a member can derive from everything the server stores.
 */
module TeamAccess {
  import opened Common
  import opened Roles
  import opened SeedChains
  import opened Derivation
  import opened Keyring
  import opened Gameplans
  import opened TeamEdit
  import opened TeamHistory

  // ----------------------------------------------------------------- loading

  /** What the server sends a member for one role: its newest box and the chain links above `have`. */
  ghost function ParcelFor(t: Team, k: Slot, have: nat): (p: Parcel)
    requires k in t.boxes && k.role in t.roles && have <= |t.roles[k.role].chain|
  {
    var b := t.boxes[k];
    Parcel(k.gen, k.role, b.receiver.gen, b, b.sender, t.roles[k.role].chain[have..])
  }

  /** A member holding generations 1..own of its own key, with the team's roster loaded. */
  ghost function EnvOf(t: Team, m: MemberID, own: nat): (env: UnboxEnv) {
    UnboxEnv(seq(own, i requires 0 <= i => PartyKey(m, i + 1)),
             RosterKeys(t.verifyKeys, map x | x in t.roster :: t.roster[x].gen))
  }

  ghost function PubOf(keys: seq<SharedKey>): (pub: seq<PublicKey>)
    ensures Publishes(pub, keys)
  {
    seq(|keys|, i requires 0 <= i < |keys| => Publicize(keys[i]))
  }

  /** The key is the newest one its owner has in the roster. */
  ghost predicate KeyIsCurrent(t: Team, k: PartyKey) {
    k.member in t.roster && t.roster[k.member].gen == k.gen
  }

  lemma {:induction false} ChainOfTail(keys: seq<SharedKey>, have: nat, n: nat)
    requires have < n <= |keys|
    ensures |ChainOf(keys, 0, n)| == n - 1 && ChainOf(keys, 0, n)[have..] == ChainOf(keys, have, n)
    decreases n
  {
    if have + 1 < n {
      ChainOfTail(keys, have, n - 1);
      var c, last := ChainOf(keys, 0, n - 1), [SealPrevious(keys[n - 2], keys[n - 1])];
      assert (c + last)[have..] == c[have..] + last;
    } else {
      ChainOfLength(keys, n);
    }
  }

  /** The server's parcel is an honest one for this history. */
  lemma ParcelIsHonest(t: Team, k: Slot, have: nat)
    requires k in t.boxes && BoxOk(t, k, t.boxes[k]) && t.Current(k) && t.roles[k.role].Ok(k.role) && have < k.gen
    ensures have <= |t.roles[k.role].chain|
    ensures ParcelFor(t, k, have)
         == HonestParcel(t.roles[k.role].keys, have, k.gen, t.boxes[k].sender, t.boxes[k].receiver)
  {
    ChainOfTail(t.roles[k.role].keys, have, k.gen);
  }

  lemma CanOpenIff(t: Team, k: Slot, own: nat, history: set<PartyKey>)
    requires k in t.boxes && BoxOk(t, k, t.boxes[k]) && t.Current(k) && Advertised(t)
    requires k.member in t.roster && t.roster[k.member].gen <= own
    ensures var b := t.boxes[k];
            CanOpen(EnvOf(t, k.member, own), history, b.sender, b.receiver)
            <==> b.sender in history || KeyIsCurrent(t, b.sender)
  {
    var b := t.boxes[k];
    assert EnvOf(t, k.member, own).receiver[b.receiver.gen - 1] == b.receiver;
  }

  /** The slot's box is the newest one of its role, properly filed, for a current member. */
  ghost predicate NewestBox(t: Team, k: Slot) {
    && t.Current(k) && k in t.boxes && BoxOk(t, k, t.boxes[k]) && t.roles[k.role].Ok(k.role) && k.member in t.roster
  }

  lemma EntitledHasNewestBox(t: Team, m: MemberID, r: RoleKey)
    requires Inv(t) && r in t.roles && Reads(t.roster, m, r)
    ensures NewestBox(t, Slot(m, r, |t.roles[r].keys|))
  {
    var k := Slot(m, r, |t.roles[r].keys|);
    assert t.Current(k) && BoxOk(t, k, t.boxes[k]);
  }

  /**
   A member entitled to a role, holding its first `have` generations, opens the
   rest from the newest box if and only if the box's sender is in its history or
   is still the newest key of a current member.
   */
  lemma LoaderOpensIff(t: Team, k: Slot, have: nat, own: nat, earlier: seq<Parcel>, history: set<PartyKey>)
    requires Advertised(t) && NewestBox(t, k) && have < k.gen && t.roster[k.member].gen <= own
    ensures have <= |t.roles[k.role].chain|
    ensures var keys, sender := t.roles[k.role].keys, t.boxes[k].sender;
            var got := UnboxAll(PubOf(keys), keys[..have], earlier + [ParcelFor(t, k, have)], EnvOf(t, k.member, own),
                                history);
            if sender in history || KeyIsCurrent(t, sender) then got == Ok(keys) else got.Err?
  {
    ParcelIsHonest(t, k, have);
    CanOpenIff(t, k, own, history);
    NewestParcelOpensIff(k.role, t.roles[k.role].keys, have, EnvOf(t, k.member, own), history,
                         t.boxes[k].sender, t.boxes[k].receiver, earlier + [ParcelFor(t, k, have)]);
  }

  /** The same for a loader that starts from nothing. */
  lemma FreshLoaderOpensIff(t: Team, k: Slot, own: nat)
    requires Advertised(t) && NewestBox(t, k) && t.roster[k.member].gen <= own
    ensures var keys := t.roles[k.role].keys;
            var got := UnboxAll(PubOf(keys), [], [ParcelFor(t, k, 0)], EnvOf(t, k.member, own), {});
            if KeyIsCurrent(t, t.boxes[k].sender) then got == Ok(keys) else got.Err?
  {
    var keys, p := t.roles[k.role].keys, ParcelFor(t, k, 0);
    LoaderOpensIff(t, k, 0, own, [], {});
    assert keys[..0] == [] && [] + [p] == [p];
  }

  /** Whatever parcels came before, the last one decides. */
  lemma NewestParcelOpensIff(r: RoleKey, keys: seq<SharedKey>, have: nat, env: UnboxEnv, history: set<PartyKey>,
                             sender: PartyKey, receiver: PartyKey, parcels: seq<Parcel>)
    requires IsHistory(r, keys) && have < |keys| && parcels != []
    requires parcels[|parcels| - 1] == HonestParcel(keys, have, |keys|, sender, receiver)
    ensures var got := UnboxAll(PubOf(keys), keys[..have], parcels, env, history);
            if CanOpen(env, history, sender, receiver) then got == Ok(keys) else got.Err?
  {
    var n, pub := |keys|, PubOf(keys);
    HonestParcelOpens(r, keys, pub, have, n, env, history, sender, receiver);
    if CanOpen(env, history, sender, receiver) {
      MergeHeld(r, keys, have, have, n);
      assert keys[..n] == keys;
      UnboxStopsAtNewest(pub, keys[..have], parcels, env, history);
    } else {
      UnboxFailsAtNewest(pub, keys[..have], parcels, env, history);
    }
  }

  // ---------------------------------------------------------- sender discipline

  lemma {:induction false} SelfChangeGenIs(doer: MemberID, changes: seq<Change>, i: nat)
    requires SelfChangeGen(doer, changes).Ok?
    ensures !Changes(changes, doer) ==> SelfChangeGen(doer, changes).value == 0
    ensures i < |changes| && changes[i].member == doer ==>
              !changes[i].Removes() && SelfChangeGen(doer, changes).value == changes[i].info.gen
    decreases |changes|
  {
    if changes != [] {
      var n := |changes| - 1;
      if i < n { assert changes[..n][i] == changes[i]; }
      SelfChangeGenIs(doer, changes[..n], i);
      assert forall j :: 0 <= j < n ==> changes[..n][j] == changes[j];
    }
  }

  /** The key an editor boxes with is the one the roster advertises for it after the edit. */
  lemma EditorKeyIsCurrent(t: Team, e: Edit)
    requires PlanOk(PlanOf(t, e)) && Accepts(t, e)
    ensures KeyIsCurrent(AfterEdit(t, e), SenderKey(t, e))
  {
    ApplyIsOverwrite(t.roster, e.changes, e.doer);
    if Changes(e.changes, e.doer) {
      var i :| 0 <= i < |e.changes| && e.changes[i].member == e.doer;
      SelfChangeGenIs(e.doer, e.changes, i);
    } else {
      SelfChangeGenIs(e.doer, e.changes, 0);
    }
  }

  /** A box an edit has just made is the newest of its role, and its sender is current. */
  lemma NewBoxIsNewest(t: Team, e: Edit, k: Slot)
    requires PlanOk(PlanOf(t, e)) && RolesOk(t) && k in NewSlots(t, e)
    ensures k.role in AfterEdit(t, e).roles && NewestBox(AfterEdit(t, e), k)
    ensures k.gen == |AfterEdit(t, e).roles[k.role].keys|
    ensures AfterEdit(t, e).boxes[k].sender == SenderKey(t, e)
  {
    assert PlanOf(t, e).Included(k.role);
    RekeyedReads(PlanOf(t, e), k.role, k.member);
    RoleOkAfter(t, e, k.role);
    NewBoxOk(t, e, k);
  }

  /**
   After any edit of any run, a member the edit boxed a role's key for opens every
   generation of that role with no history at all, also when the editor moved
   itself to a new key in the same edit.
   */
  lemma ScheduledMemberOpens(ts: seq<Team>, es: seq<Edit>, n: nat, m: MemberID, r: RoleKey, own: nat)
    requires Run(ts, es) && n < |es| && PlanOf(ts[n], es[n]).Rekeyed(r, m)
    requires m in ts[n + 1].roster ==> ts[n + 1].roster[m].gen <= own
    ensures var t := ts[n + 1];
            && m in t.roster && r in t.roles && t.roles[r].Ok(r)
            && var keys := t.roles[r].keys;
               && Slot(m, r, |keys|) in t.boxes
               && UnboxAll(PubOf(keys), [], [ParcelFor(t, Slot(m, r, |keys|), 0)], EnvOf(t, m, own), {}) == Ok(keys)
  {
    if n > 0 { RunKeepsInv(ts, es, n); }
    RunKeepsInv(ts, es, n + 1);
    var t, e := ts[n], es[n];
    AcceptedPlanIsOk(t, e);
    var k := Slot(m, r, PlanOf(t, e).GenPost(r));
    NewBoxIsNewest(t, e, k);
    EditorKeyIsCurrent(t, e);
    FreshLoaderOpensIff(AfterEdit(t, e), k, own);
  }

  /** Every newest box was sent by a member's newest key, by a member that can read the role itself. */
  ghost predicate WellSent(t: Team) {
    forall k :: k in t.boxes && t.Current(k) ==> BoxWellSent(t, k.role, t.boxes[k].sender)
  }

  ghost predicate BoxWellSent(t: Team, r: RoleKey, sender: PartyKey) {
    KeyIsCurrent(t, sender) && Reads(t.roster, sender.member, r)
  }

  ghost predicate PromotesWithNewKey(t: Team, ch: Change) {
    && ch.member in t.roster && t.roster[ch.member].role.LessThan(ch.info.role)
    && t.roster[ch.member].gen < ch.info.gen
  }

  /** Nobody is promoted and moved to a new key at once, and the editor does not demote itself. */
  ghost predicate Disciplined(t: Team, e: Edit) {
    && (forall i :: 0 <= i < |e.changes| ==> !PromotesWithNewKey(t, e.changes[i]))
    && (forall i :: 0 <= i < |e.changes| && e.changes[i].member == e.doer && e.doer in t.roster ==>
                      !e.changes[i].info.role.LessThan(t.roster[e.doer].role))
  }

  /** A well-sent box of a role that keeps its key stays so, unless its sender is promoted onto a new key. */
  lemma KeptBoxStaysSent(t: Team, e: Edit, r: RoleKey, sender: PartyKey)
    requires PlanOk(PlanOf(t, e)) && BoxWellSent(t, r, sender) && r in t.roles && !PlanOf(t, e).NewKey(r)
    ensures Reads(AfterEdit(t, e).roster, sender.member, r)
    ensures KeyIsCurrent(AfterEdit(t, e), sender) <==>
            forall i :: 0 <= i < |e.changes| && e.changes[i].member == sender.member ==>
                !PromotesWithNewKey(t, e.changes[i])
  {
    var plan, s := PlanOf(t, e), sender.member;
    if !Reads(plan.Post(), s, r) { LossRotates(plan, r, s); }
    ApplyIsOverwrite(t.roster, e.changes, s);
    if Changes(e.changes, s) {
      var i :| 0 <= i < |e.changes| && e.changes[i].member == s;
      if plan.FloodsRole(e.changes[i], r) { FloodRotates(plan, i, r); }
      assert forall j :: 0 <= j < |e.changes| && e.changes[j].member == s ==> j == i;
    }
  }

  lemma NewBoxIsSent(t: Team, e: Edit, k: Slot)
    requires PlanOk(PlanOf(t, e)) && Accepts(t, e) && Disciplined(t, e) && k in NewSlots(t, e)
    ensures BoxWellSent(AfterEdit(t, e), k.role, SenderKey(t, e))
  {
    EditorKeyIsCurrent(t, e);
    assert PlanOf(t, e).Included(k.role);
    ScheduledRoleIsReadable(t, e, k.role);
    EditorKeepsRole(t, e);
  }

  /** An editor that does not demote itself reads at least what it could before. */
  lemma EditorKeepsRole(t: Team, e: Edit)
    requires Accepts(t, e) && Disciplined(t, e)
    ensures e.doer in AfterEdit(t, e).roster ==>
              DoerRole(e.create, t.roster, e.doer).AtMost(AfterEdit(t, e).roster[e.doer].role)
  {
    ApplyIsOverwrite(t.roster, e.changes, e.doer);
  }

  /** A box that survives an edit is of a role that keeps its key. */
  lemma SurvivorKeepsKey(t: Team, e: Edit, k: Slot)
    requires k in t.boxes && BoxOk(t, k, t.boxes[k]) && AfterEdit(t, e).Current(k)
    ensures t.Current(k) && !PlanOf(t, e).NewKey(k.role)
  {
  }

  lemma DisciplinedEditKeepsWellSent(t: Team, e: Edit)
    requires (t == NO_TEAM || (Inv(t) && WellSent(t))) && Accepts(t, e) && Disciplined(t, e)
    ensures WellSent(AfterEdit(t, e))
  {
    AcceptedPlanIsOk(t, e);
    var t' := AfterEdit(t, e);
    forall k | k in t'.boxes && t'.Current(k) ensures BoxWellSent(t', k.role, t'.boxes[k].sender) {
      if k in NewSlots(t, e) {
        NewBoxIsSent(t, e, k);
      } else {
        SurvivorKeepsKey(t, e, k);
        KeptBoxStaysSent(t, e, k.role, t.boxes[k].sender);
      }
    }
  }

  lemma DisciplinedOnRun(ts: seq<Team>, es: seq<Edit>, i: nat)
    requires Run(ts, es) && i < |es| && Disciplined(ts[i], es[i]) && (i > 0 ==> WellSent(ts[i]))
    ensures WellSent(ts[i + 1])
  {
    if i > 0 { RunKeepsInv(ts, es, i); }
    DisciplinedEditKeepsWellSent(ts[i], es[i]);
  }

  ghost predicate DisciplinedUntil(ts: seq<Team>, es: seq<Edit>, n: nat)
    requires n <= |es| && |es| < |ts|
  {
    n == 0 || (DisciplinedUntil(ts, es, n - 1) && Disciplined(ts[n - 1], es[n - 1]))
  }

  lemma {:induction false} AllDisciplined(ts: seq<Team>, es: seq<Edit>, n: nat)
    requires n <= |es| && |es| < |ts| && forall i :: 0 <= i < n ==> Disciplined(ts[i], es[i])
    ensures DisciplinedUntil(ts, es, n)
  {
    if n > 0 { AllDisciplined(ts, es, n - 1); }
  }

  lemma {:induction false} WellSentSoFar(ts: seq<Team>, es: seq<Edit>, n: nat)
    requires Run(ts, es) && 1 <= n < |ts| && DisciplinedUntil(ts, es, n)
    ensures WellSent(ts[n])
  {
    if n > 1 { WellSentSoFar(ts, es, n - 1); }
    DisciplinedOnRun(ts, es, n - 1);
  }

  lemma DisciplinedRunIsWellSent(ts: seq<Team>, es: seq<Edit>, n: nat)
    requires Run(ts, es) && 1 <= n < |ts| && forall i :: 0 <= i < n ==> Disciplined(ts[i], es[i])
    ensures WellSent(ts[n])
  {
    AllDisciplined(ts, es, n);
    WellSentSoFar(ts, es, n);
  }

  // ------------------------------------------------ when everybody can load everything

  /** The sender of every newest box is still known by the key it sent with. */
  ghost predicate AllOpenable(t: Team) {
    forall k :: k in t.boxes && t.Current(k) ==> KeyIsCurrent(t, t.boxes[k].sender)
  }

  /** A member with its own keys but no history of the team loads every generation of the role. */
  ghost predicate Loads(t: Team, m: MemberID, r: RoleKey) {
    && r in t.roles && m in t.roster && Slot(m, r, |t.roles[r].keys|) in t.boxes
    && UnboxAll(PubOf(t.roles[r].keys), [], [ParcelFor(t, Slot(m, r, |t.roles[r].keys|), 0)],
                EnvOf(t, m, t.roster[m].gen), {}) == Ok(t.roles[r].keys)
  }

  ghost predicate EverybodyLoads(t: Team) {
    forall m, r :: r in t.roles && Reads(t.roster, m, r) ==> Loads(t, m, r)
  }

  lemma LoadsIffSenderIsCurrent(t: Team, k: Slot)
    requires Inv(t) && t.Current(k) && Reads(t.roster, k.member, k.role)
    ensures k in t.boxes && (Loads(t, k.member, k.role) <==> KeyIsCurrent(t, t.boxes[k].sender))
  {
    EntitledHasNewestBox(t, k.member, k.role);
    FreshLoaderOpensIff(t, k, t.roster[k.member].gen);
  }

  /** Openable boxes are what it takes for everybody to load everything they may read. */
  lemma OpenableIffEverybodyLoads(t: Team)
    requires Inv(t)
    ensures AllOpenable(t) <==> EverybodyLoads(t)
  {
    forall k | t.Current(k) && Reads(t.roster, k.member, k.role)
      ensures k in t.boxes && (Loads(t, k.member, k.role) <==> KeyIsCurrent(t, t.boxes[k].sender))
    {
      LoadsIffSenderIsCurrent(t, k);
    }
    if AllOpenable(t) {
      forall m, r | r in t.roles && Reads(t.roster, m, r) ensures Loads(t, m, r) {
        assert t.Current(Slot(m, r, |t.roles[r].keys|));
      }
    }
  }

  /** The change leaves its member without this key. */
  predicate TakesAway(ch: Change, key: PartyKey) {
    ch.member == key.member && (ch.Removes() || ch.info.gen != key.gen)
  }

  /** The edit takes away the key that sent a newest box, and does not replace that box. */
  ghost predicate Strands(t: Team, e: Edit) {
    exists k, i :: && k in t.boxes && t.Current(k) && !PlanOf(t, e).NewKey(k.role)
                   && 0 <= i < |e.changes| && TakesAway(e.changes[i], t.boxes[k].sender)
  }

  /** A current key stays current exactly if no change takes it away. */
  lemma KeyStaysCurrentIff(t: Team, e: Edit, key: PartyKey)
    requires Distinct(e.changes) && KeyIsCurrent(t, key)
    ensures KeyIsCurrent(AfterEdit(t, e), key) <==> forall i :: 0 <= i < |e.changes| ==> !TakesAway(e.changes[i], key)
  {
    ApplyIsOverwrite(t.roster, e.changes, key.member);
  }

  /** A newest box of a role that keeps its key is still the newest, and was not replaced. */
  lemma KeptBoxSurvives(t: Team, e: Edit, k: Slot)
    requires BoxedExactly(t) && PlanOk(PlanOf(t, e)) && k in t.boxes && t.Current(k) && !PlanOf(t, e).NewKey(k.role)
    ensures AfterEdit(t, e).Current(k) && k in AfterEdit(t, e).boxes && AfterEdit(t, e).boxes[k] == t.boxes[k]
    ensures Reads(AfterEdit(t, e).roster, k.member, k.role)
  {
    HolderIsNotReboxed(PlanOf(t, e), k.role, k.member);
    if !Reads(PlanOf(t, e).Post(), k.member, k.role) { LossRotates(PlanOf(t, e), k.role, k.member); }
  }

  /** A box whose sender's key is taken away stays the newest, for a member still entitled to it, and does not open. */
  lemma StrandedBox(t: Team, e: Edit, k: Slot, i: nat)
    requires Inv(t) && Accepts(t, e) && k in t.boxes && t.Current(k) && !PlanOf(t, e).NewKey(k.role)
    requires i < |e.changes| && TakesAway(e.changes[i], t.boxes[k].sender)
    ensures var t' := AfterEdit(t, e);
            && t'.Current(k) && k in t'.boxes && !KeyIsCurrent(t', t'.boxes[k].sender)
            && Reads(t'.roster, k.member, k.role) && !Loads(t', k.member, k.role)
  {
    AcceptedPlanIsOk(t, e);
    KeptBoxSurvives(t, e, k);
    ApplyIsOverwrite(t.roster, e.changes, e.changes[i].member);
    EditKeepsInv(t, e);
    LoadsIffSenderIsCurrent(AfterEdit(t, e), k);
  }

  /** A team whose boxes all open is left that way by an accepted edit exactly if the edit strands no box. */
  lemma OpenableIffNotStranded(t: Team, e: Edit)
    requires (t == NO_TEAM || Inv(t)) && AllOpenable(t) && Accepts(t, e)
    ensures AllOpenable(AfterEdit(t, e)) <==> !Strands(t, e)
  {
    var t' := AfterEdit(t, e);
    if Strands(t, e) {
      var k, i :| && k in t.boxes && t.Current(k) && !PlanOf(t, e).NewKey(k.role)
                  && 0 <= i < |e.changes| && TakesAway(e.changes[i], t.boxes[k].sender);
      StrandedBox(t, e, k, i);
    } else {
      AcceptedPlanIsOk(t, e);
      EditorKeyIsCurrent(t, e);
      forall k | k in t'.boxes && t'.Current(k) ensures KeyIsCurrent(t', t'.boxes[k].sender) {
        if k !in NewSlots(t, e) {
          SurvivorKeepsKey(t, e, k);
          KeyStaysCurrentIff(t, e, t.boxes[k].sender);
        }
      }
    }
  }

  ghost predicate NoneStrands(ts: seq<Team>, es: seq<Edit>, n: nat)
    requires n <= |es| && n <= |ts|
  {
    forall i {:trigger es[i]} :: 0 <= i < n ==> !Strands(ts[i], es[i])
  }

  lemma OpenableNext(ts: seq<Team>, es: seq<Edit>, n: nat)
    requires Run(ts, es) && n < |es| && AllOpenable(ts[n])
    ensures AllOpenable(ts[n + 1]) <==> !Strands(ts[n], es[n])
  {
    if n > 0 { RunKeepsInv(ts, es, n); }
    assert ts[n + 1] == AfterEdit(ts[n], es[n]);
    OpenableIffNotStranded(ts[n], es[n]);
  }

  lemma {:induction false} OpenableWhileNoneStrands(ts: seq<Team>, es: seq<Edit>, n: nat)
    requires Run(ts, es) && n < |ts| && NoneStrands(ts, es, n)
    ensures AllOpenable(ts[n])
  {
    if n > 0 {
      OpenableWhileNoneStrands(ts, es, n - 1);
      OpenableNext(ts, es, n - 1);
    }
  }

  lemma LoadableIsOpenable(ts: seq<Team>, es: seq<Edit>, n: nat)
    requires Run(ts, es) && n < |ts|
    ensures AllOpenable(ts[n]) <==> (n > 0 ==> EverybodyLoads(ts[n]))
  {
    if n > 0 {
      RunKeepsInv(ts, es, n);
      OpenableIffEverybodyLoads(ts[n]);
    }
  }

  lemma LoadingIsNotStranding(ts: seq<Team>, es: seq<Edit>, n: nat)
    requires Run(ts, es) && n < |es| && (n > 0 ==> EverybodyLoads(ts[n])) && EverybodyLoads(ts[n + 1])
    ensures !Strands(ts[n], es[n])
  {
    LoadableIsOpenable(ts, es, n);
    LoadableIsOpenable(ts, es, n + 1);
    OpenableNext(ts, es, n);
  }

  lemma LoadsWhileNoneStrands(ts: seq<Team>, es: seq<Edit>, n: nat, m: nat)
    requires Run(ts, es) && 1 <= m <= n < |ts| && NoneStrands(ts, es, n)
    ensures EverybodyLoads(ts[m])
  {
    OpenableWhileNoneStrands(ts, es, m);
    LoadableIsOpenable(ts, es, m);
  }

  /** All along a run everybody can load everything exactly if no edit so far stranded a box. */
  lemma RunLoadsIffNoneStrands(ts: seq<Team>, es: seq<Edit>, n: nat)
    requires Run(ts, es) && n < |ts|
    ensures (forall m :: 1 <= m <= n ==> EverybodyLoads(ts[m])) <==> NoneStrands(ts, es, n)
  {
    if NoneStrands(ts, es, n) {
      forall m | 1 <= m <= n ensures EverybodyLoads(ts[m]) { LoadsWhileNoneStrands(ts, es, n, m); }
    } else {
      var i {:trigger es[i]} :| 0 <= i < n && Strands(ts[i], es[i]);
      if forall m :: 1 <= m <= n ==> EverybodyLoads(ts[m]) {
        LoadingIsNotStranding(ts, es, i);
      }
    }
  }

  /**
   The round trip over any such history: every member opens every generation of every
   role at or below its own, whatever it already holds.
   */
  lemma EveryMemberOpensEverything(
    ts: seq<Team>, es: seq<Edit>, n: nat, m: MemberID, r: RoleKey, have: nat, own: nat,
    earlier: seq<Parcel>, history: set<PartyKey>)
    requires Run(ts, es) && 1 <= n < |ts| && NoneStrands(ts, es, n)
    requires r in ts[n].roles && Reads(ts[n].roster, m, r)
    requires have < |ts[n].roles[r].keys| && ts[n].roster[m].gen <= own
    ensures var keys := ts[n].roles[r].keys;
            && Slot(m, r, |keys|) in ts[n].boxes && have <= |ts[n].roles[r].chain|
            && UnboxAll(PubOf(keys), keys[..have], earlier + [ParcelFor(ts[n], Slot(m, r, |keys|), have)],
                         EnvOf(ts[n], m, own), history) == Ok(keys)
  {
    RunKeepsInv(ts, es, n);
    OpenableWhileNoneStrands(ts, es, n);
    var k := Slot(m, r, |ts[n].roles[r].keys|);
    EntitledHasNewestBox(ts[n], m, r);
    LoaderOpensIff(ts[n], k, have, own, earlier, history);
    assert ts[n].Current(k);
  }

  /** While everybody loads, the ring of keys an edit works with is what its author loads. */
  lemma EditorLoadsItsRing(t: Team, e: Edit, r: RoleKey)
    requires Inv(t) && EverybodyLoads(t) && Accepts(t, e) && r in Ring(t, e)
    ensures Loads(t, e.doer, r) && Ring(t, e)[r] == t.roles[r].keys[|t.roles[r].keys| - 1]
  {
    assert Reads(t.roster, e.doer, r);
  }

  // --------------------------------------------------- disciplined edits strand nobody

  /** From a well-sent team, the only way to strand a box is to promote its sender onto a new key. */
  lemma WellSentStrandsIff(t: Team, e: Edit)
    requires Inv(t) && WellSent(t) && Accepts(t, e)
    ensures Strands(t, e) <==>
            exists k, i :: && k in t.boxes && t.Current(k) && !PlanOf(t, e).NewKey(k.role)
                           && 0 <= i < |e.changes| && e.changes[i].member == t.boxes[k].sender.member
                           && PromotesWithNewKey(t, e.changes[i])
  {
    AcceptedPlanIsOk(t, e);
    forall k | k in t.boxes && t.Current(k) && !PlanOf(t, e).NewKey(k.role)
      ensures (exists i :: 0 <= i < |e.changes| && TakesAway(e.changes[i], t.boxes[k].sender)) <==>
              (exists i :: && 0 <= i < |e.changes| && e.changes[i].member == t.boxes[k].sender.member
                           && PromotesWithNewKey(t, e.changes[i]))
    {
      KeptBoxStaysSent(t, e, k.role, t.boxes[k].sender);
      KeyStaysCurrentIff(t, e, t.boxes[k].sender);
    }
  }

  /** In a run of disciplined edits nobody is ever stranded. */
  lemma DisciplinedRunStrandsNobody(ts: seq<Team>, es: seq<Edit>, n: nat)
    requires Run(ts, es) && n < |ts| && forall i :: 0 <= i < n ==> Disciplined(ts[i], es[i])
    ensures NoneStrands(ts, es, n)
  {
    forall i {:trigger es[i]} | 0 <= i < n ensures !Strands(ts[i], es[i]) {
      if i > 0 {
        RunKeepsInv(ts, es, i);
        DisciplinedRunIsWellSent(ts, es, i);
        WellSentStrandsIff(ts[i], es[i]);
      }
    }
  }

  /** Somebody who can already read a role is not boxed its unchanged key again. */
  lemma HolderIsNotReboxed(plan: Plan, r: RoleKey, m: MemberID)
    requires r in plan.keyGens && Reads(plan.pre, m, r) && !plan.NewKey(r)
    ensures !plan.Rekeyed(r, m)
  {
  }

  // ------------------------------------------------------------------- secrecy

  /** The keys in all boxes the server ever stored for a member. */
  ghost function BoxedFor(t: Team, m: MemberID): (s: set<SharedKey>) {
    set slot | slot in t.boxes && t.boxes[slot].receiver.member == m :: t.boxes[slot].cleartext
  }

  /** The member was given this generation of the role, or a later one. */
  ghost predicate GivenAtLeast(t: Team, m: MemberID, r: RoleKey, g: nat) {
    exists slot :: slot in t.boxes && slot.member == m && slot.role == r && g <= slot.gen
  }

  lemma BoxedIsReal(t: Team, m: MemberID)
    requires RolesOk(t) && BoxesOk(t)
    ensures AllReal(t.roles, BoxedFor(t, m))
  {
    forall b | b in BoxedFor(t, m) ensures RealKey(t.roles, b) {
      var slot :| slot in t.boxes && t.boxes[slot].receiver.member == m && t.boxes[slot].cleartext == b;
      assert BoxOk(t, slot, t.boxes[slot]) && t.roles[slot.role].Ok(slot.role);
    }
  }

  lemma BelowIffGiven(t: Team, m: MemberID, k: SharedKey)
    requires RolesOk(t) && BoxesOk(t)
    ensures Below(BoxedFor(t, m), k) <==> GivenAtLeast(t, m, k.role, k.gen)
  {
    forall slot | slot in t.boxes
      ensures t.boxes[slot].receiver.member == slot.member
      ensures t.boxes[slot].cleartext.role == slot.role && t.boxes[slot].cleartext.gen == slot.gen
    {
      assert BoxOk(t, slot, t.boxes[slot]) && t.roles[slot.role].Ok(slot.role);
    }
    if GivenAtLeast(t, m, k.role, k.gen) {
      var slot :| slot in t.boxes && slot.member == m && slot.role == k.role && k.gen <= slot.gen;
      assert t.boxes[slot].cleartext in BoxedFor(t, m);
    }
  }

  /** A member can derive exactly the team's keys at or below one it was ever boxed. */
  lemma DerivableIffGiven(t: Team, m: MemberID, k: SharedKey)
    requires Inv(t)
    ensures Derivable(t.roles, BoxedFor(t, m), k) <==> RealKey(t.roles, k) && GivenAtLeast(t, m, k.role, k.gen)
  {
    BoxedIsReal(t, m);
    BelowIffGiven(t, m, k);
    DerivableIff(t.roles, BoxedFor(t, m), k);
  }

  /** Being given the newest key, or a later one, is having the newest box. */
  lemma NewestIsGivenIff(t: Team, m: MemberID, r: RoleKey)
    requires RolesOk(t) && BoxesOk(t) && BoxedExactly(t) && r in t.roles
    ensures GivenAtLeast(t, m, r, |t.roles[r].keys|) <==> Reads(t.roster, m, r)
  {
    var slot := Slot(m, r, |t.roles[r].keys|);
    assert t.Current(slot);
    if GivenAtLeast(t, m, r, |t.roles[r].keys|) {
      var found :| found in t.boxes && found.member == m && found.role == r && |t.roles[r].keys| <= found.gen;
      assert BoxOk(t, found, t.boxes[found]) && found == slot;
    }
  }

  /**
   After any run, a member can derive the current key of a role from what the
   server stores, old boxes included, exactly when it is entitled to that role.
   */
  lemma CurrentKeyDerivableIffEntitled(ts: seq<Team>, es: seq<Edit>, n: nat, m: MemberID, r: RoleKey)
    requires Run(ts, es) && 1 <= n < |ts| && r in ts[n].roles
    ensures ts[n].roles[r].keys != []
    ensures Derivable(ts[n].roles, BoxedFor(ts[n], m), ts[n].roles[r].Newest()) <==> Reads(ts[n].roster, m, r)
  {
    RunKeepsInv(ts, es, n);
    var t := ts[n];
    assert t.roles[r].Ok(r);
    DerivableIffGiven(t, m, t.roles[r].Newest());
    NewestIsGivenIff(t, m, r);
  }
}
