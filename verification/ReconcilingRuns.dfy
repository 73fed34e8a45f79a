// An uninterrupted reconcile does what the step machine's pass does when nothing
// happens between its steps.
module ReconcilingRuns {
  import opened Wrappers
  import opened Dao
  import opened Payouts
  import Machine = Settlement
  import Protocol = SettlementLedger
  import opened Reconciling

  type State = Machine.State
  type Config = Machine.Config
  type Event = Machine.Event

  /** The state after the events, if each is enabled in turn. */
  function After(c: Config, s: State, events: seq<Event>): Option<State>
    decreases events
  {
    if events == [] then Some(s)
    else if Machine.Enabled(c, s, events[0]) then After(c, Machine.Next(c, s, events[0]), events[1..])
    else None
  }

  function LedgerOf(s: State): Ledger {
    Ledger(s.rows, s.paidNotices)
  }

  /** The chain and the clock as they stand, every read answered. */
  function ViewOf(c: Config, s: State): View {
    View(Machine.Proposals(s.chain, 0, |s.chain|), c.periodMs, s.now, true, true, true, true)
  }

  lemma AfterOne(c: Config, s: State, ev: Event)
    requires Machine.Enabled(c, s, ev)
    ensures After(c, s, [ev]) == Some(Machine.Next(c, s, ev))
  {
    assert [ev][1..] == [];
    assert After(c, Machine.Next(c, s, ev), []) == Some(Machine.Next(c, s, ev));
  }

  /** One step, then the rest. */
  lemma Then(c: Config, s: State, ev: Event, rest: seq<Event>)
    requires Machine.Enabled(c, s, ev)
    ensures After(c, s, [ev] + rest) == After(c, Machine.Next(c, s, ev), rest)
  {
    assert ([ev] + rest)[1..] == rest;
  }

  function RowStatus(pass: Machine.Pass): PayoutStatus {
    if pass.adopted then PayoutStatus.Proposed else pass.seen.status
  }

  /** The pass has ended and left exactly this ledger. */
  predicate EndsWith(r: Option<State>, s: State, k: nat, l: Ledger) {
    r.Some? && LedgerOf(r.value) == l && r.value.passes == s.passes - {k} && r.value.chain == s.chain && r.value.now == s.now
  }

  /** The pass gives up nowhere. */
  predicate RunsOn(events: seq<Event>) {
    forall ev | ev in events :: !ev.Stop?
  }

  predicate Running(s: State, k: nat) {
    k in s.passes && s.passes[k].job.Reconcile?
  }

  // ---- From a pin to the end ----

  lemma ApplyRuns(c: Config, s: State, k: nat, dup: bool) returns (events: seq<Event>)
    requires Running(s, k) && s.passes[k].phase.Apply?
    ensures var pass := s.passes[k];
            EndsWith(After(c, s, events), s, k,
                     Settle(LedgerOf(s), ViewOf(c, s), pass.payout, pass.seen, pass.phase.id, pass.phase.effective, RowStatus(pass), dup).0)
    ensures RunsOn(events)
  {
    events := [Machine.ApplySettle(k)];
    AfterOne(c, s, Machine.ApplySettle(k));
    ApplyMatches(c, s, k, dup);
  }

  lemma ApplyMatches(c: Config, s: State, k: nat, dup: bool)
    requires Running(s, k) && s.passes[k].phase.Apply?
    ensures var pass := s.passes[k];
            EndsWith(Some(Machine.ApplySettleNext(s, k)), s, k,
                     Settle(LedgerOf(s), ViewOf(c, s), pass.payout, pass.seen, pass.phase.id, pass.phase.effective, RowStatus(pass), dup).0)
  {
  }

  lemma SettleRuns(c: Config, s: State, k: nat, dup: bool) returns (events: seq<Event>)
    requires Running(s, k) && s.passes[k].phase.Settle? && s.passes[k].phase.id < |s.chain|
    ensures var pass := s.passes[k];
            EndsWith(After(c, s, events), s, k,
                     SettlePin(LedgerOf(s), ViewOf(c, s), pass.payout, pass.seen, pass.phase.id, RowStatus(pass), dup).0)
    ensures var pass := s.passes[k];
            SettlePin(LedgerOf(s), ViewOf(c, s), pass.payout, pass.seen, pass.phase.id, RowStatus(pass), dup).1.ok ==> RunsOn(events)
  {
    var pass := s.passes[k];
    var id := pass.phase.id;
    if Machine.ReadsBack(s, id) {
      var effective := EffectiveProposalStatus(s.chain[id].proposal, c.periodMs, s.now);
      var s1 := Machine.SetPass(s, k, pass.(phase := Machine.Apply(id, effective)));
      var rest := ApplyRuns(c, s1, k, dup);
      events := [Machine.ReadProposal(k)] + rest;
      Then(c, s, Machine.ReadProposal(k), rest);
      ReadOn(s, s1, k, After(c, s, events));
    } else {
      var s1 := Machine.SetPass(s, k, pass.(phase := Machine.Gone(id)));
      var rest := GoneRuns(c, s1, k, dup);
      events := [Machine.ReadProposal(k)] + rest;
      Then(c, s, Machine.ReadProposal(k), rest);
      ReadOn(s, s1, k, After(c, s, events));
    }
  }

  /** Ending after a step that only moved the pass is ending before it. */
  lemma ReadOn(s: State, s1: State, k: nat, r: Option<State>)
    requires k in s.passes && exists pass :: s1 == Machine.SetPass(s, k, pass)
    ensures forall l: Ledger :: EndsWith(r, s1, k, l) ==> EndsWith(r, s, k, l)
  {
    assert s1.passes - {k} == s.passes - {k};
  }

  lemma GoneRuns(c: Config, s: State, k: nat, dup: bool) returns (events: seq<Event>)
    requires Running(s, k) && s.passes[k].phase.Gone? && s.passes[k].phase.id < |s.chain|
    requires s.chain[s.passes[k].phase.id].proposal.status == ProposalStatus.Removed
    ensures var pass := s.passes[k];
            EndsWith(After(c, s, events), s, k,
                     SettlePin(LedgerOf(s), ViewOf(c, s), pass.payout, pass.seen, pass.phase.id, RowStatus(pass), dup).0)
    ensures var pass := s.passes[k];
            SettlePin(LedgerOf(s), ViewOf(c, s), pass.payout, pass.seen, pass.phase.id, RowStatus(pass), dup).1.ok ==> RunsOn(events)
  {
    var pass := s.passes[k];
    if s.now - pass.seen.updatedAt > REMOVED_CONFIRM_GRACE_MS {
      var s1 := Machine.SetPass(s, k, pass.(phase := Machine.Apply(pass.phase.id, EffectiveStatus.Removed)));
      var rest := ApplyRuns(c, s1, k, dup);
      events := [Machine.ReadLast(k)] + rest;
      Then(c, s, Machine.ReadLast(k), rest);
      ReadOn(s, s1, k, After(c, s, events));
    } else {
      events := StopRuns(c, s, k);
    }
  }

  lemma StopRuns(c: Config, s: State, k: nat) returns (events: seq<Event>)
    requires k in s.passes
    ensures EndsWith(After(c, s, events), s, k, LedgerOf(s))
  {
    events := [Machine.Stop(k)];
    AfterOne(c, s, Machine.Stop(k));
  }

  // ---- From the start ----

  /** The pass is about to decide, with its window (if it needs one) read. */
  predicate Deciding(c: Config, s: State, k: nat) {
    && Running(s, k) && s.passes[k].phase == Machine.Recon
    && var pass := s.passes[k];
       && pass.seen.proposalId.None? && pass.seen.status != PayoutStatus.Paid && !pass.adopted
       && (pass.seen.claim.Some? ==>
             pass.window.Some? && pass.window.value.at == s.now
             && pass.window.value.from == WindowFrom(ViewOf(c, s)) && pass.window.value.page == Page(ViewOf(c, s)))
  }

  lemma AdoptRuns(c: Config, s: State, k: nat, found: Proposal) returns (events: seq<Event>)
    requires Deciding(c, s, k) && s.passes[k].seen.claim.Some? && found.id < |s.chain|
    requires Lookup(ViewOf(c, s), Machine.Desc(s.passes[k].payout, s.passes[k].seen), s.passes[k].seen.claim.value, false) == Some(found)
    requires s.passes[k].payout in s.rows && s.rows[s.passes[k].payout] == s.passes[k].seen
    ensures var pass := s.passes[k];
            EndsWith(After(c, s, events), s, k, AdoptFound(LedgerOf(s), ViewOf(c, s), pass.payout, pass.seen, found.id).0)
    ensures var pass := s.passes[k];
            AdoptFound(LedgerOf(s), ViewOf(c, s), pass.payout, pass.seen, found.id).1.ok ==> RunsOn(events)
  {
    var pass := s.passes[k];
    var p := pass.payout;
    var row := MarkProposed(pass.seen, Some(found.id), pass.seen.claim.value, s.now);
    var s1 := Machine.SetPass(Machine.WriteRow(s, p, row), k, pass.(phase := Machine.Phase.Settle(found.id), adopted := true));
    var rest := SettleRuns(c, s1, k, TwoLive(ViewOf(c, s), Machine.Desc(p, pass.seen), pass.seen.claim.value));
    events := [Machine.Adopt(k)] + rest;
    assert Machine.Found(c, pass, pass.seen.claim.value, false) == Some(found);
    assert Machine.AdoptNext(c, s, k) == s1;
    Then(c, s, Machine.Adopt(k), rest);
    assert s1.passes - {k} == s.passes - {k};
  }

  lemma ExpireRuns(c: Config, s: State, k: nat) returns (events: seq<Event>)
    requires Deciding(c, s, k) && Machine.NothingFound(c, s.passes[k])
    requires s.passes[k].seen.status == PayoutStatus.Pending && s.now - s.passes[k].seen.updatedAt > CLAIM_MEMORY_TTL_MS
    ensures var pass := s.passes[k];
            EndsWith(After(c, s, events), s, k, ExpireMemory(LedgerOf(s), ViewOf(c, s), pass.payout, pass.seen).0)
    ensures RunsOn(events)
  {
    events := [Machine.Expire(k)];
    AfterOne(c, s, Machine.Expire(k));
  }

  lemma UnclaimedRuns(c: Config, s: State, k: nat) returns (events: seq<Event>)
    requires Deciding(c, s, k) && (s.passes[k].seen.claim.None? || Machine.NothingFound(c, s.passes[k]))
    ensures var pass := s.passes[k];
            EndsWith(After(c, s, events), s, k, Unclaimed(LedgerOf(s), ViewOf(c, s), pass.payout, pass.seen).0)
    ensures var pass := s.passes[k];
            Unclaimed(LedgerOf(s), ViewOf(c, s), pass.payout, pass.seen).1.ok ==> RunsOn(events)
  {
    var pass := s.passes[k];
    if pass.seen.status == PayoutStatus.Pending {
      events := [Machine.Rest(k)];
      AfterOne(c, s, Machine.Rest(k));
    } else if s.now - pass.seen.updatedAt > ABANDONED_CLAIM_GRACE_MS {
      events := [Machine.Heal(k)];
      AfterOne(c, s, Machine.Heal(k));
    } else {
      events := StopRuns(c, s, k);
    }
  }

  lemma DecideRuns(c: Config, s: State, k: nat) returns (events: seq<Event>)
    requires Deciding(c, s, k) && s.passes[k].payout in s.rows && s.rows[s.passes[k].payout] == s.passes[k].seen
    requires forall q | 0 <= q < |s.chain| :: s.chain[q].proposal.id == q
    ensures var pass := s.passes[k];
            EndsWith(After(c, s, events), s, k, Reconciled(LedgerOf(s), ViewOf(c, s), pass.payout, pass.seen).0)
    ensures var pass := s.passes[k];
            Reconciled(LedgerOf(s), ViewOf(c, s), pass.payout, pass.seen).1.ok ==> RunsOn(events)
  {
    var pass := s.passes[k];
    var x := ViewOf(c, s);
    if pass.seen.claim.None? {
      events := UnclaimedRuns(c, s, k);
    } else {
      var found := Lookup(x, Machine.Desc(pass.payout, pass.seen), pass.seen.claim.value, false);
      assert found == Machine.Found(c, pass, pass.seen.claim.value, false);
      if found.Some? {
        FoundOnChain(c, s, pass, found.value);
        events := AdoptRuns(c, s, k, found.value);
      } else if !Complete(x) {
        events := StopRuns(c, s, k);
      } else if pass.seen.status == PayoutStatus.Pending && s.now - pass.seen.updatedAt > CLAIM_MEMORY_TTL_MS {
        events := ExpireRuns(c, s, k);
      } else {
        events := UnclaimedRuns(c, s, k);
      }
    }
  }

  lemma FoundOnChain(c: Config, s: State, pass: Machine.Pass, found: Proposal)
    requires pass.seen.claim.Some? && (forall q | 0 <= q < |s.chain| :: s.chain[q].proposal.id == q)
    requires Lookup(ViewOf(c, s), Machine.Desc(pass.payout, pass.seen), pass.seen.claim.value, false) == Some(found)
    ensures found.id < |s.chain|
  {
    var x := ViewOf(c, s);
    var i :| 0 <= i < |Page(x)| && Page(x)[i] == found;
    assert Page(x)[i] == x.proposals[WindowFrom(x) + i];
  }

  lemma WindowRuns(c: Config, s: State, k: nat) returns (events: seq<Event>)
    requires Running(s, k) && s.passes[k].phase == Machine.Recon && s.passes[k].seen.claim.Some?
    requires s.passes[k].window.None? && s.passes[k].counted.None? && !s.passes[k].adopted
    requires s.passes[k].seen.proposalId.None? && s.passes[k].seen.status != PayoutStatus.Paid
    requires s.passes[k].payout in s.rows && s.rows[s.passes[k].payout] == s.passes[k].seen
    requires forall q | 0 <= q < |s.chain| :: s.chain[q].proposal.id == q
    ensures var pass := s.passes[k];
            EndsWith(After(c, s, events), s, k, Reconciled(LedgerOf(s), ViewOf(c, s), pass.payout, pass.seen).0)
    ensures var pass := s.passes[k];
            Reconciled(LedgerOf(s), ViewOf(c, s), pass.payout, pass.seen).1.ok ==> RunsOn(events)
  {
    var pass := s.passes[k];
    var s1 := Machine.SetPass(s, k, pass.(counted := Some(|s.chain|), countedAt := s.now));
    var s2 := Machine.SetPass(s1, k, s1.passes[k].(window := Some(Machine.PageWindow(s1, s1.passes[k]))));
    var rest := DecideRuns(c, s2, k);
    ReadOn(s1, s2, k, After(c, s2, rest));
    Then(c, s1, Machine.ReadPage(k), rest);
    ReadOn(s, s1, k, After(c, s1, [Machine.ReadPage(k)] + rest));
    events := [Machine.ReadCount(k)] + ([Machine.ReadPage(k)] + rest);
    Then(c, s, Machine.ReadCount(k), [Machine.ReadPage(k)] + rest);
  }

  /** From every reachable state, a reconcile nothing interrupts is a run of the
      step machine that ends with the ledger `Reconciled` names; and unless that
      could not be sure of the row, the run gives up nowhere. */
  lemma UninterruptedReconcile(c: Config, s: State, k: nat, p: nat) returns (events: seq<Event>)
    requires Protocol.Inv(c, s) && k !in s.passes && p in s.rows && s.rows[p].status != PayoutStatus.Paid
    ensures EndsWith(After(c, s, events), s, k, Reconciled(LedgerOf(s), ViewOf(c, s), p, s.rows[p]).0)
    ensures After(c, s, events).value.passes == s.passes
    ensures Reconciled(LedgerOf(s), ViewOf(c, s), p, s.rows[p]).1.ok ==> RunsOn(events)
  {
    var rest := BegunRuns(c, s, k, p);
    events := [Machine.Begin(k, p, Machine.Reconcile)] + rest;
    FromBegin(c, s, k, p, rest, Reconciled(LedgerOf(s), ViewOf(c, s), p, s.rows[p]).0);
  }

  lemma FromBegin(c: Config, s: State, k: nat, p: nat, rest: seq<Event>, l: Ledger)
    requires k !in s.passes && p in s.rows && s.rows[p].status != PayoutStatus.Paid
    requires EndsWith(After(c, Machine.BeginNext(s, k, p, Machine.Reconcile), rest), Machine.BeginNext(s, k, p, Machine.Reconcile), k, l)
    ensures EndsWith(After(c, s, [Machine.Begin(k, p, Machine.Reconcile)] + rest), s, k, l)
    ensures s.passes - {k} == s.passes
  {
    var s1 := Machine.BeginNext(s, k, p, Machine.Reconcile);
    Then(c, s, Machine.Begin(k, p, Machine.Reconcile), rest);
    assert s1.passes - {k} == s.passes - {k} == s.passes;
  }

  lemma BegunRuns(c: Config, s: State, k: nat, p: nat) returns (events: seq<Event>)
    requires Protocol.Inv(c, s) && k !in s.passes && p in s.rows && s.rows[p].status != PayoutStatus.Paid
    ensures EndsWith(After(c, Machine.BeginNext(s, k, p, Machine.Reconcile), events), Machine.BeginNext(s, k, p, Machine.Reconcile), k,
                     Reconciled(LedgerOf(s), ViewOf(c, s), p, s.rows[p]).0)
    ensures Reconciled(LedgerOf(s), ViewOf(c, s), p, s.rows[p]).1.ok ==> RunsOn(events)
  {
    var s1 := Machine.BeginNext(s, k, p, Machine.Reconcile);
    assert Protocol.RowOk(s, p);
    forall q | 0 <= q < |s1.chain| ensures s1.chain[q].proposal.id == q {
      assert Protocol.EntryOk(s, q);
    }
    if s.rows[p].proposalId.Some? {
      events := SettleRuns(c, s1, k, false);
    } else if s.rows[p].claim.Some? {
      events := WindowRuns(c, s1, k);
    } else {
      events := UnclaimedRuns(c, s1, k);
    }
  }
}
