// What holds of the payout ledger in every run, under every interleaving and with
// no timing assumption: paid rows are sound and final, a pin is never replaced,
// and submissions for one payout are serialized by their claims.
module SettlementLaws {
  import opened Wrappers
  import opened Dao
  import opened Payouts
  import opened Settlement
  import opened SettlementLedger

  /** Everything one step can do to a row that exists before and after it. */
  ghost predicate RowStep(old0: Payout, new0: Payout) {
    || new0 == old0
    || (old0.status != PayoutStatus.Paid && old0.proposalId.None? && new0.status == PayoutStatus.Proposed)
    || (old0.status != PayoutStatus.Paid && new0.status == PayoutStatus.Pending && new0.proposalId.None?)
    || (old0.status == PayoutStatus.Proposed && old0.proposalId.Some? && new0 == MarkPaid(old0, new0.updatedAt))
  }

  /** The rows a pass step leaves are those before it but for the pass's own payout. */
  ghost predicate OnlyRow(s: State, s': State, p: nat) {
    && (p in s'.rows <==> p in s.rows)
    && (p in s.rows ==> s'.rows == s.rows[p := s'.rows[p]] && RowStep(s.rows[p], s'.rows[p]))
    && (p !in s.rows ==> s'.rows == s.rows)
  }

  ghost predicate PinsFit(s: State, p: nat) {
    p in s.rows ==>
      && (s.rows[p].status == PayoutStatus.Pending ==> s.rows[p].proposalId.None?)
      && (s.rows[p].status == PayoutStatus.Paid ==> s.rows[p].proposalId.Some?)
  }

  lemma RowsFit(c: Config, s: State, p: nat)
    requires Inv(c, s)
    ensures PinsFit(s, p) && (p in s.rows ==> p < s.nextRow)
  {
    if p in s.rows {
      assert RowOk(s, p);
    }
  }

  lemma ReconcileRowStep(c: Config, s: State, k: nat, ev: Event)
    requires k in s.passes && PinsFit(s, s.passes[k].payout) && PassEnabled(c, s, k, ev) && (ev.Adopt? || ev.Expire? || ev.Heal?)
    ensures OnlyRow(s, PassNext(c, s, k, ev), s.passes[k].payout)
  {
  }

  lemma SettleRowStep(c: Config, s: State, k: nat)
    requires k in s.passes && PinsFit(s, s.passes[k].payout) && s.passes[k].phase.Apply?
    ensures OnlyRow(s, ApplySettleNext(s, k), s.passes[k].payout)
  {
  }

  lemma PinRowStep(c: Config, s: State, k: nat, ev: Event)
    requires k in s.passes && PinsFit(s, s.passes[k].payout) && PassEnabled(c, s, k, ev) && (ev.PinLive? || ev.PinAnswer?)
    ensures OnlyRow(s, PassNext(c, s, k, ev), s.passes[k].payout)
  {
  }

  lemma ClaimRowStep(c: Config, s: State, k: nat)
    requires k in s.passes && PinsFit(s, s.passes[k].payout) && s.passes[k].job.Propose?
    ensures OnlyRow(s, ClaimRowNext(s, k), s.passes[k].payout)
  {
  }

  lemma PassRowStep(c: Config, s: State, k: nat, ev: Event, p: nat)
    requires Inv(c, s) && k in s.passes && PassEnabled(c, s, k, ev)
    ensures var s' := PassNext(c, s, k, ev);
            (p in s'.rows <==> p in s.rows) && (p in s.rows ==> RowStep(s.rows[p], s'.rows[p]))
  {
    RowsFit(c, s, s.passes[k].payout);
    if ev.Adopt? || ev.Expire? || ev.Heal? {
      ReconcileRowStep(c, s, k, ev);
    } else if ev.ApplySettle? {
      SettleRowStep(c, s, k);
    } else if ev.PinLive? || ev.PinAnswer? {
      PinRowStep(c, s, k, ev);
    } else if ev.ClaimRow? {
      ClaimRowStep(c, s, k);
    }
  }

  /** Nothing but rows, passes, notices and reset counts differs. */
  ghost predicate TablesApart(s: State, s': State) {
    s' == s.(rows := s'.rows, passes := s'.passes, paidNotices := s'.paidNotices, resets := s'.resets)
  }

  /** Only a claim and a submit touch the submissions; no pass touches the chain. */
  lemma OnlyRowsAndPasses(c: Config, s: State, k: nat, ev: Event)
    requires k in s.passes && PassEnabled(c, s, k, ev) && !ev.ClaimRow? && !ev.Submit?
    ensures TablesApart(s, PassNext(c, s, k, ev))
  {
    if ev.ApplySettle? {
      SettleApart(s, k);
    } else if ev.PinLive? || ev.PinAnswer? {
      PinApart(c, s, k, ev);
    }
  }

  lemma SettleApart(s: State, k: nat)
    requires k in s.passes && s.passes[k].phase.Apply?
    ensures TablesApart(s, ApplySettleNext(s, k))
  {
  }

  lemma PinApart(c: Config, s: State, k: nat, ev: Event)
    requires k in s.passes && PassEnabled(c, s, k, ev) && (ev.PinLive? || ev.PinAnswer?)
    ensures TablesApart(s, PassNext(c, s, k, ev))
  {
  }

  /** Rows appear pending, disappear only by an erasure that found them settled or
      never started, and otherwise move as `RowStep` says. */
  lemma StepMovesRows(c: Config, s: State, ev: Event, p: nat)
    requires Inv(c, s) && Enabled(c, s, ev)
    ensures var s' := Next(c, s, ev);
            && (p in s.rows && p in s'.rows ==> RowStep(s.rows[p], s'.rows[p]))
            && (p in s.rows && p !in s'.rows ==> ev == Forget(s.rows[p].contributorId))
            && (p !in s.rows && p in s'.rows ==> p == s.nextRow && s'.rows[p].status == PayoutStatus.Pending)
  {
    RowsFit(c, s, p);
    if !IsEnv(ev) && !ev.Begin? {
      PassRowStep(c, s, ev.pass, ev, p);
    }
  }

  /** A paid row is pinned to an executed proposal that carries exactly its
      description, its receiver and its amount in the native token. */
  lemma PaidIsSound(c: Config, states: seq<State>, events: seq<Event>, i: nat, p: nat)
    requires IsRun(c, states, events) && i < |states|
    requires p in states[i].rows && states[i].rows[p].status == PayoutStatus.Paid
    ensures var s, row := states[i], states[i].rows[p];
            && row.proposalId.Some? && row.claim.Some? && row.proposalId.value < |s.chain|
            && var proposal := s.chain[row.proposalId.value].proposal;
               && proposal.id == row.proposalId.value
               && proposal.status == ProposalStatus.Approved
               && MatchesPayoutTransfer(proposal, PayoutDescription(p, row.taskId), row.claim.value)
  {
    RunKeeps(c, states, events, i);
    assert RowOk(states[i], p);
    assert EntryOk(states[i], states[i].rows[p].proposalId.value);
  }

  /** The chain keeps the proposal `q` has, whatever becomes of its status. */
  ghost predicate KeepsProposal(s: State, s': State, q: nat) {
    q < |s.chain| ==> q < |s'.chain| && SameProposal(s.chain[q].proposal, s'.chain[q].proposal)
  }

  lemma RunStepKeepsProposal(c: Config, states: seq<State>, events: seq<Event>, n: nat, q: nat)
    requires IsRun(c, states, events) && n < |events|
    ensures KeepsProposal(states[n], states[n + 1], q)
  {
    RunKeeps(c, states, events, n);
    StepGrows(c, states[n], events[n]);
    GrownKeepsProposal(states[n], states[n + 1], q);
  }

  lemma GrownKeepsProposal(s: State, s': State, q: nat)
    requires Grown(s, s')
    ensures KeepsProposal(s, s', q)
  {
    assert q < |s.chain| ==> EntryGrown(s.chain[q], s'.chain[q]);
  }

  lemma {:induction false} ProposalChain(states: seq<State>, i: nat, j: nat, q: nat)
    requires i <= j < |states|
    requires forall n | i <= n < j :: KeepsProposal(states[n], states[n + 1], q)
    ensures KeepsProposal(states[i], states[j], q)
  {
    if i < j {
      ProposalChain(states, i, j - 1, q);
    }
  }

  /** A proposal stays the same proposal for the rest of the run. */
  lemma ProposalsStay(c: Config, states: seq<State>, events: seq<Event>, i: nat, j: nat, q: nat)
    requires IsRun(c, states, events) && i <= j < |states|
    ensures KeepsProposal(states[i], states[j], q)
  {
    forall n | i <= n < j ensures KeepsProposal(states[n], states[n + 1], q) {
      RunStepKeepsProposal(c, states, events, n, q);
    }
    ProposalChain(states, i, j, q);
  }

  /** The pinned proposal carries the row's description. */
  lemma PinCarriesDescription(c: Config, states: seq<State>, events: seq<Event>, i: nat, p: nat)
    requires IsRun(c, states, events) && i < |states|
    requires p in states[i].rows && states[i].rows[p].proposalId.Some?
    ensures states[i].rows[p].proposalId.value < |states[i].chain|
    ensures states[i].chain[states[i].rows[p].proposalId.value].proposal.description == Desc(p, states[i].rows[p])
  {
    RunKeeps(c, states, events, i);
    assert RowOk(states[i], p);
  }

  /** No proposal ever serves two payouts, be the two pins in one moment of the run
      or the first long reset or erased when the second is made. */
  lemma PinsAreDistinct(c: Config, states: seq<State>, events: seq<Event>, i: nat, j: nat, p: nat, p': nat)
    requires IsRun(c, states, events) && i <= j < |states|
    requires p in states[i].rows && p' in states[j].rows && p != p'
    requires states[i].rows[p].proposalId.Some?
    ensures states[i].rows[p].proposalId != states[j].rows[p'].proposalId
  {
    PinCarriesDescription(c, states, events, i, p);
    ProposalsStay(c, states, events, i, j, states[i].rows[p].proposalId.value);
    if states[i].rows[p].proposalId == states[j].rows[p'].proposalId {
      PinCarriesDescription(c, states, events, j, p');
      DescriptionInjective(p, states[i].rows[p].taskId, p', states[j].rows[p'].taskId);
    }
  }

  /** A paid row stays as it is or is erased, and an erased one never comes back. */
  ghost predicate PaidKept(s: State, s': State, p: nat) {
    && s.nextRow <= s'.nextRow
    && (p in s.rows && s.rows[p].status == PayoutStatus.Paid ==> p in s'.rows ==> s'.rows[p] == s.rows[p])
    && (p !in s.rows && p < s.nextRow ==> p !in s'.rows)
  }

  lemma {:induction false} PaidChain(states: seq<State>, i: nat, j: nat, p: nat)
    requires i <= j < |states| && p < states[i].nextRow
    requires forall n | i <= n < j :: PaidKept(states[n], states[n + 1], p)
    ensures PaidKept(states[i], states[j], p)
  {
    if i < j {
      PaidChain(states, i, j - 1, p);
    }
  }

  lemma RunStepKeepsPaid(c: Config, states: seq<State>, events: seq<Event>, n: nat, p: nat)
    requires IsRun(c, states, events) && n < |events|
    ensures PaidKept(states[n], states[n + 1], p)
  {
    RunKeeps(c, states, events, n);
    StepMovesRows(c, states[n], events[n], p);
    NextRowGrows(c, states[n], events[n]);
  }

  /** Paid is final: from then on the row stays as it is until an erasure takes it. */
  lemma PaidIsFinal(c: Config, states: seq<State>, events: seq<Event>, i: nat, j: nat, p: nat)
    requires IsRun(c, states, events) && i <= j < |states|
    requires p in states[i].rows && states[i].rows[p].status == PayoutStatus.Paid
    ensures p in states[j].rows ==> states[j].rows[p] == states[i].rows[p]
  {
    RunKeeps(c, states, events, i);
    RowsFit(c, states[i], p);
    forall n | i <= n < j ensures PaidKept(states[n], states[n + 1], p) {
      RunStepKeepsPaid(c, states, events, n, p);
    }
    PaidChain(states, i, j, p);
  }

  lemma NextRowGrows(c: Config, s: State, ev: Event)
    requires Enabled(c, s, ev)
    ensures s.nextRow <= Next(c, s, ev).nextRow
  {
    if !IsEnv(ev) && !ev.Begin? && !ev.ClaimRow? && !ev.Submit? {
      OnlyRowsAndPasses(c, s, ev.pass, ev);
    }
  }

  /** The paid notice is enqueued in the step that pays, exactly once per payout
      over the whole run, and for nothing that is not paid. */
  lemma PaidNoticeOnce(c: Config, states: seq<State>, events: seq<Event>, i: nat, p: nat)
    requires IsRun(c, states, events) && i < |states|
    ensures multiset(states[i].paidNotices)[p] <= 1
    ensures p in states[i].rows ==>
              (multiset(states[i].paidNotices)[p] == 1 <==> states[i].rows[p].status == PayoutStatus.Paid)
  {
    RunKeeps(c, states, events, i);
  }

  /** A pin is never replaced by another: it stays, or the row goes back to
      pending without one, or the row is erased. A pending row has none. */
  lemma PinDiscipline(c: Config, states: seq<State>, events: seq<Event>, i: nat, p: nat)
    requires IsRun(c, states, events) && i < |events| && p in states[i].rows
    ensures states[i].rows[p].status == PayoutStatus.Pending ==> states[i].rows[p].proposalId.None?
    ensures states[i].rows[p].proposalId.Some? && p in states[i + 1].rows ==>
              || states[i + 1].rows[p].proposalId == states[i].rows[p].proposalId
              || (states[i + 1].rows[p].proposalId.None? && states[i + 1].rows[p].status == PayoutStatus.Pending)
  {
    RunKeeps(c, states, events, i);
    assert RowOk(states[i], p);
    StepMovesRows(c, states[i], events[i], p);
  }

  /** Between two submissions for one payout its row was reset: the later one was
      claimed at a higher reset count. And each belongs to the pass that claimed it. */
  lemma SubmissionsAreSerialized(c: Config, states: seq<State>, events: seq<Event>, n: nat, i: nat, j: nat)
    requires IsRun(c, states, events) && n < |states|
    requires i < j < |states[n].subs| && states[n].subs[i].payout == states[n].subs[j].payout
    ensures states[n].subs[i].resetsBefore < states[n].subs[j].resetsBefore <= Resets(states[n], states[n].subs[i].payout)
  {
    RunKeeps(c, states, events, n);
    assert SubOk(states[n], j);
  }

  /** add_proposal is called only by the pass whose claim it is, while no other pass
      may submit that claim. */
  lemma SubmitsOwnClaim(c: Config, states: seq<State>, events: seq<Event>, n: nat)
    requires IsRun(c, states, events) && n < |events| && events[n].Submit?
    ensures var s, k := states[n], events[n].pass;
            && k in s.passes && s.passes[k].phase.Claimed?
            && var i := s.passes[k].phase.sub;
               && i < |s.subs| && s.subs[i].owner == k && s.subs[i].payout == s.passes[k].payout
               && forall k' | k' in s.passes && k' != k :: s.passes[k'].phase != Claimed(i)
  {
    RunKeeps(c, states, events, n);
    var s, k := states[n], events[n].pass;
    assert PassOk(c, s, k, s.passes[k]);
    forall k' | k' in s.passes && k' != k ensures s.passes[k'].phase != Claimed(s.passes[k].phase.sub) {
      assert PassOk(c, s, k', s.passes[k']);
    }
  }

  /** The claim a submit step is for. */
  function SubmittedClaim(s: State, ev: Event): nat
    requires ev.Submit? && ev.pass in s.passes && s.passes[ev.pass].phase.Claimed?
  {
    s.passes[ev.pass].phase.sub
  }

  /** No pass may submit claim `i` any more. */
  ghost predicate UsedUp(s: State, i: nat) {
    i < |s.subs| && forall k | k in s.passes :: s.passes[k].phase != Claimed(i)
  }

  /** A step of pass `k` leaves the others alone, and no pass gets younger; `k` takes
      another row for what it saw only by a claim, and comes to wait for its submit,
      to apply a status or to pin an answer only by the step before that. */
  ghost predicate PassMoved(s: State, s': State, k: nat, ev: Event) {
    && |s.subs| <= |s'.subs|
    && forall j | j in s'.passes ::
         && j in s.passes && s'.passes[j].begun == s.passes[j].begun
         && (j != k ==> s'.passes[j] == s.passes[j])
         && (j == k && !ev.ClaimRow? ==> SawTheSame(s.passes[j], s'.passes[j]))
         && var phase := s'.passes[j].phase;
            j == k ==>
              && (phase.Claimed? ==> ev.ClaimRow? && phase.sub == |s.subs|)
              && (phase.Apply? ==> ev.ReadLast? || ev.ReadProposal?)
              && (phase.Pin? ==> ev.VerifyRead?)
  }

  predicate SawTheSame(a: Pass, b: Pass) {
    b.payout == a.payout && b.seen == a.seen && b.resets0 == a.resets0 && b.last0 == a.last0
  }

  lemma ExpireMoves(s: State, k: nat)
    requires k in s.passes
    ensures PassMoved(s, ExpireNext(s, k), k, Expire(k))
  {
  }

  lemma HealMoves(s: State, k: nat)
    requires k in s.passes
    ensures PassMoved(s, HealNext(s, k), k, Heal(k))
  {
  }

  lemma SettleMoves(s: State, k: nat)
    requires k in s.passes && s.passes[k].phase.Apply?
    ensures PassMoved(s, ApplySettleNext(s, k), k, ApplySettle(k))
  {
  }

  lemma OthersMove(c: Config, s: State, k: nat, ev: Event)
    requires k in s.passes && PassEnabled(c, s, k, ev)
    requires !(ev.Adopt? || ev.Expire? || ev.Heal? || ev.ApplySettle? || ev.PinLive? || ev.ClaimRow? || ev.PinAnswer?)
    ensures PassMoved(s, PassNext(c, s, k, ev), k, ev)
  {
  }

  lemma PassMoves(c: Config, s: State, k: nat, ev: Event)
    requires k in s.passes && PassEnabled(c, s, k, ev) && ev.pass == k
    ensures PassMoved(s, PassNext(c, s, k, ev), k, ev)
  {
    if ev.Expire? {
      ExpireMoves(s, k);
    } else if ev.Heal? {
      HealMoves(s, k);
    } else if ev.ApplySettle? {
      SettleMoves(s, k);
    } else if !(ev.Adopt? || ev.PinLive? || ev.ClaimRow? || ev.PinAnswer?) {
      OthersMove(c, s, k, ev);
    }
  }

  lemma StepLeavesUsedUp(c: Config, s: State, ev: Event, i: nat)
    requires Enabled(c, s, ev) && UsedUp(s, i)
    ensures UsedUp(Next(c, s, ev), i)
  {
    if !IsEnv(ev) && !ev.Begin? {
      PassMoves(c, s, ev.pass, ev);
    }
  }

  lemma {:induction false} StaysUsedUp(c: Config, states: seq<State>, events: seq<Event>, m: nat, n: nat, i: nat)
    requires m <= n < |states| <= |events| + 1 && UsedUp(states[m], i)
    requires forall j | m <= j < n :: Enabled(c, states[j], events[j]) && states[j + 1] == Next(c, states[j], events[j])
    ensures UsedUp(states[n], i)
  {
    if m < n {
      StaysUsedUp(c, states, events, m, n - 1, i);
      StepLeavesUsedUp(c, states[n - 1], events[n - 1], i);
    }
  }

  /** ... and at most once per claim over the whole run. */
  lemma OneSubmitPerClaim(c: Config, states: seq<State>, events: seq<Event>, m: nat, n: nat)
    requires IsRun(c, states, events) && m < n < |events| && events[m].Submit? && events[n].Submit?
    ensures SubmittedClaim(states[m], events[m]) != SubmittedClaim(states[n], events[n])
  {
    SubmitsOwnClaim(c, states, events, m);
    StaysUsedUp(c, states, events, m + 1, n, SubmittedClaim(states[m], events[m]));
  }
}
