// When submissions land, or die, before the abandoned-claim grace can heal their
// claim, the assumption about unresolved claims is a theorem: a pending row never
// has anything out, so every /pay claims over a resolved history.
module SettlementPrompt {
  import opened Wrappers
  import opened Dao
  import opened Payouts
  import opened Settlement
  import opened SettlementLedger
  import opened SettlementLaws
  import opened SettlementSafety
  import opened SettlementMoney

  ghost predicate PendingSpent(c: Config, s: State) {
    forall p | p in s.rows && s.rows[p].status == PayoutStatus.Pending :: LastSpent(c, s, p)
  }

  lemma HealMeansSpent(c: Config, s: State, k: nat)
    requires Inv(c, s) && Safe(c, s) && BoundsOk(c) && LandsPromptly(c)
    requires k in s.passes && PassEnabled(c, s, k, Heal(k)) && s.now - s.passes[k].begun <= c.passMs
    requires s.passes[k].payout in s.rows && HealGuard(s.rows[s.passes[k].payout], s.now)
    ensures LastSpent(c, s, s.passes[k].payout)
  {
    var pass := s.passes[k];
    var p := pass.payout;
    assert PassOk(c, s, k, pass) && RowOk(s, p);
    if p in s.last {
      assert LastOk(s, p);
      NothingFoundMeansSpent(c, s, k);
    }
  }

  /** The only steps that put a row that was not pending to pending. */
  ghost predicate MadePendingBy(s: State, ev: Event, p: nat) {
    && (ev.Heal? || ev.ApplySettle?) && ev.pass in s.passes && s.passes[ev.pass].payout == p && p in s.rows
    && (ev.Heal? ==> HealGuard(s.rows[p], s.now))
    && (ev.ApplySettle? ==>
          && s.passes[ev.pass].phase.Apply? && SettleGuard(s.rows[p], s.passes[ev.pass].phase.id)
          && ProposalToPayout(s.passes[ev.pass].phase.effective).reset)
  }

  lemma WhoMakesPending(c: Config, s: State, ev: Event, p: nat)
    requires Enabled(c, s, ev) && p in s.rows && s.rows[p].status != PayoutStatus.Pending && p < s.nextRow
    requires p in Next(c, s, ev).rows && Next(c, s, ev).rows[p].status == PayoutStatus.Pending
    ensures MadePendingBy(s, ev, p)
  {
    if !IsEnv(ev) && !ev.Begin? {
      if ev.Adopt? {
        AdoptDoesNot(c, s, ev.pass, p);
      } else if ev.Expire? || ev.Heal? {
        ResetMakesPending(c, s, ev.pass, ev, p);
      } else if !ev.ApplySettle? {
        OthersDoNot(c, s, ev.pass, ev, p);
      }
    }
  }

  lemma AdoptDoesNot(c: Config, s: State, k: nat, p: nat)
    requires k in s.passes && PassEnabled(c, s, k, Adopt(k)) && p in s.rows && s.rows[p].status != PayoutStatus.Pending
    ensures p in AdoptNext(c, s, k).rows ==> AdoptNext(c, s, k).rows[p].status != PayoutStatus.Pending
  {
  }

  lemma ResetMakesPending(c: Config, s: State, k: nat, ev: Event, p: nat)
    requires k in s.passes && PassEnabled(c, s, k, ev) && ev.pass == k && (ev.Expire? || ev.Heal?)
    requires p in s.rows && s.rows[p].status != PayoutStatus.Pending
    requires p in PassNext(c, s, k, ev).rows && PassNext(c, s, k, ev).rows[p].status == PayoutStatus.Pending
    ensures MadePendingBy(s, ev, p)
  {
  }

  lemma OthersDoNot(c: Config, s: State, k: nat, ev: Event, p: nat)
    requires k in s.passes && PassEnabled(c, s, k, ev) && !(ev.Adopt? || ev.Expire? || ev.Heal? || ev.ApplySettle?)
    requires p in s.rows && s.rows[p].status != PayoutStatus.Pending
    ensures p in PassNext(c, s, k, ev).rows && PassNext(c, s, k, ev).rows[p].status != PayoutStatus.Pending
  {
  }

  lemma LastStays(c: Config, s: State, ev: Event, p: nat)
    requires Enabled(c, s, ev)
    requires p in Next(c, s, ev).rows && Next(c, s, ev).rows[p].status == PayoutStatus.Pending
    ensures Last(Next(c, s, ev), p) == Last(s, p)
  {
    if !IsEnv(ev) && !ev.Begin? && !ev.Submit? && !ev.ClaimRow? {
      OnlyRowsAndPasses(c, s, ev.pass, ev);
    }
  }

  lemma PendingStaysSpent(c: Config, s: State, ev: Event, p: nat)
    requires Inv(c, s) && Safe(c, s) && PendingSpent(c, s) && BoundsOk(c) && LandsPromptly(c)
    requires Enabled(c, s, ev) && Assumed(c, s, ev)
    requires p in Next(c, s, ev).rows && Next(c, s, ev).rows[p].status == PayoutStatus.Pending
    ensures LastSpent(c, s, p)
  {
    StepMovesRows(c, s, ev, p);
    RowsFit(c, s, p);
    if p !in s.rows {
      IdsAreOld(c, s);
    } else if s.rows[p].status != PayoutStatus.Pending {
      WhoMakesPending(c, s, ev, p);
      MadePendingMeansSpent(c, s, ev, p);
    }
  }

  lemma MadePendingMeansSpent(c: Config, s: State, ev: Event, p: nat)
    requires Inv(c, s) && Safe(c, s) && BoundsOk(c) && LandsPromptly(c)
    requires Enabled(c, s, ev) && Assumed(c, s, ev) && MadePendingBy(s, ev, p)
    ensures LastSpent(c, s, p)
  {
    if ev.Heal? {
      HealMeansSpent(c, s, ev.pass);
    } else {
      assert PassSafe(c, s, s.passes[ev.pass]);
      DeadPinMeansSpent(c, s, p, s.passes[ev.pass].phase.id);
    }
  }

  lemma StepKeepsPendingSpent(c: Config, s: State, ev: Event)
    requires Inv(c, s) && Safe(c, s) && PendingSpent(c, s) && BoundsOk(c) && LandsPromptly(c)
    requires Enabled(c, s, ev) && Assumed(c, s, ev)
    ensures PendingSpent(c, Next(c, s, ev))
  {
    var s' := Next(c, s, ev);
    StepSteady(c, s, ev);
    forall p | p in s'.rows && s'.rows[p].status == PayoutStatus.Pending ensures LastSpent(c, s', p) {
      PendingStaysSpent(c, s, ev, p);
      LastStays(c, s, ev, p);
    }
  }

  /** With prompt landing every run that meets the timing assumptions is safe, and
      no /pay ever claims over an unresolved claim: nothing has to be assumed of
      the people running /pay. */
  lemma {:induction false} PromptRunIsSafe(c: Config, states: seq<State>, events: seq<Event>, i: nat)
    requires AssumedRun(c, states, events) && LandsPromptly(c) && i < |states|
    ensures Safe(c, states[i]) && PendingSpent(c, states[i])
  {
    if i > 0 {
      PromptRunIsSafe(c, states, events, i - 1);
      RunKeeps(c, states, events, i - 1);
      PromptStepSafe(c, states[i - 1], events[i - 1]);
    }
  }

  lemma PromptStepSafe(c: Config, s: State, ev: Event)
    requires Inv(c, s) && Safe(c, s) && PendingSpent(c, s) && BoundsOk(c) && LandsPromptly(c)
    requires Enabled(c, s, ev) && Assumed(c, s, ev)
    ensures Safe(c, Next(c, s, ev)) && PendingSpent(c, Next(c, s, ev))
  {
    StepSafe(c, s, ev);
    StepKeepsPendingSpent(c, s, ev);
  }

  lemma PromptRunIsResolved(c: Config, states: seq<State>, events: seq<Event>)
    requires AssumedRun(c, states, events) && LandsPromptly(c)
    ensures ResolvedRun(c, states, events)
  {
    forall i | 0 <= i < |events| ensures NoClaimOverUnresolved(c, states[i], events[i]) {
      PromptRunIsSafe(c, states, events, i);
    }
  }

  /** Whenever a payout is pending, no proposal the bot submitted for it is live,
      executed or still able to land. */
  lemma PendingHasNothingOut(c: Config, states: seq<State>, events: seq<Event>, i: nat, p: nat, a: nat)
    requires AssumedRun(c, states, events) && LandsPromptly(c) && i < |states|
    requires p in states[i].rows && states[i].rows[p].status == PayoutStatus.Pending
    requires a < |states[i].subs| && states[i].subs[a].payout == p
    ensures Spent(c, states[i], a) && !PaidOut(states[i], a)
  {
    PromptRunIsSafe(c, states, events, i);
    RunKeeps(c, states, events, i);
    assert SubOk(states[i], a);
    SpentIsUnpaid(c, states[i], a);
  }

  /** No double payment, assuming nothing of who runs /pay when. */
  lemma NoDoublePayWhenPrompt(c: Config, states: seq<State>, events: seq<Event>, i: nat, a: nat, b: nat)
    requires AssumedRun(c, states, events) && LandsPromptly(c) && i < |states|
    requires a < |states[i].subs| && b < |states[i].subs| && states[i].subs[a].payout == states[i].subs[b].payout
    requires PaidOut(states[i], a) && PaidOut(states[i], b)
    ensures a == b
  {
    PromptRunIsResolved(c, states, events);
    NoDoublePay(c, states, events, i, a, b);
  }
}
