// The theorems about money, over whole runs: no double payment, and erasure never
// outruns a payment.
module SettlementMoney {
  import opened Wrappers
  import opened Dao
  import opened Payouts
  import opened Settlement
  import opened SettlementLedger
  import opened SettlementLaws
  import opened SettlementSafety

  /** A run every step of which meets the clock, landing, pass and outsider
      assumptions. */
  ghost predicate AssumedRun(c: Config, states: seq<State>, events: seq<Event>) {
    && BoundsOk(c) && IsRun(c, states, events) && states[0].now <= states[0].chainNow + c.leadMs
    && forall i | 0 <= i < |events| :: Assumed(c, states[i], events[i])
  }

  /** ... and in which no /pay claims over an unresolved earlier claim. */
  ghost predicate ResolvedRun(c: Config, states: seq<State>, events: seq<Event>) {
    && AssumedRun(c, states, events)
    && forall i | 0 <= i < |events| :: NoClaimOverUnresolved(c, states[i], events[i])
  }

  /** Submissions land, or are dead, before the abandoned-claim grace can heal
      their claim. */
  ghost predicate LandsPromptly(c: Config) {
    c.landingMs + c.passMs <= ABANDONED_CLAIM_GRACE_MS
  }

  lemma RunStepSafe(c: Config, states: seq<State>, events: seq<Event>, n: nat)
    requires ResolvedRun(c, states, events) && n < |events| && Safe(c, states[n])
    ensures Safe(c, states[n + 1])
  {
    RunKeeps(c, states, events, n);
    StepSafe(c, states[n], events[n]);
  }

  lemma {:induction false} RunIsSafe(c: Config, states: seq<State>, events: seq<Event>, i: nat)
    requires ResolvedRun(c, states, events) && i < |states|
    ensures Safe(c, states[i])
  {
    if i == 0 {
      StartIsSafe(c, states[0]);
    } else {
      RunIsSafe(c, states, events, i - 1);
      RunStepSafe(c, states, events, i - 1);
    }
  }

  lemma StartIsSafe(c: Config, s: State)
    requires Init(s) && s.now <= s.chainNow + c.leadMs
    ensures Safe(c, s)
  {
  }

  // ---- Steps never revive anything ----

  lemma PassStepSteady(c: Config, s: State, k: nat, ev: Event)
    requires Inv(c, s) && k in s.passes && PassEnabled(c, s, k, ev)
    ensures Steady(c, s, PassNext(c, s, k, ev))
  {
    var s' := PassNext(c, s, k, ev);
    PassStepGrows(c, s, k, ev);
    if ev.Submit? {
      SubmitSteady(c, s, k);
    } else if ev.ClaimRow? {
      ClaimLeavesTables(s, k);
      SteadyWhenTablesStay(c, s, s');
    } else {
      OnlyRowsAndPasses(c, s, k, ev);
      SteadyWhenTablesStay(c, s, s');
    }
  }

  lemma SubmitSteady(c: Config, s: State, k: nat)
    requires Inv(c, s) && k in s.passes && PassEnabled(c, s, k, Submit(k)) && Grown(s, SubmitNext(s, k))
    ensures Steady(c, s, SubmitNext(s, k))
  {
    var sub := s.passes[k].phase.sub;
    if s.subs[sub].state == Unsent {
      SubStateSteady(c, s, SubmitNext(s, k), sub, Sent);
    } else {
      SteadyWhenTablesStay(c, s, SubmitNext(s, k));
    }
  }

  lemma ClaimLeavesTables(s: State, k: nat)
    requires k in s.passes && s.passes[k].job.Propose?
    ensures ClaimRowNext(s, k).chain == s.chain && |s.subs| <= |ClaimRowNext(s, k).subs|
    ensures forall i | 0 <= i < |s.subs| :: ClaimRowNext(s, k).subs[i] == s.subs[i]
  {
  }

  lemma EnvStepSteady(c: Config, s: State, ev: Event)
    requires Inv(c, s) && ClocksOk(c, s) && IsEnv(ev) && Enabled(c, s, ev) && Assumed(c, s, ev)
    ensures Steady(c, s, EnvNext(c, s, ev))
  {
    EnvStepGrows(c, s, ev);
    match ev
    case Land(i, rounding) => LandSteady(c, s, i, rounding);
    case Drop(i) => SubStateSteady(c, s, EnvNext(c, s, ev), i, Dropped);
    case Outsider(description, kind, rounding) => OutsiderSteady(c, s, description, kind, rounding);
    case Council(id, status) => CouncilSteady(c, s, id, status);
    case Tick(_, _) => SteadyWhenTablesStay(c, s, EnvNext(c, s, ev));
    case CreatePayout(_, _) => SteadyWhenTablesStay(c, s, EnvNext(c, s, ev));
    case Forget(_) => SteadyWhenTablesStay(c, s, EnvNext(c, s, ev));
  }

  lemma StepSteady(c: Config, s: State, ev: Event)
    requires Inv(c, s) && ClocksOk(c, s) && Enabled(c, s, ev) && Assumed(c, s, ev)
    ensures Steady(c, s, Next(c, s, ev))
  {
    if IsEnv(ev) {
      EnvStepSteady(c, s, ev);
    } else if ev.Begin? {
      StepGrows(c, s, ev);
      SteadyWhenTablesStay(c, s, Next(c, s, ev));
    } else {
      PassStepSteady(c, s, ev.pass, ev);
    }
  }

  lemma RunStepSteady(c: Config, states: seq<State>, events: seq<Event>, j: nat)
    requires ResolvedRun(c, states, events) && j < |events|
    ensures Steady(c, states[j], states[j + 1])
  {
    RunKeeps(c, states, events, j);
    RunIsSafe(c, states, events, j);
    StepSteady(c, states[j], events[j]);
  }

  /** What is spent, and what is shut, stays so for the rest of the run. */
  ghost predicate StaysDead(c: Config, s: State, s': State, a: nat, q: nat) {
    && |s.subs| <= |s'.subs| && |s.chain| <= |s'.chain|
    && (a < |s.subs| && Spent(c, s, a) ==> Spent(c, s', a))
    && (q < |s.chain| && Shut(s.chain[q].proposal, c.periodMs, s.now) ==> Shut(s'.chain[q].proposal, c.periodMs, s'.now))
  }

  lemma {:induction false} SteadyChain(c: Config, states: seq<State>, i: nat, j: nat, a: nat, q: nat)
    requires i <= j < |states|
    requires forall n | i <= n < j :: Steady(c, states[n], states[n + 1])
    ensures StaysDead(c, states[i], states[j], a, q)
  {
    if i < j {
      SteadyChain(c, states, i, j - 1, a, q);
    }
  }

  lemma RunIsSteady(c: Config, states: seq<State>, events: seq<Event>, i: nat, j: nat, a: nat, q: nat)
    requires ResolvedRun(c, states, events) && i <= j < |states|
    ensures StaysDead(c, states[i], states[j], a, q)
  {
    forall n | i <= n < j ensures Steady(c, states[n], states[n + 1]) {
      RunStepSteady(c, states, events, n);
    }
    SteadyChain(c, states, i, j, a, q);
  }

  /** A spent submission is not an executed one. */
  lemma SpentIsUnpaid(c: Config, s: State, a: nat)
    requires a < |s.subs|
    ensures Spent(c, s, a) ==> !PaidOut(s, a)
  {
  }

  // ---- No double payment ----

  /** Of all the proposals the bot ever submitted for one payout, at most one is
      ever executed. */
  lemma NoDoublePay(c: Config, states: seq<State>, events: seq<Event>, i: nat, a: nat, b: nat)
    requires ResolvedRun(c, states, events) && i < |states|
    requires a < |states[i].subs| && b < |states[i].subs| && states[i].subs[a].payout == states[i].subs[b].payout
    requires PaidOut(states[i], a) && PaidOut(states[i], b)
    ensures a == b
  {
    RunIsSafe(c, states, events, i);
    RunKeeps(c, states, events, i);
    PaidIsNewest(c, states[i], a);
    PaidIsNewest(c, states[i], b);
  }

  lemma PaidIsNewest(c: Config, s: State, a: nat)
    requires Inv(c, s) && Safe(c, s) && a < |s.subs| && PaidOut(s, a)
    ensures Last(s, s.subs[a].payout) == Some(a)
  {
    SpentIsUnpaid(c, s, a);
  }

  /** The same, seen from the chain: two executed proposals that carry one payout's
      requested identities are the same proposal. */
  lemma OnePaymentOnChain(c: Config, states: seq<State>, events: seq<Event>, i: nat, q: nat, q': nat, r: Request, r': Request)
    requires ResolvedRun(c, states, events) && i < |states|
    requires q < |states[i].chain| && q' < |states[i].chain|
    requires r in states[i].requested && r' in states[i].requested && r.payout == r'.payout
    requires MatchesPayoutTransfer(states[i].chain[q].proposal, PayoutDescription(r.payout, r.taskId), r.claim)
    requires MatchesPayoutTransfer(states[i].chain[q'].proposal, PayoutDescription(r'.payout, r'.taskId), r'.claim)
    requires states[i].chain[q].proposal.status == ProposalStatus.Approved
    requires states[i].chain[q'].proposal.status == ProposalStatus.Approved
    ensures q == q'
  {
    var s := states[i];
    RunIsSafe(c, states, events, i);
    RunKeeps(c, states, events, i);
    MatchIsOurs(c, s, q, r.payout, r.taskId, r.claim);
    MatchIsOurs(c, s, q', r'.payout, r'.taskId, r'.claim);
    NoDoublePay(c, states, events, i, s.chain[q].origin.value, s.chain[q'].origin.value);
  }

  // ---- Erasure ----

  /** Nothing can come of the submission any more but the payment it already made. */
  ghost predicate NothingOut(c: Config, s: State, a: nat)
    requires a < |s.subs|
  {
    Spent(c, s, a) || PaidOut(s, a)
  }

  /** When an erasure commits, no live or still-landable transfer of the bot's is
      left for any of that contributor's payouts, and none is ever executed after
      it that was not executed before. */
  lemma ErasureNeverOutrunsMoney(c: Config, states: seq<State>, events: seq<Event>, i: nat, j: nat, p: nat, a: nat)
    requires ResolvedRun(c, states, events) && i < j < |states|
    requires events[i].Forget? && p in states[i].rows && states[i].rows[p].contributorId == events[i].contributorId
    requires a < |states[i].subs| && states[i].subs[a].payout == p
    ensures p !in states[i + 1].rows
    ensures NothingOut(c, states[i], a)
    ensures a < |states[j].subs| && (PaidOut(states[j], a) ==> PaidOut(states[i], a))
  {
    ErasureCommits(c, states, events, i, p, a);
    RunIsSteady(c, states, events, i, j, a, 0);
  }

  lemma ErasureCommits(c: Config, states: seq<State>, events: seq<Event>, i: nat, p: nat, a: nat)
    requires ResolvedRun(c, states, events) && i < |events|
    requires events[i].Forget? && p in states[i].rows && states[i].rows[p].contributorId == events[i].contributorId
    requires a < |states[i].subs| && states[i].subs[a].payout == p
    ensures p !in states[i + 1].rows
    ensures NothingOut(c, states[i], a)
  {
    RunIsSafe(c, states, events, i);
    RunKeeps(c, states, events, i);
    ErasedLeavesNothing(c, states[i], events[i].contributorId, p, a);
  }

  lemma ErasedLeavesNothing(c: Config, s: State, who: nat, p: nat, a: nat)
    requires Inv(c, s) && Safe(c, s) && EnvEnabled(c, s, Forget(who))
    requires p in s.rows && s.rows[p].contributorId == who && a < |s.subs| && s.subs[a].payout == p
    ensures NothingOut(c, s, a)
  {
    assert SubOk(s, a);
    ErasedIsSettled(c, s, who, p);
  }
}
