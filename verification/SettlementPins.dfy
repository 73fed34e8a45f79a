// A pin is dropped only for a proposal that can never be executed again. It takes no
// more than clocks whose lead and rounding stay in the expiry grace: when submissions
// land, how long a pass takes, what the gateway answers and what outsiders post does
// not matter.
module SettlementPins {
  import opened Wrappers
  import opened Dao
  import opened Payouts
  import opened Settlement
  import opened SettlementLedger
  import opened SettlementLaws
  import opened SettlementSafety

  /** The bot's clock leads the chain's by at most `leadMs`, and that and the rounding
      of every proposal's window stay inside the expiry grace. */
  ghost predicate Clocked(c: Config, ev: Event) {
    && (ev.Tick? ==> ev.now <= ev.chainNow + c.leadMs)
    && (ev.Land? || ev.Outsider? ==> c.leadMs <= EXPIRY_GRACE_MS + ev.rounding)
  }

  ghost predicate ClockedRun(c: Config, states: seq<State>, events: seq<Event>) {
    && IsRun(c, states, events) && states[0].now <= states[0].chainNow + c.leadMs
    && forall i | 0 <= i < |events| :: Clocked(c, events[i])
  }

  // ---- What is shut stays shut ----

  ghost predicate ShutStays(c: Config, s: State, s': State) {
    && |s.chain| <= |s'.chain|
    && forall q | 0 <= q < |s.chain| ::
         Shut(s.chain[q].proposal, c.periodMs, s.now) ==> Shut(s'.chain[q].proposal, c.periodMs, s'.now)
  }

  lemma PassLeavesChain(c: Config, s: State, k: nat, ev: Event)
    requires k in s.passes && PassEnabled(c, s, k, ev)
    ensures var s' := PassNext(c, s, k, ev); s'.chain == s.chain && s'.now == s.now && s'.chainNow == s.chainNow
  {
    if !ev.ClaimRow? && !ev.Submit? {
      OnlyRowsAndPasses(c, s, k, ev);
    }
  }

  lemma EnvClocks(c: Config, s: State, ev: Event)
    requires Inv(c, s) && ClocksOk(c, s) && EnvEnabled(c, s, ev) && Clocked(c, ev)
    ensures ClocksOk(c, EnvNext(c, s, ev)) && ShutStays(c, s, EnvNext(c, s, ev))
  {
    match ev
    case Council(id, status) => CouncilSteady(c, s, id, status);
    case _ =>
  }

  lemma StepClocks(c: Config, s: State, ev: Event)
    requires Inv(c, s) && ClocksOk(c, s) && Enabled(c, s, ev) && Clocked(c, ev)
    ensures ClocksOk(c, Next(c, s, ev)) && ShutStays(c, s, Next(c, s, ev))
  {
    if IsEnv(ev) {
      EnvClocks(c, s, ev);
    } else if !ev.Begin? {
      PassLeavesChain(c, s, ev.pass, ev);
    }
  }

  // ---- What a pass is about to apply ----

  /** A pass about to reset its row has read the proposal as dead. */
  ghost predicate AppliesDead(c: Config, s: State, pass: Pass) {
    pass.phase.Apply? && ProposalToPayout(pass.phase.effective).reset ==>
      pass.phase.id < |s.chain| && Shut(s.chain[pass.phase.id].proposal, c.periodMs, s.now)
  }

  ghost predicate AllApplyDead(c: Config, s: State) {
    forall k | k in s.passes :: AppliesDead(c, s, s.passes[k])
  }

  lemma AppliesStayDead(c: Config, s: State, s': State, k: nat, ev: Event)
    requires AllApplyDead(c, s) && ShutStays(c, s, s') && PassMoved(s, s', k, ev)
    requires k in s'.passes && (ev.ReadLast? || ev.ReadProposal?) ==> AppliesDead(c, s', s'.passes[k])
    ensures AllApplyDead(c, s')
  {
    forall j | j in s'.passes ensures AppliesDead(c, s', s'.passes[j]) {
      assert j in s.passes && AppliesDead(c, s, s.passes[j]);
    }
  }

  lemma PassAppliesDead(c: Config, s: State, k: nat, ev: Event)
    requires Inv(c, s) && AllApplyDead(c, s) && k in s.passes && PassEnabled(c, s, k, ev) && ev.pass == k
    ensures AllApplyDead(c, PassNext(c, s, k, ev))
  {
    var s' := PassNext(c, s, k, ev);
    PassLeavesChain(c, s, k, ev);
    PassMoves(c, s, k, ev);
    if ev.ReadLast? || ev.ReadProposal? {
      StatusReadPhase(c, s, k, ev);
    }
    AppliesStayDead(c, s, s', k, ev);
  }

  lemma StepAppliesDead(c: Config, s: State, ev: Event)
    requires Inv(c, s) && AllApplyDead(c, s) && Enabled(c, s, ev) && ShutStays(c, s, Next(c, s, ev))
    ensures AllApplyDead(c, Next(c, s, ev))
  {
    if IsEnv(ev) || ev.Begin? {
      forall j | j in Next(c, s, ev).passes ensures AppliesDead(c, Next(c, s, ev), Next(c, s, ev).passes[j]) {
        assert j in s.passes ==> AppliesDead(c, s, s.passes[j]);
      }
    } else {
      PassAppliesDead(c, s, ev.pass, ev);
    }
  }

  // ---- Over a run ----

  lemma {:induction false} RunAppliesDead(c: Config, states: seq<State>, events: seq<Event>, i: nat)
    requires ClockedRun(c, states, events) && i < |states|
    ensures ClocksOk(c, states[i]) && AllApplyDead(c, states[i])
  {
    if i > 0 {
      RunAppliesDead(c, states, events, i - 1);
      RunKeeps(c, states, events, i - 1);
      StepClocks(c, states[i - 1], events[i - 1]);
      StepAppliesDead(c, states[i - 1], events[i - 1]);
    }
  }

  lemma {:induction false} ShutChain(c: Config, states: seq<State>, i: nat, j: nat, q: nat)
    requires i <= j < |states| && q < |states[i].chain| && Shut(states[i].chain[q].proposal, c.periodMs, states[i].now)
    requires forall n | i <= n < j :: ShutStays(c, states[n], states[n + 1])
    ensures q < |states[j].chain| && Shut(states[j].chain[q].proposal, c.periodMs, states[j].now)
  {
    if i < j {
      ShutChain(c, states, i, j - 1, q);
    }
  }

  lemma RunStaysShut(c: Config, states: seq<State>, events: seq<Event>, i: nat, j: nat, q: nat)
    requires ClockedRun(c, states, events) && i <= j < |states|
    requires q < |states[i].chain| && Shut(states[i].chain[q].proposal, c.periodMs, states[i].now)
    ensures q < |states[j].chain| && states[j].chain[q].proposal.status != ProposalStatus.Approved
  {
    forall n | i <= n < j ensures ShutStays(c, states[n], states[n + 1]) {
      RunAppliesDead(c, states, events, n);
      RunKeeps(c, states, events, n);
      StepClocks(c, states[n], events[n]);
    }
    ShutChain(c, states, i, j, q);
  }

  // ---- Dropped pins ----

  /** A row that went from a pin to pending dropped a proposal that was dead when it
      was dropped and is not executed in the rest of the run. */
  lemma DroppedPinIsDead(c: Config, states: seq<State>, events: seq<Event>, i: nat, j: nat, p: nat, q: nat)
    requires ClockedRun(c, states, events) && i < j < |states|
    requires p in states[i].rows && states[i].rows[p].proposalId == Some(q)
    requires p in states[i + 1].rows && states[i + 1].rows[p].proposalId == None
    ensures q < |states[i].chain| && Shut(states[i].chain[q].proposal, c.periodMs, states[i].now)
    ensures q < |states[j].chain| && states[j].chain[q].proposal.status != ProposalStatus.Approved
  {
    RunAppliesDead(c, states, events, i);
    RunKeeps(c, states, events, i);
    PinIsOnChain(c, states[i], p);
    DropReadsDead(c, states[i], events[i], p, q);
    RunStaysShut(c, states, events, i, j, q);
  }

  lemma PinIsOnChain(c: Config, s: State, p: nat)
    requires Inv(c, s) && p in s.rows && s.rows[p].proposalId.Some?
    ensures s.rows[p].proposalId.value < |s.chain|
  {
    assert RowOk(s, p);
  }

  lemma DropReadsDead(c: Config, s: State, ev: Event, p: nat, q: nat)
    requires Inv(c, s) && AllApplyDead(c, s) && Enabled(c, s, ev)
    requires p in s.rows && s.rows[p].proposalId == Some(q) && q < |s.chain|
    requires p in Next(c, s, ev).rows && Next(c, s, ev).rows[p].proposalId == None
    ensures Shut(s.chain[q].proposal, c.periodMs, s.now)
  {
    RowsFit(c, s, p);
    if !IsEnv(ev) && ev.ApplySettle? {
      assert AppliesDead(c, s, s.passes[ev.pass]);
      SettleDropsItsOwn(s, ev.pass, p);
    } else {
      OnlySettleDropsPins(c, s, ev, p);
    }
  }

  lemma SettleDropsItsOwn(s: State, k: nat, p: nat)
    requires k in s.passes && s.passes[k].phase.Apply? && p in s.rows && s.rows[p].proposalId.Some?
    requires p in ApplySettleNext(s, k).rows && ApplySettleNext(s, k).rows[p].proposalId == None
    ensures ProposalToPayout(s.passes[k].phase.effective).reset && s.rows[p].proposalId == Some(s.passes[k].phase.id)
  {
  }

  lemma OnlySettleDropsPins(c: Config, s: State, ev: Event, p: nat)
    requires TablesOk(s) && Enabled(c, s, ev) && !ev.ApplySettle?
    requires p in s.rows && s.rows[p].proposalId.Some? && s.rows[p].status != PayoutStatus.Pending
    ensures p in Next(c, s, ev).rows ==> Next(c, s, ev).rows[p] == s.rows[p]
  {
    if IsEnv(ev) {
      assert RowOk(s, p);
    } else if ev.Adopt? || ev.Expire? || ev.Heal? {
      ReconcileKeepsPins(c, s, ev.pass, ev, p);
    } else if ev.PinLive? || ev.PinAnswer? || ev.ClaimRow? {
      ProposeKeepsPins(c, s, ev.pass, ev, p);
    }
  }

  lemma ReconcileKeepsPins(c: Config, s: State, k: nat, ev: Event, p: nat)
    requires k in s.passes && PassEnabled(c, s, k, ev) && (ev.Adopt? || ev.Expire? || ev.Heal?)
    requires p in s.rows && s.rows[p].proposalId.Some?
    ensures p in PassNext(c, s, k, ev).rows && PassNext(c, s, k, ev).rows[p] == s.rows[p]
  {
    if ev.Adopt? {
      AdoptKeepsPins(c, s, k, p);
    } else if ev.Expire? {
      ExpireKeepsPins(s, k, p);
    } else {
      HealKeepsPins(s, k, p);
    }
  }

  lemma AdoptKeepsPins(c: Config, s: State, k: nat, p: nat)
    requires k in s.passes && PassEnabled(c, s, k, Adopt(k)) && p in s.rows && s.rows[p].proposalId.Some?
    ensures p in AdoptNext(c, s, k).rows && AdoptNext(c, s, k).rows[p] == s.rows[p]
  {
  }

  lemma ExpireKeepsPins(s: State, k: nat, p: nat)
    requires k in s.passes && p in s.rows && s.rows[p].proposalId.Some?
    ensures p in ExpireNext(s, k).rows && ExpireNext(s, k).rows[p] == s.rows[p]
  {
  }

  lemma HealKeepsPins(s: State, k: nat, p: nat)
    requires k in s.passes && p in s.rows && s.rows[p].proposalId.Some?
    ensures p in HealNext(s, k).rows && HealNext(s, k).rows[p] == s.rows[p]
  {
  }

  lemma ProposeKeepsPins(c: Config, s: State, k: nat, ev: Event, p: nat)
    requires k in s.passes && PassEnabled(c, s, k, ev) && (ev.PinLive? || ev.PinAnswer? || ev.ClaimRow?)
    requires p in s.rows && s.rows[p].proposalId.Some? && s.rows[p].status != PayoutStatus.Pending
    ensures p in PassNext(c, s, k, ev).rows && PassNext(c, s, k, ev).rows[p] == s.rows[p]
  {
  }
}
