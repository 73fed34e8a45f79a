// When pinning a proposal is safe, exactly, and which guards the code could make sure
// of it with.
module SettlementGuards {
  import opened Wrappers
  import opened Dao
  import opened Payouts
  import opened Settlement
  import opened SettlementLedger
  import opened SettlementLaws
  import opened SettlementSafety
  import opened SettlementMoney
  import opened SettlementPrompt
  import opened SettlementLimits

  // ---- The exact condition ----

  /** `s'` is `s` with `p` pinned to `q`, as far as pins can tell. */
  ghost predicate WithPin(s: State, s': State, p: nat, q: nat) {
    && s'.now == s.now && s'.chain == s.chain && s'.subs == s.subs && s'.last == s.last
    && p in s'.rows && s'.rows[p].proposalId == Some(q)
  }

  lemma SafeMeansSafePin(c: Config, s: State, s': State, p: nat, q: nat)
    requires WithPin(s, s', p, q) && Safe(c, s')
    ensures PinSafe(c, s, p, q)
  {
    assert RowSafe(c, s', p);
    assert LastSpent(c, s', p) == LastSpent(c, s, p);
  }

  /** What a step pins, it pins for an identity somebody asked for. */
  lemma PinnedMatches(c: Config, s: State, ev: Event) returns (claim: Claim)
    requires Inv(c, s) && Enabled(c, s, ev) && Pins(ev)
    ensures var pass := s.passes[ev.pass]; var q := Pinned(c, s, ev);
            && q < |s.chain| && Request(pass.payout, pass.seen.taskId, claim) in s.requested
            && MatchesPayoutTransfer(s.chain[q].proposal, PayoutDescription(pass.payout, pass.seen.taskId), claim)
  {
    var k := ev.pass;
    SeenIsRequested(c, s, k);
    match ev {
      case Adopt(_) =>
        claim := s.passes[k].seen.claim.value;
        var i := FoundAlive(c, s, k, claim, false, Found(c, s.passes[k], claim, false).value);
      case PinLive(_) =>
        claim := s.passes[k].job.request;
        var i := FoundAlive(c, s, k, claim, true, Found(c, s.passes[k], claim, true).value);
      case PinAnswer(_) =>
        claim := s.passes[k].job.request;
        AnswerMatches(c, s, k);
    }
  }

  lemma SafeAdoptIsSafe(c: Config, s: State, k: nat)
    requires Inv(c, s) && Safe(c, s) && k in s.passes && PassEnabled(c, s, k, Adopt(k)) && PinWrites(s, Adopt(k))
    requires PinSafe(c, s, s.passes[k].payout, Pinned(c, s, Adopt(k)))
    ensures Safe(c, AdoptNext(c, s, k))
  {
    AdoptedSafe(c, s, k, Pinned(c, s, Adopt(k)));
  }

  lemma SafePinLiveIsSafe(c: Config, s: State, k: nat)
    requires Inv(c, s) && Safe(c, s) && k in s.passes && PassEnabled(c, s, k, PinLive(k)) && PinWrites(s, PinLive(k))
    requires PinSafe(c, s, s.passes[k].payout, Pinned(c, s, PinLive(k)))
    ensures Safe(c, PinLiveNext(c, s, k))
  {
    PinnedSafe(c, s, k, s.passes[k].job.request, Pinned(c, s, PinLive(k)));
  }

  lemma SafePinIsSafe(c: Config, s: State, ev: Event)
    requires Inv(c, s) && Safe(c, s) && Enabled(c, s, ev) && Pins(ev) && PinWrites(s, ev)
    requires PinSafe(c, s, s.passes[ev.pass].payout, Pinned(c, s, ev))
    ensures Safe(c, Next(c, s, ev))
  {
    var k := ev.pass;
    match ev
    case Adopt(_) => SafeAdoptIsSafe(c, s, k);
    case PinLive(_) => SafePinLiveIsSafe(c, s, k);
    case PinAnswer(_) => PinnedSafe(c, s, k, s.passes[k].job.request, Pinned(c, s, ev));
  }

  /** A pin that is written keeps the invariant behind the money results if and only
      if the pinned proposal still reads as alive, or nothing of the payout's newest
      claim is out. */
  lemma PinIsSafeExactly(c: Config, s: State, ev: Event)
    requires Inv(c, s) && Safe(c, s) && Enabled(c, s, ev) && Pins(ev) && PinWrites(s, ev)
    ensures Pinned(c, s, ev) < |s.chain|
    ensures Safe(c, Next(c, s, ev)) <==> Harmless(c, s, s.passes[ev.pass].payout, Pinned(c, s, ev))
  {
    var p, q := s.passes[ev.pass].payout, Pinned(c, s, ev);
    var claim := PinnedMatches(c, s, ev);
    SafePinExactly(c, s, p, s.passes[ev.pass].seen.taskId, claim, q);
    if Safe(c, Next(c, s, ev)) {
      SafeMeansSafePin(c, s, Next(c, s, ev), p, q);
    } else if PinSafe(c, s, p, q) {
      SafePinIsSafe(c, s, ev);
    }
  }

  // ---- Comparing updated_at ----

  /** Where the adopt guard passes over a row that was not written since the pass
      read it, the pass straddles no newer claim. */
  lemma UntouchedIsUnstraddled(c: Config, s: State, k: nat)
    requires Inv(c, s) && k in s.passes && s.passes[k].payout in s.rows && s.passes[k].seen.claim.Some?
    requires var pass := s.passes[k]; var row := s.rows[pass.payout];
             AdoptGuard(row, pass.seen) && row.updatedAt == pass.seen.updatedAt < pass.begun
    ensures !Straddles(s, s.passes[k])
  {
    var pass := s.passes[k];
    assert PassOk(c, s, k, pass) && RowOk(s, pass.payout);
  }

  // ---- Reading the status back ----

  /** The read-back goes on to the pin only over a proposal that reads as alive. */
  predicate ReadsBackAlive(c: Config, s: State, ev: Event)
    requires Enabled(c, s, ev)
  {
    ev.VerifyRead? ==>
      var pass := s.passes[ev.pass];
      var q := pass.phase.answer;
      ReadsBack(s, q) && MatchesPayoutTransfer(s.chain[q].proposal, Desc(pass.payout, pass.seen), pass.job.request) ==>
        !Shut(s.chain[q].proposal, c.periodMs, s.now)
  }

  /** Nothing is assumed of the answers but that guard. */
  ghost predicate CheckedRun(c: Config, states: seq<State>, events: seq<Event>) {
    && BoundsOk(c) && LandsPromptly(c) && IsRun(c, states, events) && states[0].now <= states[0].chainNow + c.leadMs
    && forall i | 0 <= i < |events| :: AssumedBut(WrongAnswer, c, states[i], events[i]) && ReadsBackAlive(c, states[i], events[i])
  }

  /** A pass about to pin has its own proposal, or straddles a newer claim. */
  ghost predicate OwnOrStraddles(s: State, pass: Pass) {
    pass.phase.Pin? ==> Straddles(s, pass) || (pass.phase.answer < |s.chain| && AnswersOwn(s, pass))
  }

  ghost predicate AllOwn(s: State) {
    forall k | k in s.passes :: OwnOrStraddles(s, s.passes[k])
  }

  /** What reads as alive is the payout's newest claim, so it is the pass's own
      unless another claim came after that. */
  lemma AliveIsOwn(c: Config, s: State, k: nat)
    requires Inv(c, s) && Safe(c, s) && k in s.passes && PassEnabled(c, s, k, VerifyRead(k))
    requires ReadsBackAlive(c, s, VerifyRead(k))
    ensures k in VerifyReadNext(s, k).passes ==> OwnOrStraddles(s, VerifyReadNext(s, k).passes[k])
  {
    var pass := s.passes[k];
    var q := pass.phase.answer;
    SeenIsRequested(c, s, k);
    if k in VerifyReadNext(s, k).passes {
      MatchIsOurs(c, s, q, pass.payout, pass.seen.taskId, pass.job.request);
      AliveIsLast(c, s, q);
      LastIsOwnOrLater(c, s, k);
    }
  }

  lemma AliveIsLast(c: Config, s: State, q: nat)
    requires Safe(c, s) && q < |s.chain| && !Shut(s.chain[q].proposal, c.periodMs, s.now)
    requires s.chain[q].origin.Some? && s.chain[q].origin.value < |s.subs| && s.subs[s.chain[q].origin.value].state == Landed(q)
    ensures Last(s, s.subs[s.chain[q].origin.value].payout) == s.chain[q].origin
  {
    assert !Spent(c, s, s.chain[q].origin.value);
  }

  lemma LastIsOwnOrLater(c: Config, s: State, k: nat)
    requires Inv(c, s) && k in s.passes && s.passes[k].phase.Verify?
    ensures Last(s, s.passes[k].payout) == Some(s.passes[k].phase.sub) || Straddles(s, s.passes[k])
  {
    var pass := s.passes[k];
    var i := pass.phase.sub;
    assert PassOk(c, s, k, pass) && SubOk(s, i) && LastOk(s, pass.payout);
  }

  /** A pass that straddles goes on straddling, and a proposal keeps its origin. */
  lemma StaysOwnOrStraddles(c: Config, s: State, s': State, pass: Pass)
    requires Inv(c, s) && Inv(c, s') && Grown(s, s') && OwnOrStraddles(s, pass)
    ensures OwnOrStraddles(s', pass)
  {
    if pass.phase.Pin? && pass.phase.answer < |s.chain| {
      assert EntryGrown(s.chain[pass.phase.answer], s'.chain[pass.phase.answer]);
    }
    if Straddles(s, pass) {
      StaysStraddling(c, s, s', pass);
    }
  }

  lemma StaysStraddling(c: Config, s: State, s': State, pass: Pass)
    requires Inv(c, s) && Inv(c, s') && Grown(s, s') && Straddles(s, pass)
    ensures Straddles(s', pass)
  {
    var p := pass.payout;
    assert LastOk(s, p) && Last(s, p).Some?;
    assert LastOk(s', p) && s'.subs[s.last[p]].resetsBefore == s.subs[s.last[p]].resetsBefore;
  }

  lemma PassesStayOwn(c: Config, s: State, s': State, k: nat, ev: Event)
    requires Inv(c, s) && Inv(c, s') && Grown(s, s') && AllOwn(s) && PassMoved(s, s', k, ev)
    requires k in s'.passes && ev.VerifyRead? ==> OwnOrStraddles(s', s'.passes[k])
    ensures AllOwn(s')
  {
    forall j | j in s'.passes ensures OwnOrStraddles(s', s'.passes[j]) {
      if j != k {
        assert OwnOrStraddles(s, s.passes[j]);
        StaysOwnOrStraddles(c, s, s', s.passes[j]);
      }
    }
  }

  lemma QuietStaysOwn(c: Config, s: State, s': State)
    requires Inv(c, s) && Inv(c, s') && Grown(s, s') && AllOwn(s)
    requires forall j | j in s'.passes :: (j in s.passes && s'.passes[j] == s.passes[j]) || !s'.passes[j].phase.Pin?
    ensures AllOwn(s')
  {
    forall j | j in s'.passes ensures OwnOrStraddles(s', s'.passes[j]) {
      if j in s.passes && s'.passes[j] == s.passes[j] {
        assert OwnOrStraddles(s, s.passes[j]);
        StaysOwnOrStraddles(c, s, s', s.passes[j]);
      }
    }
  }

  lemma PassStepOwn(c: Config, s: State, k: nat, ev: Event)
    requires Inv(c, s) && Safe(c, s) && AllOwn(s) && Enabled(c, s, ev) && !IsEnv(ev) && !ev.Begin? && ev.pass == k
    requires ReadsBackAlive(c, s, ev)
    ensures AllOwn(Next(c, s, ev))
  {
    var s' := Next(c, s, ev);
    StepKeeps(c, s, ev);
    StepGrows(c, s, ev);
    PassMoves(c, s, k, ev);
    if ev.VerifyRead? {
      AliveIsOwn(c, s, k);
      VerifiedStaysOwn(s, k);
    }
    PassesStayOwn(c, s, s', k, ev);
  }

  lemma VerifiedStaysOwn(s: State, k: nat)
    requires k in s.passes && s.passes[k].phase.Verify? && s.passes[k].job.Propose?
    requires k in VerifyReadNext(s, k).passes ==> OwnOrStraddles(s, VerifyReadNext(s, k).passes[k])
    ensures k in VerifyReadNext(s, k).passes ==> OwnOrStraddles(VerifyReadNext(s, k), VerifyReadNext(s, k).passes[k])
  {
  }

  lemma StepOwn(c: Config, s: State, ev: Event)
    requires Inv(c, s) && Safe(c, s) && AllOwn(s) && Enabled(c, s, ev) && ReadsBackAlive(c, s, ev)
    ensures AllOwn(Next(c, s, ev))
  {
    if IsEnv(ev) || ev.Begin? {
      StepKeeps(c, s, ev);
      StepGrows(c, s, ev);
      QuietStaysOwn(c, s, Next(c, s, ev));
    } else {
      PassStepOwn(c, s, ev.pass, ev);
    }
  }

  /** So the answer fits when it is pinned. */
  lemma OwnMeansAssumed(c: Config, s: State, ev: Event)
    requires Inv(c, s) && AllOwn(s) && Enabled(c, s, ev) && AssumedBut(WrongAnswer, c, s, ev)
    ensures Assumed(c, s, ev)
  {
    if ev.PinAnswer? {
      assert OwnOrStraddles(s, s.passes[ev.pass]);
    }
  }

  lemma {:induction false} CheckedRunIsSafe(c: Config, states: seq<State>, events: seq<Event>, i: nat)
    requires CheckedRun(c, states, events) && i < |states|
    ensures Safe(c, states[i]) && PendingSpent(c, states[i]) && AllOwn(states[i])
  {
    if i == 0 {
      StartIsSafe(c, states[0]);
    } else {
      CheckedRunIsSafe(c, states, events, i - 1);
      RunKeeps(c, states, events, i - 1);
      OwnMeansAssumed(c, states[i - 1], events[i - 1]);
      PromptStepSafe(c, states[i - 1], events[i - 1]);
      StepOwn(c, states[i - 1], events[i - 1]);
    }
  }

  /** With that guard at the read-back nothing has to be assumed of what the gateway
      answers: no payout is paid twice. */
  lemma NoDoublePayWhenChecked(c: Config, states: seq<State>, events: seq<Event>, i: nat, a: nat, b: nat)
    requires CheckedRun(c, states, events) && i < |states|
    requires a < |states[i].subs| && b < |states[i].subs| && states[i].subs[a].payout == states[i].subs[b].payout
    requires PaidOut(states[i], a) && PaidOut(states[i], b)
    ensures a == b
  {
    CheckedRunIsSafe(c, states, events, i);
    RunKeeps(c, states, events, i);
    PaidIsNewest(c, states[i], a);
    PaidIsNewest(c, states[i], b);
  }

  // ---- Both guards ----

  /** A pin is written only over a row whose updated_at is the one the pass saw, or
      over a pending row without a claim. */
  predicate PinsUntouched(s: State, ev: Event) {
    Pins(ev) && ev.pass in s.passes && PinWrites(s, ev) ==>
      var row := s.rows[s.passes[ev.pass].payout];
      row.updatedAt == s.passes[ev.pass].seen.updatedAt || (row.status == PayoutStatus.Pending && row.claim.None?)
  }

  /** No two writes of a row bear the same updated_at. */
  ghost predicate RowsTick(s: State, s': State) {
    forall p | p in s.rows && p in s'.rows :: s'.rows[p] == s.rows[p] || s.rows[p].updatedAt < s'.rows[p].updatedAt
  }

  /** A step of code with both guards: of answers and straddling nothing is assumed. */
  ghost predicate Guarded(c: Config, s: State, ev: Event)
    requires Enabled(c, s, ev)
  {
    && Timely(c, s, ev) && RowsTick(s, Next(c, s, ev))
    && ReadsBackAlive(c, s, ev) && PinsUntouched(s, ev)
  }

  ghost predicate GuardedRun(c: Config, states: seq<State>, events: seq<Event>) {
    && BoundsOk(c) && LandsPromptly(c) && IsRun(c, states, events) && states[0].now <= states[0].chainNow + c.leadMs
    && forall i | 0 <= i < |events| :: Guarded(c, states[i], events[i])
  }

  /** The row was written since the pass saw it, or it is the row it saw, and no claim
      has come in between. */
  ghost predicate SeenStill(s: State, pass: Pass) {
    pass.payout in s.rows ==>
      || pass.seen.updatedAt < s.rows[pass.payout].updatedAt
      || (s.rows[pass.payout] == pass.seen && Last(s, pass.payout) == pass.last0)
  }

  ghost predicate AllSeen(s: State) {
    forall k | k in s.passes :: SeenStill(s, s.passes[k])
  }

  lemma ClaimSees(s: State, k: nat)
    requires k in s.passes && s.passes[k].job.Propose?
    ensures var s' := ClaimRowNext(s, k);
            && (k in s'.passes ==> SeenStill(s', s'.passes[k]))
            && forall p: nat | Last(s', p) != Last(s, p) :: p in s.rows && p in s'.rows && s'.rows[p] != s.rows[p]
  {
  }

  /** A claim comes only with a write of its row. */
  lemma LastComesWithWrite(c: Config, s: State, ev: Event, p: nat)
    requires Enabled(c, s, ev) && Last(Next(c, s, ev), p) != Last(s, p)
    ensures p in s.rows && p in Next(c, s, ev).rows && Next(c, s, ev).rows[p] != s.rows[p]
  {
    if !IsEnv(ev) && !ev.Begin? && !ev.Submit? {
      if ev.ClaimRow? {
        ClaimSees(s, ev.pass);
      } else {
        OnlyRowsAndPasses(c, s, ev.pass, ev);
      }
    }
  }

  lemma StaysSeen(c: Config, s: State, ev: Event, pass: Pass)
    requires Inv(c, s) && Enabled(c, s, ev) && RowsTick(s, Next(c, s, ev)) && SeenStill(s, pass) && pass.payout < s.nextRow
    ensures SeenStill(Next(c, s, ev), pass)
  {
    StepMovesRows(c, s, ev, pass.payout);
    if Last(Next(c, s, ev), pass.payout) != Last(s, pass.payout) {
      LastComesWithWrite(c, s, ev, pass.payout);
    }
  }

  lemma SeesAPayout(c: Config, s: State, k: nat)
    requires Inv(c, s) && k in s.passes
    ensures s.passes[k].payout < s.nextRow
  {
    assert PassOk(c, s, k, s.passes[k]);
  }

  lemma OldStaysSeen(c: Config, s: State, ev: Event, j: nat, pass: Pass)
    requires Inv(c, s) && AllSeen(s) && Enabled(c, s, ev) && RowsTick(s, Next(c, s, ev)) && j in s.passes
    requires SawTheSame(s.passes[j], pass)
    ensures SeenStill(Next(c, s, ev), pass)
  {
    SeesAPayout(c, s, j);
    assert SeenStill(s, s.passes[j]);
    StaysSeen(c, s, ev, pass);
  }

  lemma PassStepSeen(c: Config, s: State, k: nat, ev: Event)
    requires Inv(c, s) && AllSeen(s) && Enabled(c, s, ev) && RowsTick(s, Next(c, s, ev))
    requires !IsEnv(ev) && !ev.Begin? && ev.pass == k
    ensures AllSeen(Next(c, s, ev))
  {
    var s' := Next(c, s, ev);
    PassMoves(c, s, k, ev);
    forall j | j in s'.passes ensures SeenStill(s', s'.passes[j]) {
      if ev.ClaimRow? && j == k {
        ClaimSees(s, k);
      } else {
        OldStaysSeen(c, s, ev, j, s'.passes[j]);
      }
    }
  }

  lemma StepSeen(c: Config, s: State, ev: Event)
    requires Inv(c, s) && AllSeen(s) && Enabled(c, s, ev) && RowsTick(s, Next(c, s, ev))
    ensures AllSeen(Next(c, s, ev))
  {
    var s' := Next(c, s, ev);
    if !IsEnv(ev) && !ev.Begin? {
      PassStepSeen(c, s, ev.pass, ev);
    } else {
      forall j | j in s'.passes ensures SeenStill(s', s'.passes[j]) {
        if j in s.passes {
          OldStaysSeen(c, s, ev, j, s'.passes[j]);
        }
      }
    }
  }

  /** A row that is the one the pass saw has no newer claim. */
  lemma SeenIsUnstraddled(c: Config, s: State, k: nat)
    requires Inv(c, s) && k in s.passes && Last(s, s.passes[k].payout) == s.passes[k].last0
    ensures !Straddles(s, s.passes[k])
  {
    assert PassOk(c, s, k, s.passes[k]);
  }

  lemma UntouchedPinFits(c: Config, s: State, ev: Event)
    requires Inv(c, s) && Safe(c, s) && AllSeen(s) && Enabled(c, s, ev) && Pins(ev) && PinWrites(s, ev) && PinsUntouched(s, ev)
    ensures !Straddles(s, s.passes[ev.pass]) || Harmless(c, s, s.passes[ev.pass].payout, Pinned(c, s, ev))
  {
    var k := ev.pass;
    assert SeenStill(s, s.passes[k]) && RowSafe(c, s, s.passes[k].payout);
    if Last(s, s.passes[k].payout) == s.passes[k].last0 {
      SeenIsUnstraddled(c, s, k);
    }
  }

  ghost predicate GuardedOk(c: Config, s: State) {
    Inv(c, s) && Safe(c, s) && PendingSpent(c, s) && AllOwn(s) && AllSeen(s)
  }

  lemma GuardsMeanAssumed(c: Config, s: State, ev: Event)
    requires Inv(c, s) && Safe(c, s) && AllSeen(s) && AllOwn(s) && Enabled(c, s, ev)
    requires Timely(c, s, ev) && PinsUntouched(s, ev)
    ensures Assumed(c, s, ev)
  {
    if Pins(ev) && PinWrites(s, ev) {
      UntouchedPinFits(c, s, ev);
    }
    OwnMeansAssumed(c, s, ev);
  }

  lemma GuardedStepOk(c: Config, s: State, ev: Event)
    requires GuardedOk(c, s) && BoundsOk(c) && LandsPromptly(c) && Enabled(c, s, ev) && Guarded(c, s, ev)
    ensures GuardedOk(c, Next(c, s, ev))
  {
    GuardsMeanAssumed(c, s, ev);
    StepKeeps(c, s, ev);
    PromptStepSafe(c, s, ev);
    StepOwn(c, s, ev);
    StepSeen(c, s, ev);
  }

  lemma GuardedStartOk(c: Config, s: State)
    requires Init(s) && s.now <= s.chainNow + c.leadMs
    ensures GuardedOk(c, s)
  {
    StartIsSafe(c, s);
  }

  lemma {:induction false} GuardedRunIsSafe(c: Config, states: seq<State>, events: seq<Event>, i: nat)
    requires GuardedRun(c, states, events) && i < |states|
    ensures GuardedOk(c, states[i])
  {
    if i == 0 {
      GuardedStartOk(c, states[0]);
    } else {
      GuardedRunIsSafe(c, states, events, i - 1);
      assert Guarded(c, states[i - 1], events[i - 1]);
      GuardedStepOk(c, states[i - 1], events[i - 1]);
    }
  }

  /** With both guards nothing has to be assumed of the answers or of straddling: no
      payout is paid twice. */
  lemma NoDoublePayWhenGuarded(c: Config, states: seq<State>, events: seq<Event>, i: nat, a: nat, b: nat)
    requires GuardedRun(c, states, events) && i < |states|
    requires a < |states[i].subs| && b < |states[i].subs| && states[i].subs[a].payout == states[i].subs[b].payout
    requires PaidOut(states[i], a) && PaidOut(states[i], b)
    ensures a == b
  {
    GuardedRunIsSafe(c, states, events, i);
    PaidIsNewest(c, states[i], a);
    PaidIsNewest(c, states[i], b);
  }
}
