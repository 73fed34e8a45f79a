// Why the money results assume what they assume: two runs in which nothing takes any
// time and nobody else posts, each without one assumption, and a payout is paid twice.
module SettlementLimits {
  import opened Wrappers
  import opened Dao
  import opened Payouts
  import opened Settlement
  import opened SettlementLedger
  import opened SettlementLaws
  import opened SettlementSafety
  import opened SettlementMoney

  // ---- Runs that drop one assumption ----

  /** The assumption a run does without. */
  datatype Lapse = Straddling | WrongAnswer

  /** What is assumed of clocks, landing, passes and outsiders. */
  ghost predicate Timely(c: Config, s: State, ev: Event)
    requires Enabled(c, s, ev)
  {
    && NoImpostor(Next(c, s, ev))
    && (ev.Tick? ==> ev.now <= ev.chainNow + c.leadMs)
    && (ev.Land? ==> s.now <= s.subs[ev.sub].claimedAt + c.landingMs && c.leadMs <= EXPIRY_GRACE_MS + ev.rounding)
    && (ev.Outsider? ==> c.leadMs <= EXPIRY_GRACE_MS + ev.rounding)
    && (!IsEnv(ev) && !ev.Begin? ==> s.now - s.passes[ev.pass].begun <= c.passMs)
  }

  /** All that is assumed of a step but for the lapse. */
  ghost predicate AssumedBut(lapse: Lapse, c: Config, s: State, ev: Event)
    requires Enabled(c, s, ev)
  {
    && Timely(c, s, ev)
    && (lapse != Straddling && Pins(ev) && PinWrites(s, ev) ==> PinUnstraddled(c, s, ev))
    && (lapse != WrongAnswer && ev.PinAnswer? && PinWrites(s, ev) ==> AnswerFits(c, s, ev))
  }

  /** The two lapses are all that separates such a step from an assumed one. */
  lemma NothingElseIsDropped(c: Config, s: State, ev: Event)
    requires Enabled(c, s, ev)
    ensures Assumed(c, s, ev) <==> AssumedBut(Straddling, c, s, ev) && AssumedBut(WrongAnswer, c, s, ev)
  {
  }

  /** A run that meets every assumption of NoDoublePayWhenPrompt but one. */
  ghost predicate LapsedRun(lapse: Lapse, c: Config, states: seq<State>, events: seq<Event>) {
    && BoundsOk(c) && LandsPromptly(c) && IsRun(c, states, events) && states[0].now <= states[0].chainNow + c.leadMs
    && forall i | 0 <= i < |events| :: AssumedBut(lapse, c, states[i], events[i])
  }

  /** Two of the proposals the bot submitted for one payout are executed. */
  ghost predicate PaysTwice(s: State) {
    exists a, b | 0 <= a < b < |s.subs| :: s.subs[a].payout == s.subs[b].payout && PaidOut(s, a) && PaidOut(s, b)
  }

  // ---- Runs in which nothing takes time and nobody else posts ----

  const CONFIG: Config := Config(1, 0, 0, 0)
  const CLAIM: Claim := Claim("bob.near", "5")
  const START: State := State(0, 0, map[], 0, [], [], map[], [], map[], map[], {})

  predicate AnswersOwn(s: State, pass: Pass)
    requires pass.phase.Pin?
  {
    pass.phase.answer < |s.chain| ==> s.chain[pass.phase.answer].origin == Some(pass.phase.sub)
  }

  /** The step leads from `s` to `t` without a clock, an outsider or anything else
      assumed away, but for the lapse. */
  ghost predicate Step1(lapse: Lapse, s: State, ev: Event, t: State) {
    && Enabled(CONFIG, s, ev) && Next(CONFIG, s, ev) == t && !ev.Tick? && !ev.Outsider? && (ev.Land? ==> ev.rounding == 0)
    && (lapse != Straddling && Pins(ev) ==> !Straddles(s, s.passes[ev.pass]))
    && (lapse != WrongAnswer && ev.PinAnswer? ==> AnswersOwn(s, s.passes[ev.pass]))
  }

  ghost predicate StillRun(lapse: Lapse, states: seq<State>, events: seq<Event>) {
    && |states| == |events| + 1 && states[0] == START
    && forall i | 0 <= i < |events| :: Step1(lapse, states[i], events[i], states[i + 1])
  }

  ghost predicate Reached(lapse: Lapse, s: State) {
    exists states, events :: StillRun(lapse, states, events) && states[|events|] == s
  }

  lemma StartReached(lapse: Lapse)
    ensures Reached(lapse, START)
  {
    assert StillRun(lapse, [START], []);
  }

  /** One step more. */
  lemma Further(lapse: Lapse, s: State, ev: Event, t: State)
    requires Reached(lapse, s) && Step1(lapse, s, ev, t)
    ensures Reached(lapse, t)
  {
    var states, events :| StillRun(lapse, states, events) && states[|events|] == s;
    var states', events' := states + [t], events + [ev];
    forall i | 0 <= i < |events'| ensures Step1(lapse, states'[i], events'[i], states'[i + 1]) {
      assert i < |events| ==> Step1(lapse, states[i], events[i], states[i + 1]);
    }
    assert StillRun(lapse, states', events') && states'[|events'|] == t;
  }

  /** Nothing has taken any time, and all there is on the chain is the bot's. */
  ghost predicate Still(s: State) {
    && s.now == 0 && s.chainNow == 0
    && (forall q | 0 <= q < |s.chain| :: s.chain[q].origin.Some?)
    && (forall i | 0 <= i < |s.subs| :: s.subs[i].claimedAt == 0)
    && (forall k | k in s.passes :: s.passes[k].begun == 0)
  }

  lemma PassKeepsStill(s: State, k: nat, ev: Event)
    requires Still(s) && k in s.passes && PassEnabled(CONFIG, s, k, ev) && ev.pass == k
    ensures Still(PassNext(CONFIG, s, k, ev))
  {
    PassMoves(CONFIG, s, k, ev);
    if !ev.Submit? && !ev.ClaimRow? {
      OnlyRowsAndPasses(CONFIG, s, k, ev);
    }
  }

  lemma StepKeepsStill(lapse: Lapse, s: State, ev: Event, t: State)
    requires Still(s) && Step1(lapse, s, ev, t)
    ensures Still(t)
  {
    if !IsEnv(ev) && !ev.Begin? {
      PassKeepsStill(s, ev.pass, ev);
    }
  }

  lemma {:induction false} RunIsStill(lapse: Lapse, states: seq<State>, events: seq<Event>, i: nat)
    requires StillRun(lapse, states, events) && i < |states|
    ensures Still(states[i])
  {
    if i > 0 {
      RunIsStill(lapse, states, events, i - 1);
      assert Step1(lapse, states[i - 1], events[i - 1], states[i]);
      StepKeepsStill(lapse, states[i - 1], events[i - 1], states[i]);
    }
  }

  /** What is reached that way is reached by a run with that one lapse. */
  lemma ReachedByLapsedRun(lapse: Lapse, s: State) returns (states: seq<State>, events: seq<Event>)
    requires Reached(lapse, s)
    ensures LapsedRun(lapse, CONFIG, states, events) && states[|events|] == s
  {
    states, events :| StillRun(lapse, states, events) && states[|events|] == s;
    forall i | 0 <= i < |events|
      ensures Enabled(CONFIG, states[i], events[i]) && states[i + 1] == Next(CONFIG, states[i], events[i])
      ensures AssumedBut(lapse, CONFIG, states[i], events[i])
    {
      assert Step1(lapse, states[i], events[i], states[i + 1]);
      RunIsStill(lapse, states, events, i);
      RunIsStill(lapse, states, events, i + 1);
    }
  }

  /** Every proposal on the chain reads as dead, and one window shows them all. */
  predicate AllDead(s: State) {
    |s.chain| <= WINDOW && forall q | 0 <= q < |s.chain| :: Shut(s.chain[q].proposal, CONFIG.periodMs, s.now)
  }

  /** Payout 0 is pending without a claim. */
  predicate Fresh0(s: State) {
    0 in s.rows && s.rows[0].status == PayoutStatus.Pending && s.rows[0].claim.None? && s.rows[0].proposalId.None?
  }

  // ---- A /pay up to its submit ----

  function Reading(s: State, k: nat): Pass
    requires 0 in s.rows
  {
    Pass(0, Propose(CLAIM), s.rows[0], s.now, Resets(s, 0), Last(s, 0), |s.subs|, Scan, Some(|s.chain|), s.now,
         Some(Window(0, Proposals(s.chain, 0, |s.chain|), s.now, Last(s, 0), |s.subs|)), false)
  }

  function AskedFor(s: State): set<Request>
    requires 0 in s.rows
  {
    s.requested + {Request(0, s.rows[0].taskId, CLAIM)}
  }

  /** The state with pass `k` where `pass` says. */
  function Paying(s: State, k: nat, pass: Pass): State
    requires 0 in s.rows
  {
    s.(passes := s.passes[k := pass], requested := AskedFor(s))
  }

  function Begun(s: State, phase: Phase): Pass
    requires 0 in s.rows
  {
    Pass(0, Propose(CLAIM), s.rows[0], s.now, Resets(s, 0), Last(s, 0), |s.subs|, phase, None, s.now, None, false)
  }

  lemma PayRests(lapse: Lapse, s: State, k: nat)
    requires Fresh0(s) && k !in s.passes
    ensures Step1(lapse, Paying(s, k, Begun(s, Recon)), Rest(k), Paying(s, k, Begun(s, Scan)))
  {
    assert Paying(s, k, Begun(s, Recon)).passes[k := Begun(s, Scan)] == s.passes[k := Begun(s, Scan)];
  }

  lemma PayCounts(lapse: Lapse, s: State, k: nat)
    requires Fresh0(s) && k !in s.passes
    ensures Step1(lapse, Paying(s, k, Begun(s, Scan)), ReadCount(k), Paying(s, k, Begun(s, Scan).(counted := Some(|s.chain|))))
  {
    var pass := Begun(s, Scan).(counted := Some(|s.chain|));
    assert Paying(s, k, Begun(s, Scan)).passes[k := pass] == s.passes[k := pass];
  }

  lemma PayReadsPage(lapse: Lapse, s: State, k: nat)
    requires Fresh0(s) && k !in s.passes && |s.chain| <= WINDOW
    ensures Step1(lapse, Paying(s, k, Begun(s, Scan).(counted := Some(|s.chain|))), ReadPage(k), Paying(s, k, Reading(s, k)))
  {
    var before := Paying(s, k, Begun(s, Scan).(counted := Some(|s.chain|)));
    assert before.passes[k := Reading(s, k)] == s.passes[k := Reading(s, k)];
    assert PageWindow(before, before.passes[k]) == Reading(s, k).window.value;
  }

  lemma PayReads(lapse: Lapse, s: State, k: nat)
    requires Reached(lapse, s) && Fresh0(s) && k !in s.passes && |s.chain| <= WINDOW
    ensures Reached(lapse, Paying(s, k, Reading(s, k)))
  {
    Further(lapse, s, Begin(k, 0, Propose(CLAIM)), Paying(s, k, Begun(s, Recon)));
    PayRests(lapse, s, k);
    Further(lapse, Paying(s, k, Begun(s, Recon)), Rest(k), Paying(s, k, Begun(s, Scan)));
    PayCounts(lapse, s, k);
    Further(lapse, Paying(s, k, Begun(s, Scan)), ReadCount(k), Paying(s, k, Begun(s, Scan).(counted := Some(|s.chain|))));
    PayReadsPage(lapse, s, k);
    Further(lapse, Paying(s, k, Begun(s, Scan).(counted := Some(|s.chain|))), ReadPage(k), Paying(s, k, Reading(s, k)));
  }

  function Claimed0(s: State): Payout
    requires 0 in s.rows
  {
    MarkProposed(s.rows[0], None, CLAIM, s.now)
  }

  /** The state with the claim made, its add_proposal call sent or still to send. */
  function Sent0(s: State, k: nat, state: SubmitState, phase: Phase): State
    requires 0 in s.rows
  {
    var i := |s.subs|;
    s.(rows := s.rows[0 := Claimed0(s)],
       subs := s.subs + [Submission(0, s.rows[0].taskId, CLAIM, s.now, Resets(s, 0), k, state)],
       last := s.last[0 := i],
       requested := AskedFor(s),
       passes := s.passes[k := Reading(s, k).(seen := Claimed0(s), last0 := Some(i), subs0 := i + 1, phase := phase, window := None)])
  }

  lemma PayClaims(lapse: Lapse, s: State, k: nat)
    requires Fresh0(s) && AllDead(s)
    ensures Step1(lapse, Paying(s, k, Reading(s, k)), ClaimRow(k), Sent0(s, k, Unsent, Claimed(|s.subs|)))
  {
    NothingLive(s, k);
    var t := Paying(s, k, Reading(s, k));
    assert Next(CONFIG, t, ClaimRow(k)).passes == Sent0(s, k, Unsent, Claimed(|s.subs|)).passes;
  }

  lemma PaySubmits(lapse: Lapse, s: State, k: nat)
    requires 0 in s.rows
    ensures Step1(lapse, Sent0(s, k, Unsent, Claimed(|s.subs|)), Submit(k), Sent0(s, k, Sent, Submitted(|s.subs|)))
  {
    var t := Sent0(s, k, Unsent, Claimed(|s.subs|));
    assert Next(CONFIG, t, Submit(k)).passes == Sent0(s, k, Sent, Submitted(|s.subs|)).passes;
    assert Next(CONFIG, t, Submit(k)).subs == Sent0(s, k, Sent, Submitted(|s.subs|)).subs;
  }

  lemma PaySends(lapse: Lapse, s: State, k: nat)
    requires Reached(lapse, s) && Fresh0(s) && k !in s.passes && AllDead(s)
    ensures Reached(lapse, Sent0(s, k, Sent, Submitted(|s.subs|)))
  {
    PayReads(lapse, s, k);
    PayClaims(lapse, s, k);
    Further(lapse, Paying(s, k, Reading(s, k)), ClaimRow(k), Sent0(s, k, Unsent, Claimed(|s.subs|)));
    PaySubmits(lapse, s, k);
    Further(lapse, Sent0(s, k, Unsent, Claimed(|s.subs|)), Submit(k), Sent0(s, k, Sent, Submitted(|s.subs|)));
  }

  lemma NothingLive(s: State, k: nat)
    requires 0 in s.rows && AllDead(s)
    ensures var pass := Reading(s, k); var w := pass.window.value;
            && Found(CONFIG, pass, CLAIM, true).None?
            && !LiveSameDescription(w.page, Desc(0, pass.seen), CONFIG.periodMs, w.at)
  {
    var w := Reading(s, k).window.value;
    forall i | 0 <= i < |w.page| ensures Shut(w.page[i], CONFIG.periodMs, s.now) {
      assert w.page[i] == s.chain[i].proposal;
    }
  }

  // ---- What the gateway, the chain and a reconcile do ----

  /** The pass waits for the gateway's answer to payout 0's submission. */
  predicate Waiting(s: State, k: nat) {
    && k in s.passes && s.passes[k].phase.Submitted? && s.passes[k].job == Propose(CLAIM) && s.passes[k].payout == 0
    && 0 in s.rows && s.rows[0].status == PayoutStatus.Proposed && s.rows[0].proposalId.None? && s.rows[0].taskId == s.passes[k].seen.taskId
  }

  predicate Matching(s: State, q: nat) {
    && 0 in s.rows && q < |s.chain| && s.chain[q].proposal.status != ProposalStatus.Removed
    && MatchesPayoutTransfer(s.chain[q].proposal, Desc(0, s.rows[0]), CLAIM)
  }

  /** Nothing but rows, passes and reset counts differs. */
  predicate SameElsewhere(s: State, t: State) {
    t.chain == s.chain && t.subs == s.subs && t.now == s.now && t.chainNow == s.chainNow && t.nextRow == s.nextRow
  }

  function Pinned0(s: State, q: nat): Payout
    requires 0 in s.rows
  {
    MarkProposed(s.rows[0], Some(q), CLAIM, s.now)
  }

  lemma AnswerRead(lapse: Lapse, s: State, k: nat, q: nat)
    requires Waiting(s, k) && Matching(s, q)
    ensures var i := s.passes[k].phase.sub;
            && Step1(lapse, s, Answer(k, q), SetPass(s, k, s.passes[k].(phase := Verify(i, q))))
            && Step1(lapse, SetPass(s, k, s.passes[k].(phase := Verify(i, q))), VerifyRead(k), SetPass(s, k, s.passes[k].(phase := Pin(i, q))))
  {
    var i := s.passes[k].phase.sub;
    var t := SetPass(s, k, s.passes[k].(phase := Verify(i, q)));
    assert t.passes[k := s.passes[k].(phase := Pin(i, q))] == s.passes[k := s.passes[k].(phase := Pin(i, q))];
  }

  /** Whatever id the gateway answers is pinned once it reads back as the claim. */
  lemma AnswerPinned(lapse: Lapse, s: State, k: nat, q: nat) returns (t: State)
    requires Reached(lapse, s) && Waiting(s, k) && Matching(s, q)
    requires lapse != Straddling ==> !Straddles(s, s.passes[k])
    requires lapse != WrongAnswer ==> s.chain[q].origin == Some(s.passes[k].phase.sub)
    ensures Reached(lapse, t) && SameElsewhere(s, t) && t.rows == s.rows[0 := Pinned0(s, q)] && t.passes == s.passes - {k}
  {
    var i := s.passes[k].phase.sub;
    AnswerRead(lapse, s, k, q);
    var s1 := SetPass(s, k, s.passes[k].(phase := Verify(i, q)));
    var s2 := SetPass(s, k, s.passes[k].(phase := Pin(i, q)));
    Further(lapse, s, Answer(k, q), s1);
    Further(lapse, s1, VerifyRead(k), s2);
    t := Next(CONFIG, s2, PinAnswer(k));
    Further(lapse, s2, PinAnswer(k), t);
  }

  /** A reconcile of a row pinned to a rejected proposal puts it back to pending
      without a claim. */
  lemma Reset(lapse: Lapse, s: State, k: nat, q: nat) returns (t: State)
    requires Reached(lapse, s) && 0 in s.rows && k !in s.passes && s.rows[0].status == PayoutStatus.Proposed && s.rows[0].proposalId == Some(q)
    requires q < |s.chain| && s.chain[q].proposal.status == ProposalStatus.Rejected
    ensures Reached(lapse, t) && SameElsewhere(s, t) && t.passes == s.passes
    ensures t.rows == s.rows[0 := ResetToPending(s.rows[0], true, false, s.now)]
  {
    var s1 := Next(CONFIG, s, Begin(k, 0, Reconcile));
    Further(lapse, s, Begin(k, 0, Reconcile), s1);
    t := RejectedSettles(lapse, s1, k, q);
    assert t.passes == s.passes;
  }

  lemma RejectedSettles(lapse: Lapse, s: State, k: nat, q: nat) returns (t: State)
    requires Reached(lapse, s) && 0 in s.rows && s.rows[0].status == PayoutStatus.Proposed && s.rows[0].proposalId == Some(q)
    requires k in s.passes && s.passes[k].phase == Phase.Settle(q) && s.passes[k].payout == 0 && s.passes[k].job == Reconcile
    requires q < |s.chain| && s.chain[q].proposal.status == ProposalStatus.Rejected
    ensures Reached(lapse, t) && SameElsewhere(s, t) && t.passes == s.passes - {k}
    ensures t.rows == s.rows[0 := ResetToPending(s.rows[0], true, false, s.now)]
  {
    var s1 := SetPass(s, k, s.passes[k].(phase := Apply(q, EffectiveStatus.Rejected)));
    Further(lapse, s, ReadProposal(k), s1);
    t := Next(CONFIG, s1, ApplySettle(k));
    Further(lapse, s1, ApplySettle(k), t);
  }

  /** A sent submission lands. */
  lemma Lands(lapse: Lapse, s: State, i: nat) returns (t: State)
    requires Reached(lapse, s) && i < |s.subs| && s.subs[i].state == Sent
    ensures Reached(lapse, t) && t == Next(CONFIG, s, Land(i, 0))
  {
    t := Next(CONFIG, s, Land(i, 0));
    Further(lapse, s, Land(i, 0), t);
  }

  lemma Votes(lapse: Lapse, s: State, q: nat, status: ProposalStatus) returns (t: State)
    requires Reached(lapse, s) && q < |s.chain| && status in {ProposalStatus.Approved, ProposalStatus.Rejected}
    requires s.chain[q].proposal.status == ProposalStatus.InProgress && s.chainNow <= s.chain[q].proposal.submittedMs + CONFIG.periodMs
    ensures Reached(lapse, t)
    ensures t == s.(chain := s.chain[q := s.chain[q].(proposal := s.chain[q].proposal.(status := status))])
  {
    t := Next(CONFIG, s, Council(q, status));
    Further(lapse, s, Council(q, status), t);
  }

  /** Two submissions in flight both land and are both approved. */
  lemma BothArePaid(lapse: Lapse, s: State, a: nat, b: nat) returns (t: State)
    requires Reached(lapse, s) && a < |s.subs| && b < |s.subs| && a != b && s.subs[a].state == Sent && s.subs[b].state == Sent
    requires s.subs[a].payout == s.subs[b].payout
    ensures Reached(lapse, t) && a < |t.subs| && b < |t.subs| && t.subs[a].payout == t.subs[b].payout && PaidOut(t, a) && PaidOut(t, b)
  {
    var s1 := Lands(lapse, s, a);
    var s2 := Lands(lapse, s1, b);
    var n := |s.chain|;
    assert s2.chain[n].proposal.status == ProposalStatus.InProgress && s2.chain[n + 1].proposal.status == ProposalStatus.InProgress;
    var s3 := Votes(lapse, s2, n, ProposalStatus.Approved);
    t := Votes(lapse, s3, n + 1, ProposalStatus.Approved);
  }

  // ---- What both runs begin and end with ----

  /** One payout was claimed, landed and voted down, and is pending again; a pass
      that began in between may still be running. */
  ghost predicate VotedDown(lapse: Lapse, s: State) {
    && Reached(lapse, s) && Fresh0(s) && s.rows[0].taskId == 0
    && |s.chain| == 1 && s.chain[0].proposal.status == ProposalStatus.Rejected
    && MatchesPayoutTransfer(s.chain[0].proposal, PayoutDescription(0, 0), CLAIM)
    && |s.subs| == 1
  }

  lemma Started(lapse: Lapse) returns (s: State)
    ensures Reached(lapse, s) && Fresh0(s) && s.rows[0].taskId == 0 && s.now == 0 && s.chainNow == 0 && s.resets == map[]
    ensures s.passes == map[] && s.chain == [] && s.subs == []
  {
    StartReached(lapse);
    s := Next(CONFIG, START, CreatePayout(0, 0));
    Further(lapse, START, CreatePayout(0, 0), s);
  }

  /** The first claim has landed, is open for votes, and its pass waits for the answer. */
  ghost predicate Landed0(lapse: Lapse, s: State) {
    && Reached(lapse, s) && Waiting(s, 0) && s.passes[0].phase.sub == 0 && 1 !in s.passes
    && s.rows[0].claim == Some(CLAIM) && s.rows[0].taskId == 0 && s.chainNow == 0
    && |s.subs| == 1 && s.subs[0].resetsBefore == 0 && Last(s, 0) == Some(0)
    && |s.chain| == 1 && Matching(s, 0) && s.chain[0].origin == Some(0)
    && s.chain[0].proposal.status == ProposalStatus.InProgress && s.chain[0].proposal.submittedMs == 0
    && s.chain[0].proposal.id == 0 && s.chain[0].proposal.roundingMs == 0
  }

  lemma OnceLanded(lapse: Lapse) returns (s: State)
    ensures Landed0(lapse, s) && s.passes.Keys == {0} && s.now == 0
  {
    var s0 := Started(lapse);
    PaySends(lapse, s0, 0);
    s := Lands(lapse, Sent0(s0, 0, Sent, Submitted(0)), 0);
    assert s.chain[0] == NewEntry(s0, PayoutDescription(0, 0), Transfer("", CLAIM.receiver, CLAIM.amount), 0, Some(0));
  }

  lemma IsVotedDown(lapse: Lapse, s: State) returns (t: State)
    requires Landed0(lapse, s)
    ensures VotedDown(lapse, t) && t.passes == s.passes - {0}
  {
    var s1 := AnswerPinned(lapse, s, 0, 0);
    var s2 := Votes(lapse, s1, 0, ProposalStatus.Rejected);
    t := Reset(lapse, s2, 1, 0);
  }

  /** Pending again although the second submission is still in flight, the payout is
      claimed a third time, and both land. */
  lemma PaidBesideTheSecond(lapse: Lapse, s: State, k: nat) returns (t: State)
    requires Reached(lapse, s) && Fresh0(s) && k !in s.passes && AllDead(s)
    requires |s.subs| == 2 && s.subs[1].payout == 0 && s.subs[1].state == Sent
    ensures Reached(lapse, t) && 2 < |t.subs| && t.subs[1].payout == t.subs[2].payout && PaidOut(t, 1) && PaidOut(t, 2)
  {
    PaySends(lapse, s, k);
    t := BothArePaid(lapse, Sent0(s, k, Sent, Submitted(2)), 1, 2);
  }

  // ---- The gateway answers the id of a dead predecessor ----

  /** The pin clears the claim it was made for. */
  lemma DeadAnswerResets() returns (s: State)
    ensures Reached(WrongAnswer, s) && Fresh0(s) && s.passes == map[] && AllDead(s)
    ensures |s.subs| == 2 && s.subs[1].payout == 0 && s.subs[1].state == Sent
  {
    var s0 := OnceLanded(WrongAnswer);
    var s1 := IsVotedDown(WrongAnswer, s0);
    PaySends(WrongAnswer, s1, 2);
    var s2 := AnswerPinned(WrongAnswer, Sent0(s1, 2, Sent, Submitted(1)), 2, 0);
    s := Reset(WrongAnswer, s2, 3, 0);
  }

  /** A run that meets every assumption but the one on answers pays twice. */
  lemma DeadAnswerPaysTwice() returns (states: seq<State>, events: seq<Event>)
    ensures LapsedRun(WrongAnswer, CONFIG, states, events)
    ensures PaysTwice(states[|events|])
  {
    var s := DeadAnswerResets();
    var t := PaidBesideTheSecond(WrongAnswer, s, 4);
    states, events := ReachedByLapsedRun(WrongAnswer, t);
  }

  // ---- A reconcile straddles a reset and a newer claim ----

  /** A reconcile that saw the first claim's proposal alive, and did nothing yet. */
  predicate Stale(pass: Pass) {
    && pass.payout == 0 && pass.job == Reconcile && pass.phase == Recon && pass.window.Some?
    && pass.seen.status == PayoutStatus.Proposed && pass.seen.claim == Some(CLAIM)
    && Found(CONFIG, pass, CLAIM, false).Some? && Found(CONFIG, pass, CLAIM, false).value.id == 0
  }

  /** Only pass 9 differs. */
  predicate Aside(s: State, t: State, pass: Pass) {
    t == SetPass(s, 9, pass)
  }

  function StaleAt(s: State, counted: Option<nat>, window: Option<Window>): Pass
    requires 0 in s.rows
  {
    Pass(0, Reconcile, s.rows[0], s.now, Resets(s, 0), Last(s, 0), |s.subs|, Recon, counted, s.now, window, false)
  }

  /** The page it reads shows the first claim's proposal alive. */
  lemma StaleFinds(s: State)
    requires Landed0(Straddling, s) && s.now == 0
    ensures Stale(StaleAt(s, Some(1), Some(Window(0, Proposals(s.chain, 0, 1), s.now, Last(s, 0), 1))))
  {
    var page := Proposals(s.chain, 0, 1);
    assert page[0] == s.chain[0].proposal && page[|page| - 1] == page[0];
    assert Eligible(page[0], Desc(0, s.rows[0]), CLAIM, false, CONFIG.periodMs, s.now);
  }

  lemma StaleBegins(s: State) returns (t: State)
    requires Landed0(Straddling, s) && s.passes.Keys == {0} && s.now == 0
    ensures Reached(Straddling, t) && Aside(s, t, StaleAt(s, None, None))
  {
    t := Next(CONFIG, s, Begin(9, 0, Reconcile));
    Further(Straddling, s, Begin(9, 0, Reconcile), t);
  }

  lemma StaleCounts(s: State, s1: State) returns (t: State)
    requires Landed0(Straddling, s) && Reached(Straddling, s1) && Aside(s, s1, StaleAt(s, None, None))
    ensures Reached(Straddling, t) && Aside(s, t, StaleAt(s, Some(1), None))
  {
    t := Next(CONFIG, s1, ReadCount(9));
    Further(Straddling, s1, ReadCount(9), t);
    Aside2(s, s1, t, StaleAt(s, None, None), StaleAt(s, Some(1), None));
  }

  lemma Aside2(s: State, s1: State, t: State, pass: Pass, pass': Pass)
    requires Aside(s, s1, pass) && Aside(s1, t, pass')
    ensures Aside(s, t, pass')
  {
    assert s1.passes[9 := pass'] == s.passes[9 := pass'];
  }

  lemma StaleReads(s: State) returns (t: State)
    requires Landed0(Straddling, s) && s.now == 0 && s.passes.Keys == {0}
    ensures Landed0(Straddling, t) && t.passes.Keys == {0, 9} && Stale(t.passes[9])
  {
    var s1 := StaleBegins(s);
    var s2 := StaleCounts(s, s1);
    t := StaleReadsPage(s, s2);
    StaleFinds(s);
  }

  lemma StaleReadsPage(s: State, s1: State) returns (t: State)
    requires Landed0(Straddling, s) && Reached(Straddling, s1) && Aside(s, s1, StaleAt(s, Some(1), None))
    ensures Reached(Straddling, t)
    ensures Aside(s, t, StaleAt(s, Some(1), Some(Window(0, Proposals(s.chain, 0, 1), s.now, Last(s, 0), 1))))
  {
    t := Next(CONFIG, s1, ReadPage(9));
    Further(Straddling, s1, ReadPage(9), t);
    var w := Window(0, Proposals(s.chain, 0, 1), s.now, Last(s, 0), 1);
    assert PageWindow(s1, s1.passes[9]) == w;
    Aside2(s, s1, t, StaleAt(s, Some(1), None), StaleAt(s, Some(1), Some(w)));
  }

  /** It adopts the dead proposal onto the newer claim of the same identity. */
  lemma StaleAdopts(s: State) returns (t: State)
    requires Reached(Straddling, s) && 9 in s.passes && Stale(s.passes[9]) && 0 in s.rows
    requires s.rows[0].status == PayoutStatus.Proposed && s.rows[0].proposalId.None? && s.rows[0].claim == Some(CLAIM)
    requires |s.chain| == 1 && s.chain[0].proposal.status == ProposalStatus.Rejected
    ensures Reached(Straddling, t) && SameElsewhere(s, t) && t.passes == s.passes - {9} && Fresh0(t)
  {
    var s1 := Next(CONFIG, s, Adopt(9));
    Further(Straddling, s, Adopt(9), s1);
    t := RejectedSettles(Straddling, s1, 9, 0);
  }

  lemma StraddleResets() returns (s: State)
    ensures Reached(Straddling, s) && Fresh0(s) && 4 !in s.passes && AllDead(s)
    ensures |s.subs| == 2 && s.subs[1].payout == 0 && s.subs[1].state == Sent
  {
    var s0 := OnceLanded(Straddling);
    var s1 := StaleReads(s0);
    var s2 := IsVotedDown(Straddling, s1);
    PaySends(Straddling, s2, 2);
    s := StaleAdopts(Sent0(s2, 2, Sent, Submitted(1)));
  }

  /** A run that meets every assumption but the one on straddling pays twice. */
  lemma StraddlePaysTwice() returns (states: seq<State>, events: seq<Event>)
    ensures LapsedRun(Straddling, CONFIG, states, events)
    ensures PaysTwice(states[|events|])
  {
    var s := StraddleResets();
    var t := PaidBesideTheSecond(Straddling, s, 4);
    states, events := ReachedByLapsedRun(Straddling, t);
  }
}
