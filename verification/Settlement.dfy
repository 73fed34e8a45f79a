// The payout settlement protocol as a step machine: proposePayout, reconcilePayout
// and the erasure transaction of src/core/service.ts, run by any number of
// concurrent passes against an append-only DAO and an unreliable submitter.
//
// A pass reads its row once, then takes one step per chain read and one per
// locked transaction. Between any two of its steps every other pass, the council,
// outsiders, the submitter and the clocks may move.
module Settlement {
  import opened Wrappers
  import opened Dao
  import opened Payouts

  /** The DAO's voting period and the bounds the timed results assume: a submitted
      transaction lands within `landingMs` of its claim or never, a pass lasts at
      most `passMs`, and the bot's clock leads the chain's by at most `leadMs`. */
  datatype Config = Config(periodMs: nat, landingMs: nat, passMs: nat, leadMs: nat)

  /** A proposal slot of the DAO; `origin` is the submission it came from. */
  datatype Entry = Entry(proposal: Proposal, origin: Option<nat>, landedAt: int)

  datatype SubmitState = Unsent | Sent | Landed(id: nat) | Dropped

  /** One pending -> proposed claim and the add_proposal call it entitles its pass
      to. `resetsBefore` is how often the row had been reset when it was claimed. */
  datatype Submission = Submission(
    payout: nat,
    taskId: nat,
    claim: Claim,
    claimedAt: int,
    resetsBefore: nat,
    owner: nat,
    state: SubmitState)

  /** An identity somebody asked the bot to pay. */
  datatype Request = Request(payout: nat, taskId: nat, claim: Claim)

  /** What a window read returned. `lastClaim` and `submissions` record, for the
      proofs, which claim was the payout's newest at that moment. */
  datatype Window = Window(
    from: nat,
    page: seq<Proposal>,
    at: int,
    lastClaim: Option<nat>,
    submissions: nat)

  datatype Job = Reconcile | Propose(request: Claim)

  datatype Phase =
    | Recon
    | Settle(id: nat)
    | Gone(id: nat)
    | Apply(id: nat, effective: EffectiveStatus)
    | Scan
    | Claimed(sub: nat)
    | Submitted(sub: nat)
    | Verify(sub: nat, answer: nat)
    | Pin(sub: nat, answer: nat)

  /** One run of reconcilePayout or proposePayout. `seen` is the row as it read it;
      `resets0`, `last0` and `subs0` are the row's history at that moment. */
  datatype Pass = Pass(
    payout: nat,
    job: Job,
    seen: Payout,
    begun: int,
    resets0: nat,
    last0: Option<nat>,
    subs0: nat,
    phase: Phase,
    counted: Option<nat>,
    countedAt: int,
    window: Option<Window>,
    adopted: bool)

  /** `resets`, `last` and `requested` are history the code does not store: how
      often each row went back to pending, the newest claim of each payout, and
      every identity a /pay ever asked for. */
  datatype State = State(
    now: int,
    chainNow: int,
    rows: map<nat, Payout>,
    nextRow: nat,
    chain: seq<Entry>,
    subs: seq<Submission>,
    passes: map<nat, Pass>,
    paidNotices: seq<nat>,
    resets: map<nat, nat>,
    last: map<nat, nat>,
    requested: set<Request>)

  datatype Event =
    | Tick(now: int, chainNow: int)
    | CreatePayout(taskId: nat, contributorId: nat)
    | Land(sub: nat, rounding: int)
    | Drop(sub: nat)
    | Outsider(description: string, kind: Kind, rounding: int)
    | Council(id: nat, status: ProposalStatus)
    | Begin(pass: nat, payout: nat, job: Job)
    | ReadCount(pass: nat)
    | ReadPage(pass: nat)
    | Adopt(pass: nat)
    | Expire(pass: nat)
    | Heal(pass: nat)
    | Rest(pass: nat)
    | ReadProposal(pass: nat)
    | ReadLast(pass: nat)
    | ApplySettle(pass: nat)
    | PinLive(pass: nat)
    | ClaimRow(pass: nat)
    | Submit(pass: nat)
    | Answer(pass: nat, answer: nat)
    | VerifyRead(pass: nat)
    | PinAnswer(pass: nat)
    | Stop(pass: nat)
    | Forget(contributorId: nat)

  predicate Init(s: State) {
    && s.rows == map[] && s.nextRow == 0 && s.chain == [] && s.subs == [] && s.passes == map[]
    && s.paidNotices == [] && s.resets == map[] && s.last == map[] && s.requested == {}
  }

  function Resets(s: State, p: nat): nat {
    if p in s.resets then s.resets[p] else 0
  }

  function Last(s: State, p: nat): Option<nat> {
    if p in s.last then Some(s.last[p]) else None
  }

  function Desc(p: nat, row: Payout): string {
    PayoutDescription(p, row.taskId)
  }

  function SubDesc(u: Submission): string {
    PayoutDescription(u.payout, u.taskId)
  }

  // ---- Parts of a step ----

  function SetPass(s: State, k: nat, pass: Pass): State {
    s.(passes := s.passes[k := pass])
  }

  function EndPass(s: State, k: nat): State {
    s.(passes := s.passes - {k})
  }

  /** A locked write that leaves the row somewhere other than pending. */
  function WriteRow(s: State, p: nat, row: Payout): State {
    s.(rows := s.rows[p := row])
  }

  /** A locked write that puts the row (back) to pending. */
  function WriteReset(s: State, p: nat, row: Payout): State {
    s.(rows := s.rows[p := row], resets := s.resets[p := Resets(s, p) + 1])
  }

  /** What the caller of reconcilePayout does with an ok result: a /pay goes on
      to its scan when the row is pending; every other caller is done. */
  function AfterReconcile(s: State, k: nat, status: PayoutStatus): State
    requires k in s.passes
  {
    if s.passes[k].job.Propose? && status == PayoutStatus.Pending
    then SetPass(s, k, s.passes[k].(phase := Scan))
    else EndPass(s, k)
  }

  function Found(c: Config, pass: Pass, claim: Claim, liveOnly: bool): Option<Proposal>
    requires pass.window.Some?
  {
    Adoptable(pass.window.value.page, Desc(pass.payout, pass.seen), claim, liveOnly, c.periodMs, pass.window.value.at)
  }

  /** The scan reached proposal #0 and shows nothing of the row's claim. */
  predicate NothingFound(c: Config, pass: Pass) {
    && pass.seen.claim.Some? && pass.window.Some? && pass.window.value.from == 0
    && Found(c, pass, pass.seen.claim.value, false).None?
  }

  function Proposals(chain: seq<Entry>, from: nat, to: nat): (page: seq<Proposal>)
    requires from <= to <= |chain|
    ensures |page| == to - from
    ensures forall i | 0 <= i < to - from :: page[i] == chain[from + i].proposal
  {
    seq(to - from, i requires 0 <= i < to - from => chain[from + i].proposal)
  }

  predicate ReadsBack(s: State, id: nat) {
    id < |s.chain| && s.chain[id].proposal.status != ProposalStatus.Removed
  }

  function FirstPhase(seen: Payout, job: Job): Phase {
    if job.Propose? && seen.status == PayoutStatus.Proposed then Scan
    else if seen.proposalId.Some? then Settle(seen.proposalId.value)
    else Recon
  }

  // ---- Environment steps ----

  predicate EnvEnabled(c: Config, s: State, ev: Event) {
    match ev
    case Tick(now, chainNow) => s.now <= now && s.chainNow <= chainNow
    case CreatePayout(_, _) => true
    case Land(sub, _) => sub < |s.subs| && s.subs[sub].state == Sent
    case Drop(sub) => sub < |s.subs| && s.subs[sub].state in {Unsent, Sent}
    case Outsider(_, _, _) => true
    case Council(id, status) =>
      id < |s.chain| && MayBecome(s.chain[id].proposal, status, c.periodMs, s.chainNow)
    case Forget(who) =>
      // the erasure transaction's two money backstops
      forall p | p in s.rows && s.rows[p].contributorId == who ::
        s.rows[p].status != PayoutStatus.Proposed
        && !(s.rows[p].status == PayoutStatus.Pending && s.rows[p].claim.Some?)
    case _ => false
  }

  function NewEntry(s: State, description: string, kind: Kind, rounding: int, origin: Option<nat>): Entry {
    Entry(Proposal(|s.chain|, description, kind, ProposalStatus.InProgress, s.chainNow, rounding), origin, s.now)
  }

  function EnvNext(c: Config, s: State, ev: Event): State
    requires EnvEnabled(c, s, ev)
  {
    match ev
    case Tick(now, chainNow) => s.(now := now, chainNow := chainNow)
    case CreatePayout(taskId, who) =>
      s.(rows := s.rows[s.nextRow := NewPayout(taskId, who, s.now)], nextRow := s.nextRow + 1)
    case Land(sub, rounding) =>
      var u := s.subs[sub];
      s.(chain := s.chain + [NewEntry(s, SubDesc(u), Transfer("", u.claim.receiver, u.claim.amount), rounding, Some(sub))],
         subs := s.subs[sub := u.(state := Landed(|s.chain|))])
    case Drop(sub) => s.(subs := s.subs[sub := s.subs[sub].(state := Dropped)])
    case Outsider(description, kind, rounding) =>
      s.(chain := s.chain + [NewEntry(s, description, kind, rounding, None)])
    case Council(id, status) =>
      var e := s.chain[id];
      s.(chain := s.chain[id := e.(proposal := e.proposal.(status := status))])
    case Forget(who) => s.(rows := map p | p in s.rows && s.rows[p].contributorId != who :: s.rows[p])
  }

  // ---- Pass steps ----

  function BeginNext(s: State, k: nat, p: nat, job: Job): State
    requires p in s.rows
  {
    var seen := s.rows[p];
    var pass := Pass(p, job, seen, s.now, Resets(s, p), Last(s, p), |s.subs|, FirstPhase(seen, job), None, s.now, None, false);
    SetPass(s, k, pass).(requested := if job.Propose? then s.requested + {Request(p, seen.taskId, job.request)} else s.requested)
  }

  predicate ReadsWindow(pass: Pass) {
    pass.window.None? && ((pass.phase == Recon && pass.seen.claim.Some?) || pass.phase == Scan)
  }

  predicate PassEnabled(c: Config, s: State, k: nat, ev: Event)
    requires k in s.passes
  {
    var pass := s.passes[k];
    match ev
    case ReadCount(_) => ReadsWindow(pass) && pass.counted.None?
    case ReadPage(_) => ReadsWindow(pass) && pass.counted.Some? && pass.counted.value <= |s.chain|
    case Adopt(_) =>
      && pass.phase == Recon && pass.seen.claim.Some? && pass.window.Some?
      && Found(c, pass, pass.seen.claim.value, false).Some?
    case Expire(_) =>
      && pass.phase == Recon && NothingFound(c, pass) && pass.seen.status == PayoutStatus.Pending
      && s.now - pass.seen.updatedAt > CLAIM_MEMORY_TTL_MS
    case Heal(_) =>
      && pass.phase == Recon && (pass.seen.claim.None? || NothingFound(c, pass)) && pass.seen.status == PayoutStatus.Proposed
      && s.now - pass.seen.updatedAt > ABANDONED_CLAIM_GRACE_MS
    case Rest(_) =>
      && pass.phase == Recon && (pass.seen.claim.None? || NothingFound(c, pass)) && pass.seen.status == PayoutStatus.Pending
    case ReadProposal(_) => pass.phase.Settle?
    case ReadLast(_) =>
      // a missing id is believed removed only past the counter and past the grace
      && pass.phase.Gone? && pass.phase.id < |s.chain| && s.now - pass.seen.updatedAt > REMOVED_CONFIRM_GRACE_MS
    case ApplySettle(_) => pass.phase.Apply?
    case PinLive(_) =>
      pass.phase == Scan && pass.job.Propose? && pass.window.Some? && Found(c, pass, pass.job.request, true).Some?
    case ClaimRow(_) =>
      && pass.phase == Scan && pass.job.Propose? && pass.window.Some? && pass.window.value.from == 0
      && Found(c, pass, pass.job.request, true).None?
      && !LiveSameDescription(pass.window.value.page, Desc(pass.payout, pass.seen), c.periodMs, pass.window.value.at)
    case Submit(_) => pass.phase.Claimed? && pass.phase.sub < |s.subs|
    case Answer(_, _) => pass.phase.Submitted?
    case VerifyRead(_) => pass.phase.Verify? && pass.job.Propose?
    case PinAnswer(_) => pass.phase.Pin? && pass.job.Propose?
    case Stop(_) => true
    case _ => false
  }

  function PageWindow(s: State, pass: Pass): Window
    requires pass.counted.Some? && pass.counted.value <= |s.chain|
  {
    var count := pass.counted.value;
    var from := if count > WINDOW then count - WINDOW else 0;
    Window(from, Proposals(s.chain, from, count), s.now, Last(s, pass.payout), |s.subs|)
  }

  function ReadPageNext(c: Config, s: State, k: nat): State
    requires k in s.passes && PassEnabled(c, s, k, ReadPage(k))
  {
    SetPass(s, k, s.passes[k].(window := Some(PageWindow(s, s.passes[k]))))
  }

  function AdoptNext(c: Config, s: State, k: nat): State
    requires k in s.passes && PassEnabled(c, s, k, Adopt(k))
  {
    var pass := s.passes[k];
    var p := pass.payout;
    var id := Found(c, pass, pass.seen.claim.value, false).value.id;
    if p !in s.rows then EndPass(s, k)
    else if !AdoptGuard(s.rows[p], pass.seen) then AfterReconcile(s, k, s.rows[p].status)
    else SetPass(WriteRow(s, p, MarkProposed(s.rows[p], Some(id), pass.seen.claim.value, s.now)), k,
                 pass.(phase := Settle(id), adopted := true))
  }

  function ExpireNext(s: State, k: nat): State
    requires k in s.passes
  {
    var pass := s.passes[k];
    var p := pass.payout;
    if p !in s.rows then EndPass(s, k)
    else if !ExpireGuard(s.rows[p], pass.seen, s.now) then AfterReconcile(s, k, s.rows[p].status)
    else AfterReconcile(WriteReset(s, p, ResetToPending(s.rows[p], s.rows[p].attention, false, s.now)), k, PayoutStatus.Pending)
  }

  function HealNext(s: State, k: nat): State
    requires k in s.passes
  {
    var p := s.passes[k].payout;
    if p !in s.rows then EndPass(s, k)
    else if !HealGuard(s.rows[p], s.now) then AfterReconcile(s, k, s.rows[p].status)
    else AfterReconcile(WriteReset(s, p, ResetToPending(s.rows[p], false, true, s.now)), k, PayoutStatus.Pending)
  }

  function ReadProposalNext(c: Config, s: State, k: nat): State
    requires k in s.passes && s.passes[k].phase.Settle?
  {
    var id := s.passes[k].phase.id;
    SetPass(s, k, s.passes[k].(phase :=
      if ReadsBack(s, id) then Apply(id, EffectiveProposalStatus(s.chain[id].proposal, c.periodMs, s.now)) else Gone(id)))
  }

  function ApplySettleNext(s: State, k: nat): State
    requires k in s.passes && s.passes[k].phase.Apply?
  {
    var pass := s.passes[k];
    var p := pass.payout;
    var mapped := ProposalToPayout(pass.phase.effective);
    var rowStatus := if pass.adopted then PayoutStatus.Proposed else pass.seen.status;
    if !mapped.reset && mapped.status == rowStatus then AfterReconcile(s, k, mapped.status)
    else if p !in s.rows then EndPass(s, k)
    else if !SettleGuard(s.rows[p], pass.phase.id) then AfterReconcile(s, k, s.rows[p].status)
    else if mapped.reset then AfterReconcile(WriteReset(s, p, Settled(s.rows[p], mapped, s.now)), k, PayoutStatus.Pending)
    else AfterReconcile(WriteRow(s, p, Settled(s.rows[p], mapped, s.now)).(paidNotices := s.paidNotices + [p]), k, mapped.status)
  }

  function PinLiveNext(c: Config, s: State, k: nat): State
    requires k in s.passes && PassEnabled(c, s, k, PinLive(k))
  {
    var pass := s.passes[k];
    var p := pass.payout;
    var id := Found(c, pass, pass.job.request, true).value.id;
    if p !in s.rows || s.rows[p].status == PayoutStatus.Paid || s.rows[p].proposalId.Some?
       || ConflictingClaim(s.rows[p], pass.job.request)
    then EndPass(s, k)
    else EndPass(WriteRow(s, p, MarkProposed(s.rows[p], Some(id), pass.job.request, s.now)), k)
  }

  function ClaimRowNext(s: State, k: nat): State
    requires k in s.passes && s.passes[k].job.Propose?
  {
    var pass := s.passes[k];
    var p := pass.payout;
    if p !in s.rows || s.rows[p].status != PayoutStatus.Pending || ConflictingClaim(s.rows[p], pass.job.request)
    then EndPass(s, k)
    else
      var row := MarkProposed(s.rows[p], None, pass.job.request, s.now);
      var u := Submission(p, row.taskId, pass.job.request, s.now, Resets(s, p), k, Unsent);
      SetPass(WriteRow(s, p, row).(subs := s.subs + [u], last := s.last[p := |s.subs|]), k,
              pass.(seen := row, resets0 := Resets(s, p), last0 := Some(|s.subs|), subs0 := |s.subs| + 1,
                    phase := Claimed(|s.subs|), window := None, adopted := false))
  }

  /** The one add_proposal call a claim entitles its pass to. */
  function SubmitNext(s: State, k: nat): State
    requires k in s.passes && s.passes[k].phase.Claimed? && s.passes[k].phase.sub < |s.subs|
  {
    var sub := s.passes[k].phase.sub;
    var u := s.subs[sub];
    SetPass(s.(subs := s.subs[sub := u.(state := if u.state == Unsent then Sent else u.state)]), k,
            s.passes[k].(phase := Submitted(sub)))
  }

  function VerifyReadNext(s: State, k: nat): State
    requires k in s.passes && s.passes[k].phase.Verify? && s.passes[k].job.Propose?
  {
    var pass := s.passes[k];
    var id := pass.phase.answer;
    if ReadsBack(s, id) && MatchesPayoutTransfer(s.chain[id].proposal, Desc(pass.payout, pass.seen), pass.job.request)
    then SetPass(s, k, pass.(phase := Pin(pass.phase.sub, id)))
    else EndPass(s, k)
  }

  function PinAnswerNext(s: State, k: nat): State
    requires k in s.passes && s.passes[k].phase.Pin? && s.passes[k].job.Propose?
  {
    var pass := s.passes[k];
    var p := pass.payout;
    if p !in s.rows || !PinGuard(s.rows[p]) then EndPass(s, k)
    else EndPass(WriteRow(s, p, MarkProposed(s.rows[p], Some(pass.phase.answer), pass.job.request, s.now)), k)
  }

  function PassNext(c: Config, s: State, k: nat, ev: Event): State
    requires k in s.passes && PassEnabled(c, s, k, ev)
  {
    var pass := s.passes[k];
    match ev
    case ReadCount(_) => SetPass(s, k, pass.(counted := Some(|s.chain|), countedAt := s.now))
    case ReadPage(_) => ReadPageNext(c, s, k)
    case Adopt(_) => AdoptNext(c, s, k)
    case Expire(_) => ExpireNext(s, k)
    case Heal(_) => HealNext(s, k)
    case Rest(_) => AfterReconcile(s, k, PayoutStatus.Pending)
    case ReadProposal(_) => ReadProposalNext(c, s, k)
    case ReadLast(_) => SetPass(s, k, pass.(phase := Apply(pass.phase.id, EffectiveStatus.Removed)))
    case ApplySettle(_) => ApplySettleNext(s, k)
    case PinLive(_) => PinLiveNext(c, s, k)
    case ClaimRow(_) => ClaimRowNext(s, k)
    case Submit(_) => SubmitNext(s, k)
    case Answer(_, answer) => SetPass(s, k, pass.(phase := Verify(pass.phase.sub, answer)))
    case VerifyRead(_) => VerifyReadNext(s, k)
    case PinAnswer(_) => PinAnswerNext(s, k)
    case Stop(_) => EndPass(s, k)
  }

  // ---- Steps and runs ----

  predicate IsEnv(ev: Event) {
    ev.Tick? || ev.CreatePayout? || ev.Land? || ev.Drop? || ev.Outsider? || ev.Council? || ev.Forget?
  }

  predicate Enabled(c: Config, s: State, ev: Event) {
    if IsEnv(ev) then EnvEnabled(c, s, ev)
    else if ev.Begin? then ev.pass !in s.passes && ev.payout in s.rows && s.rows[ev.payout].status != PayoutStatus.Paid
    else ev.pass in s.passes && PassEnabled(c, s, ev.pass, ev)
  }

  function Next(c: Config, s: State, ev: Event): State
    requires Enabled(c, s, ev)
  {
    if IsEnv(ev) then EnvNext(c, s, ev)
    else if ev.Begin? then BeginNext(s, ev.pass, ev.payout, ev.job)
    else PassNext(c, s, ev.pass, ev)
  }

  /** A run: `states[i + 1]` is `states[i]` after `events[i]`. */
  predicate IsRun(c: Config, states: seq<State>, events: seq<Event>) {
    && |states| == |events| + 1
    && Init(states[0])
    && forall i | 0 <= i < |events| :: Enabled(c, states[i], events[i]) && states[i + 1] == Next(c, states[i], events[i])
  }
}
