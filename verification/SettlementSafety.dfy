// The money results: no payout is paid twice by the bot's own proposals, and an
// erasure never leaves one behind that could still pay. They hold in every run
// that meets the timing, clock and outsider assumptions of `Assumed`.
module SettlementSafety {
  import opened Wrappers
  import opened Dao
  import opened Payouts
  import opened Settlement
  import opened SettlementLedger

  // ---- What is assumed of a run ----

  /** A pass is shorter than every grace, and a submission that may still land is
      outlived by the grace and the claim memory together. */
  ghost predicate BoundsOk(c: Config) {
    && c.passMs <= ABANDONED_CLAIM_GRACE_MS
    && c.landingMs + c.passMs <= ABANDONED_CLAIM_GRACE_MS + CLAIM_MEMORY_TTL_MS
  }

  /** Nobody but the bot posts the full identity somebody asked the bot to pay. */
  ghost predicate NoImpostor(s: State) {
    forall q, r | 0 <= q < |s.chain| && s.chain[q].origin.None? && r in s.requested ::
      !MatchesPayoutTransfer(s.chain[q].proposal, PayoutDescription(r.payout, r.taskId), r.claim)
  }

  /** The pass began before a reset of its row that a later claim came after. */
  ghost predicate Straddles(s: State, pass: Pass) {
    && pass.payout in s.last && s.last[pass.payout] < |s.subs|
    && s.subs[s.last[pass.payout]].resetsBefore > pass.resets0
  }

  /** Nothing of the submission can be executed any more, as far as the bot can tell. */
  ghost predicate Spent(c: Config, s: State, i: nat)
    requires i < |s.subs|
  {
    match s.subs[i].state
    case Dropped => true
    case Unsent => s.now > s.subs[i].claimedAt + c.landingMs
    case Sent => s.now > s.subs[i].claimedAt + c.landingMs
    case Landed(q) => q < |s.chain| && Shut(s.chain[q].proposal, c.periodMs, s.now)
  }

  ghost predicate LastSpent(c: Config, s: State, p: nat) {
    p in s.last ==> s.last[p] < |s.subs| && Spent(c, s, s.last[p])
  }

  /** A /pay may claim a row whose earlier claim is still remembered only when
      nothing can come of that claim any more. */
  ghost predicate NoClaimOverUnresolved(c: Config, s: State, ev: Event) {
    ev.ClaimRow? && ev.pass in s.passes ==>
      var p := s.passes[ev.pass].payout;
      p in s.rows && s.rows[p].status == PayoutStatus.Pending && s.rows[p].claim.Some? ==> LastSpent(c, s, p)
  }

  /** The step may pin a proposal it has found or was told of. */
  predicate Pins(ev: Event) {
    ev.Adopt? || ev.PinLive? || ev.PinAnswer?
  }

  function Pinned(c: Config, s: State, ev: Event): nat
    requires Enabled(c, s, ev) && Pins(ev)
  {
    var pass := s.passes[ev.pass];
    if ev.Adopt? then Found(c, pass, pass.seen.claim.value, false).value.id
    else if ev.PinLive? then Found(c, pass, pass.job.request, true).value.id
    else pass.phase.answer
  }

  /** The guard of the locked write lets the pin through. */
  predicate PinWrites(s: State, ev: Event)
    requires Pins(ev) && ev.pass in s.passes
  {
    var pass := s.passes[ev.pass];
    && pass.payout in s.rows
    && var row := s.rows[pass.payout];
       if ev.Adopt? then AdoptGuard(row, pass.seen)
       else if ev.PinLive? then
         row.status != PayoutStatus.Paid && row.proposalId.None? && pass.job.Propose? && !ConflictingClaim(row, pass.job.request)
       else PinGuard(row)
  }

  /** The proposal still reads as alive, or nothing of the payout's newest claim is out. */
  ghost predicate Harmless(c: Config, s: State, p: nat, q: nat) {
    q < |s.chain| ==> !Shut(s.chain[q].proposal, c.periodMs, s.now) || LastSpent(c, s, p)
  }

  ghost predicate PinUnstraddled(c: Config, s: State, ev: Event)
    requires Enabled(c, s, ev) && Pins(ev)
  {
    !Straddles(s, s.passes[ev.pass]) || Harmless(c, s, s.passes[ev.pass].payout, Pinned(c, s, ev))
  }

  /** The answered proposal is the pass's own, or pinning it is harmless anyway. */
  ghost predicate AnswerFits(c: Config, s: State, ev: Event)
    requires Enabled(c, s, ev) && ev.PinAnswer?
  {
    var pass := s.passes[ev.pass];
    || (pass.phase.answer < |s.chain| ==> s.chain[pass.phase.answer].origin == Some(pass.phase.sub))
    || Harmless(c, s, pass.payout, pass.phase.answer)
  }

  /** The clock, landing, pass length, straddling and gateway assumptions. */
  ghost predicate Assumed(c: Config, s: State, ev: Event)
    requires Enabled(c, s, ev)
  {
    && NoImpostor(Next(c, s, ev))
    && (ev.Tick? ==> ev.now <= ev.chainNow + c.leadMs)
    && (ev.Land? ==> s.now <= s.subs[ev.sub].claimedAt + c.landingMs && c.leadMs <= EXPIRY_GRACE_MS + ev.rounding)
    && (ev.Outsider? ==> c.leadMs <= EXPIRY_GRACE_MS + ev.rounding)
    && (!IsEnv(ev) && !ev.Begin? ==> s.now - s.passes[ev.pass].begun <= c.passMs)
    && (Pins(ev) && PinWrites(s, ev) ==> PinUnstraddled(c, s, ev))
    && (ev.PinAnswer? && PinWrites(s, ev) ==> AnswerFits(c, s, ev))
  }

  // ---- The invariant ----

  ghost predicate ClocksOk(c: Config, s: State) {
    && s.now <= s.chainNow + c.leadMs
    && forall q | 0 <= q < |s.chain| :: c.leadMs <= EXPIRY_GRACE_MS + s.chain[q].proposal.roundingMs
  }

  ghost predicate LandedInTime(c: Config, s: State) {
    forall q | 0 <= q < |s.chain| && s.chain[q].origin.Some? ::
      && s.chain[q].origin.value < |s.subs|
      && s.chain[q].landedAt <= s.subs[s.chain[q].origin.value].claimedAt + c.landingMs
  }

  /** Of a payout's claims only the newest can still move money. */
  ghost predicate OlderSpent(c: Config, s: State) {
    forall i | 0 <= i < |s.subs| :: Last(s, s.subs[i].payout) != Some(i) ==> Spent(c, s, i)
  }

  ghost predicate PinSafe(c: Config, s: State, p: nat, q: nat) {
    q < |s.chain| && s.chain[q].origin.Some? ==> Last(s, p) == s.chain[q].origin || LastSpent(c, s, p)
  }

  ghost predicate RowSafe(c: Config, s: State, p: nat)
    requires p in s.rows
  {
    var r := s.rows[p];
    && (r.status == PayoutStatus.Pending && r.claim.None? ==> LastSpent(c, s, p))
    && (r.proposalId.Some? ==> PinSafe(c, s, p, r.proposalId.value))
  }

  ghost predicate PaidOut(s: State, i: nat)
    requires i < |s.subs|
  {
    && s.subs[i].state.Landed? && s.subs[i].state.id < |s.chain|
    && s.chain[s.subs[i].state.id].proposal.status == ProposalStatus.Approved
  }

  /** Of an erased payout nothing is left that could still pay. */
  ghost predicate GoneSafe(c: Config, s: State, p: nat)
    requires p in s.last
  {
    p !in s.rows ==> s.last[p] < |s.subs| && (Spent(c, s, s.last[p]) || PaidOut(s, s.last[p]))
  }

  ghost predicate WindowSafe(c: Config, s: State, pass: Pass, w: Window) {
    forall i | 0 <= i < |w.page| && w.from + i < |s.chain| ::
      && (Shut(w.page[i], c.periodMs, w.at) ==> Shut(s.chain[w.from + i].proposal, c.periodMs, s.now))
      && (!Shut(w.page[i], c.periodMs, w.at) ==>
            var origin := s.chain[w.from + i].origin;
            origin.Some? && origin.value < |s.subs| && s.subs[origin.value].payout == pass.payout ==>
              && w.lastClaim == origin
              && !(pass.seen.status == PayoutStatus.Pending && pass.seen.claim.None? && pass.last0 == origin))
  }

  ghost predicate PassSafe(c: Config, s: State, pass: Pass) {
    && (pass.seen.status == PayoutStatus.Pending && pass.seen.claim.None? && pass.last0.Some? ==>
          pass.last0.value < |s.subs| && Spent(c, s, pass.last0.value))
    && (pass.window.Some? ==> WindowSafe(c, s, pass, pass.window.value))
    && (pass.phase.Apply? && ProposalToPayout(pass.phase.effective).reset ==>
          pass.phase.id < |s.chain| && Shut(s.chain[pass.phase.id].proposal, c.periodMs, s.now))
  }

  ghost predicate Safe(c: Config, s: State) {
    && ClocksOk(c, s) && NoImpostor(s) && LandedInTime(c, s) && OlderSpent(c, s)
    && (forall p | p in s.rows :: RowSafe(c, s, p))
    && (forall p | p in s.last :: GoneSafe(c, s, p))
    && (forall k | k in s.passes :: PassSafe(c, s, s.passes[k]))
  }

  // ---- Dead stays dead ----

  ghost predicate Steady(c: Config, s: State, s': State) {
    && Grown(s, s')
    && (forall q | 0 <= q < |s.chain| ::
          Shut(s.chain[q].proposal, c.periodMs, s.now) ==> Shut(s'.chain[q].proposal, c.periodMs, s'.now))
    && (forall i | 0 <= i < |s.subs| :: Spent(c, s, i) ==> Spent(c, s', i))
    && (forall i | 0 <= i < |s.subs| :: PaidOut(s, i) ==> PaidOut(s', i))
  }

  lemma SteadyWhenTablesStay(c: Config, s: State, s': State)
    requires Grown(s, s') && s'.chain == s.chain
    requires forall i | 0 <= i < |s.subs| :: s'.subs[i] == s.subs[i]
    ensures Steady(c, s, s')
  {
    assert forall i | 0 <= i < |s.subs| :: Spent(c, s, i) ==> Spent(c, s', i);
  }

  lemma CouncilSteady(c: Config, s: State, id: nat, status: ProposalStatus)
    requires Inv(c, s) && ClocksOk(c, s) && EnvEnabled(c, s, Council(id, status))
    ensures Steady(c, s, EnvNext(c, s, Council(id, status)))
  {
    var s' := EnvNext(c, s, Council(id, status));
    EnvStepGrows(c, s, Council(id, status));
    if Shut(s.chain[id].proposal, c.periodMs, s.now) {
      ShutIsForGood(s.chain[id].proposal, status, c.periodMs, s.now, s.chainNow, c.leadMs);
    }
    assert forall i | 0 <= i < |s.subs| :: Spent(c, s, i) ==> Spent(c, s', i);
  }

  lemma LandSteady(c: Config, s: State, sub: nat, rounding: int)
    requires Inv(c, s) && EnvEnabled(c, s, Land(sub, rounding))
    requires s.now <= s.subs[sub].claimedAt + c.landingMs
    ensures Steady(c, s, EnvNext(c, s, Land(sub, rounding)))
  {
    var s' := EnvNext(c, s, Land(sub, rounding));
    EnvStepGrows(c, s, Land(sub, rounding));
    assert forall q | 0 <= q < |s.chain| :: s'.chain[q] == s.chain[q];
    assert forall i | 0 <= i < |s.subs| :: Spent(c, s, i) ==> Spent(c, s', i);
  }

  lemma OutsiderSteady(c: Config, s: State, description: string, kind: Kind, rounding: int)
    requires Inv(c, s)
    ensures Steady(c, s, EnvNext(c, s, Outsider(description, kind, rounding)))
  {
    var s' := EnvNext(c, s, Outsider(description, kind, rounding));
    EnvStepGrows(c, s, Outsider(description, kind, rounding));
    assert forall q | 0 <= q < |s.chain| :: s'.chain[q] == s.chain[q];
    assert forall i | 0 <= i < |s.subs| :: Spent(c, s, i) ==> Spent(c, s', i);
  }

  lemma SubStateSteady(c: Config, s: State, s': State, sub: nat, state: SubmitState)
    requires Inv(c, s) && sub < |s.subs| && Grown(s, s') && s'.chain == s.chain
    requires state == Dropped || (s.subs[sub].state == Unsent && state == Sent)
    requires !s.subs[sub].state.Landed?
    requires s'.subs == s.subs[sub := s.subs[sub].(state := state)]
    ensures Steady(c, s, s')
  {
    assert forall i | 0 <= i < |s.subs| :: Spent(c, s, i) ==> Spent(c, s', i);
  }

  lemma PassSafeCarries(c: Config, s: State, s': State, k: nat, pass: Pass)
    requires PassOk(c, s, k, pass) && PassSafe(c, s, pass) && Steady(c, s, s') && Inv(c, s)
    ensures PassSafe(c, s', pass)
  {
    if pass.window.Some? {
      assert WindowOk(s, pass, pass.window.value);
      WindowSafeCarries(c, s, s', pass, pass.window.value);
    }
  }

  lemma WindowSafeCarries(c: Config, s: State, s': State, pass: Pass, w: Window)
    requires w.from + |w.page| <= |s.chain| && WindowSafe(c, s, pass, w) && Steady(c, s, s')
    requires forall q | 0 <= q < |s.chain| :: EntryOk(s, q)
    ensures WindowSafe(c, s', pass, w)
  {
    forall q | w.from <= q < w.from + |w.page|
      ensures s'.chain[q].origin == s.chain[q].origin
      ensures Shut(s.chain[q].proposal, c.periodMs, s.now) ==> Shut(s'.chain[q].proposal, c.periodMs, s'.now)
      ensures s.chain[q].origin.Some? ==>
                s.chain[q].origin.value < |s.subs|
                && s'.subs[s.chain[q].origin.value].payout == s.subs[s.chain[q].origin.value].payout
    {
      assert EntryOk(s, q) && EntryGrown(s.chain[q], s'.chain[q]);
    }
  }

  // ---- Shapes of a step ----

  lemma SafeSetPass(c: Config, s: State, k: nat, pass: Pass)
    requires Safe(c, s) && PassSafe(c, s, pass)
    ensures Safe(c, SetPass(s, k, pass))
  {
    SafeIgnoresPasses(c, s, SetPass(s, k, pass));
  }

  lemma SafeEndPass(c: Config, s: State, k: nat)
    requires Safe(c, s)
    ensures Safe(c, EndPass(s, k))
  {
    SafeIgnoresPasses(c, s, EndPass(s, k));
  }

  lemma SafeIgnoresPasses(c: Config, s: State, s': State)
    requires Safe(c, s) && s' == s.(passes := s'.passes)
    requires forall k | k in s'.passes :: PassSafe(c, s, s'.passes[k])
    ensures Safe(c, s')
  {
    assert forall i | 0 <= i < |s.subs| :: Spent(c, s, i) == Spent(c, s', i) && PaidOut(s, i) == PaidOut(s', i);
    assert forall p | p in s.rows :: RowSafe(c, s, p) ==> RowSafe(c, s', p);
    assert forall p | p in s.last :: GoneSafe(c, s, p) ==> GoneSafe(c, s', p);
    forall k | k in s'.passes ensures PassSafe(c, s', s'.passes[k]) {
      assert PassSafe(c, s, s'.passes[k]);
    }
  }

  /** A step that changes no row but may erase settled ones. */
  lemma SafeQuiet(c: Config, s: State, s': State)
    requires Inv(c, s) && Safe(c, s) && Steady(c, s, s')
    requires s'.last == s.last && |s'.subs| == |s.subs| && s'.passes == s.passes
    requires forall p | p in s'.rows && p in s.rows :: s'.rows[p] == s.rows[p]
    requires forall p | p in s'.rows && p !in s.rows :: p !in s.last && s'.rows[p].proposalId.None?
    requires forall p | p in s.rows && p !in s'.rows && p in s.last :: GoneSafe(c, s', p)
    requires ClocksOk(c, s') && NoImpostor(s') && LandedInTime(c, s')
    ensures Safe(c, s')
  {
    assert forall i | 0 <= i < |s.subs| :: s'.subs[i] == s.subs[i].(state := s'.subs[i].state);
    forall i | 0 <= i < |s'.subs| && Last(s', s'.subs[i].payout) != Some(i) ensures Spent(c, s', i) {
      assert Spent(c, s, i);
    }
    forall p | p in s'.rows ensures RowSafe(c, s', p) {
      if p in s.rows {
        assert RowSafe(c, s, p) && RowOk(s, p);
      }
    }
    forall p | p in s'.last ensures GoneSafe(c, s', p) {
      assert GoneSafe(c, s, p) && LastOk(s, p);
    }
    forall k | k in s'.passes ensures PassSafe(c, s', s'.passes[k]) {
      assert PassOk(c, s, k, s.passes[k]);
      PassSafeCarries(c, s, s', k, s.passes[k]);
    }
  }

  /** A locked write of one row. */
  lemma SafeRowWrite(c: Config, s: State, s': State, p: nat, row: Payout)
    requires Inv(c, s) && Safe(c, s) && p in s.rows
    requires s' == s.(rows := s.rows[p := row], resets := s'.resets, paidNotices := s'.paidNotices)
    requires row.status == PayoutStatus.Pending && row.claim.None? ==> LastSpent(c, s, p)
    requires row.proposalId.Some? ==> PinSafe(c, s, p, row.proposalId.value)
    ensures Safe(c, s')
  {
    forall q | q in s'.rows ensures RowSafe(c, s', q) {
      assert q in s.rows ==> RowSafe(c, s, q);
      RowSafeAfterWrite(c, s, s', p, row, q);
    }
    RestSafeAfterWrite(c, s, s', p, row);
  }

  lemma RestSafeAfterWrite(c: Config, s: State, s': State, p: nat, row: Payout)
    requires Safe(c, s) && p in s.rows
    requires s' == s.(rows := s.rows[p := row], resets := s'.resets, paidNotices := s'.paidNotices)
    ensures OlderSpent(c, s') && (forall q | q in s'.last :: GoneSafe(c, s', q)) && (forall k | k in s'.passes :: PassSafe(c, s', s'.passes[k]))
  {
    forall i | 0 <= i < |s'.subs| && Last(s', s'.subs[i].payout) != Some(i) ensures Spent(c, s', i) {
      assert Spent(c, s, i);
    }
    forall q | q in s'.last ensures GoneSafe(c, s', q) {
      assert GoneSafe(c, s, q);
    }
    forall k | k in s'.passes ensures PassSafe(c, s', s'.passes[k]) {
      assert PassSafe(c, s, s.passes[k]);
    }
  }

  lemma RowSafeAfterWrite(c: Config, s: State, s': State, p: nat, row: Payout, q: nat)
    requires p in s.rows && q in s'.rows && (q in s.rows ==> RowSafe(c, s, q))
    requires s' == s.(rows := s.rows[p := row], resets := s'.resets, paidNotices := s'.paidNotices)
    requires row.status == PayoutStatus.Pending && row.claim.None? ==> LastSpent(c, s, p)
    requires row.proposalId.Some? ==> PinSafe(c, s, p, row.proposalId.value)
    ensures RowSafe(c, s', q)
  {
  }

  lemma SafeAfterReconcile(c: Config, s: State, k: nat, status: PayoutStatus)
    requires Safe(c, s) && k in s.passes
    ensures Safe(c, AfterReconcile(s, k, status))
  {
    assert PassSafe(c, s, s.passes[k]);
    if s.passes[k].job.Propose? && status == PayoutStatus.Pending {
      SafeSetPass(c, s, k, s.passes[k].(phase := Scan));
    } else {
      SafeEndPass(c, s, k);
    }
  }

  // ---- Pinning ----

  /** With no impostor on the chain, a proposal that carries a requested identity
      of a payout came from a claim of that payout, for that very identity. */
  lemma MatchIsOurs(c: Config, s: State, q: nat, p: nat, taskId: nat, claim: Claim)
    requires Inv(c, s) && NoImpostor(s) && q < |s.chain|
    requires Request(p, taskId, claim) in s.requested
    requires MatchesPayoutTransfer(s.chain[q].proposal, PayoutDescription(p, taskId), claim)
    ensures s.chain[q].origin.Some? && s.chain[q].origin.value < |s.subs|
    ensures s.subs[s.chain[q].origin.value].payout == p && s.subs[s.chain[q].origin.value].claim == claim
    ensures s.subs[s.chain[q].origin.value].state == Landed(q) && p in s.last
  {
    var r := Request(p, taskId, claim);
    assert s.chain[q].origin.Some?;
    assert EntryOk(s, q);
    var u := s.subs[s.chain[q].origin.value];
    DescriptionInjective(u.payout, u.taskId, p, taskId);
    assert SubOk(s, s.chain[q].origin.value);
  }

  /** Of the proposals that carry the identity a row may be pinned with, exactly
      those are safe to pin that read as alive, unless nothing of the payout's
      newest claim is out. */
  lemma SafePinExactly(c: Config, s: State, p: nat, taskId: nat, claim: Claim, q: nat)
    requires Inv(c, s) && Safe(c, s) && q < |s.chain| && Request(p, taskId, claim) in s.requested
    requires MatchesPayoutTransfer(s.chain[q].proposal, PayoutDescription(p, taskId), claim)
    ensures PinSafe(c, s, p, q) <==> Harmless(c, s, p, q)
  {
    MatchIsOurs(c, s, q, p, taskId, claim);
    var u := s.chain[q].origin.value;
    assert Last(s, p) != Some(u) ==> Spent(c, s, u);
  }

  /** So is what a pass found in its window. */
  lemma HarmlessFoundIsSafe(c: Config, s: State, k: nat, claim: Claim, liveOnly: bool)
    requires Inv(c, s) && Safe(c, s) && k in s.passes && s.passes[k].window.Some? && Found(c, s.passes[k], claim, liveOnly).Some?
    requires Request(s.passes[k].payout, s.passes[k].seen.taskId, claim) in s.requested
    requires Harmless(c, s, s.passes[k].payout, Found(c, s.passes[k], claim, liveOnly).value.id)
    ensures PinSafe(c, s, s.passes[k].payout, Found(c, s.passes[k], claim, liveOnly).value.id)
  {
    var f := Found(c, s.passes[k], claim, liveOnly).value;
    var i := FoundAlive(c, s, k, claim, liveOnly, f);
    SafePinExactly(c, s, s.passes[k].payout, s.passes[k].seen.taskId, claim, f.id);
  }

  /** A row that remembers a claim was healed a whole grace after that claim, so
      no running pass is old enough to have begun before it. */
  lemma RememberedIsOld(c: Config, s: State, k: nat)
    requires Inv(c, s) && BoundsOk(c) && k in s.passes
    requires var pass := s.passes[k]; var p := pass.payout;
             && s.now - pass.begun <= c.passMs
             && p in s.rows && s.rows[p].status == PayoutStatus.Pending && s.rows[p].claim.Some? && p in s.last
    ensures s.last[s.passes[k].payout] < s.passes[k].subs0
  {
    var pass := s.passes[k];
    var p := pass.payout;
    assert PassOk(c, s, k, pass) && RowOk(s, p) && LastOk(s, p);
  }

  /** What the window shows as alive belongs to the claim that was newest when the
      page was read; if that is no longer the newest, the pass can only pin it over
      a newest claim that is spent. */
  lemma WindowPin(c: Config, s: State, k: nat, claim: Claim, liveOnly: bool, f: Proposal) returns (u: nat)
    requires Inv(c, s) && Safe(c, s) && k in s.passes && s.passes[k].window.Some?
    requires Found(c, s.passes[k], claim, liveOnly) == Some(f)
    requires Request(s.passes[k].payout, s.passes[k].seen.taskId, claim) in s.requested
    ensures f.id < |s.chain| && s.chain[f.id].origin == Some(u) && u < |s.subs|
    ensures s.subs[u].payout == s.passes[k].payout && s.subs[u].claim == claim
    ensures WindowShows(s, s.passes[k], u)
  {
    var i := FoundAlive(c, s, k, claim, liveOnly, f);
    u := MatchedNewest(c, s, k, claim, i);
  }

  lemma MatchedNewest(c: Config, s: State, k: nat, claim: Claim, i: nat) returns (u: nat)
    requires Inv(c, s) && Safe(c, s) && k in s.passes && s.passes[k].window.Some?
    requires Request(s.passes[k].payout, s.passes[k].seen.taskId, claim) in s.requested
    requires var pass := s.passes[k]; var w := pass.window.value;
             && i < |w.page| && w.from + i < |s.chain| && !Shut(w.page[i], c.periodMs, w.at)
             && MatchesPayoutTransfer(s.chain[w.from + i].proposal, PayoutDescription(pass.payout, pass.seen.taskId), claim)
    ensures s.chain[s.passes[k].window.value.from + i].origin == Some(u) && u < |s.subs|
    ensures s.subs[u].payout == s.passes[k].payout && s.subs[u].claim == claim
    ensures WindowShows(s, s.passes[k], u)
  {
    var q := s.passes[k].window.value.from + i;
    MatchIsOurs(c, s, q, s.passes[k].payout, s.passes[k].seen.taskId, claim);
    u := s.chain[q].origin.value;
    AliveIsNewest(c, s, k, i, u);
  }

  lemma FoundAlive(c: Config, s: State, k: nat, claim: Claim, liveOnly: bool, f: Proposal) returns (i: nat)
    requires Inv(c, s) && k in s.passes && s.passes[k].window.Some? && Found(c, s.passes[k], claim, liveOnly) == Some(f)
    ensures var pass := s.passes[k]; var w := pass.window.value;
            && i < |w.page| && f.id == w.from + i < |s.chain| && !Shut(w.page[i], c.periodMs, w.at)
            && MatchesPayoutTransfer(s.chain[f.id].proposal, PayoutDescription(pass.payout, pass.seen.taskId), claim)
  {
    var pass := s.passes[k];
    i := FoundIsOnChain(c, s, k, claim, liveOnly);
    EligibleUnlessShut(f, Desc(pass.payout, pass.seen), claim, c.periodMs, pass.window.value.at);
  }

  /** Claim `u` was the payout's newest when the window was read. */
  ghost predicate WindowShows(s: State, pass: Pass, u: nat) {
    && pass.window.Some? && pass.payout in s.last && s.last[pass.payout] < |s.subs|
    && s.subs[s.last[pass.payout]].payout == pass.payout
    && pass.window.value.lastClaim == Some(u) && u < pass.window.value.submissions
    && !(pass.seen.status == PayoutStatus.Pending && pass.seen.claim.None? && pass.last0 == Some(u))
    && (s.last[pass.payout] == u || s.last[pass.payout] >= pass.window.value.submissions)
  }

  lemma AliveIsNewest(c: Config, s: State, k: nat, i: nat, u: nat)
    requires Inv(c, s) && Safe(c, s) && k in s.passes && s.passes[k].window.Some? && s.passes[k].payout in s.last
    requires var pass := s.passes[k]; var w := pass.window.value;
             && i < |w.page| && w.from + i < |s.chain| && !Shut(w.page[i], c.periodMs, w.at)
             && s.chain[w.from + i].origin == Some(u) && u < |s.subs| && s.subs[u].payout == pass.payout
    ensures WindowShows(s, s.passes[k], u)
  {
    WindowIsSafe(c, s, k);
    LastAtWindow(c, s, k);
    WindowNewest(c, s, s.passes[k], i, u);
  }

  lemma WindowIsSafe(c: Config, s: State, k: nat)
    requires Safe(c, s) && k in s.passes && s.passes[k].window.Some?
    ensures WindowSafe(c, s, s.passes[k], s.passes[k].window.value)
  {
    assert PassSafe(c, s, s.passes[k]);
  }

  /** The newest claim is the window's or came after it. */
  ghost predicate AtWindow(s: State, pass: Pass) {
    && pass.window.Some? && pass.payout in s.last
    && var w, last := pass.window.value, s.last[pass.payout];
       && last < |s.subs| && s.subs[last].payout == pass.payout
       && (w.lastClaim.Some? ==> w.lastClaim.value < w.submissions)
       && (w.lastClaim == Some(last) || last >= w.submissions)
  }

  lemma LastAtWindow(c: Config, s: State, k: nat)
    requires Inv(c, s) && k in s.passes && s.passes[k].window.Some? && s.passes[k].payout in s.last
    ensures AtWindow(s, s.passes[k])
  {
    assert PassOk(c, s, k, s.passes[k]) && LastOk(s, s.passes[k].payout);
  }

  lemma WindowNewest(c: Config, s: State, pass: Pass, i: nat, u: nat)
    requires pass.window.Some? && WindowSafe(c, s, pass, pass.window.value) && AtWindow(s, pass)
    requires var w := pass.window.value;
             && i < |w.page| && w.from + i < |s.chain| && !Shut(w.page[i], c.periodMs, w.at)
             && s.chain[w.from + i].origin == Some(u) && u < |s.subs| && s.subs[u].payout == pass.payout
    ensures WindowShows(s, pass, u)
  {
  }

  lemma AdoptPinSafe(c: Config, s: State, k: nat, f: Proposal)
    requires Inv(c, s) && Safe(c, s) && BoundsOk(c) && k in s.passes
    requires var pass := s.passes[k];
             && pass.window.Some? && pass.seen.claim.Some? && Found(c, pass, pass.seen.claim.value, false) == Some(f)
             && s.now - pass.begun <= c.passMs && !Straddles(s, pass)
             && pass.payout in s.rows && AdoptGuard(s.rows[pass.payout], pass.seen)
    ensures PinSafe(c, s, s.passes[k].payout, f.id)
  {
    SeenIsRequested(c, s, k);
    var u := WindowPin(c, s, k, s.passes[k].seen.claim.value, false, f);
    AdoptNewest(c, s, k);
  }

  lemma SeenIsRequested(c: Config, s: State, k: nat)
    requires Inv(c, s) && k in s.passes
    ensures var pass := s.passes[k];
            && (pass.seen.claim.Some? ==> Request(pass.payout, pass.seen.taskId, pass.seen.claim.value) in s.requested)
            && (pass.job.Propose? ==> Request(pass.payout, pass.seen.taskId, pass.job.request) in s.requested)
  {
    assert PassOk(c, s, k, s.passes[k]);
  }

  /** Where an adoption's guard passes, no claim came after the window. */
  lemma AdoptNewest(c: Config, s: State, k: nat)
    requires Inv(c, s) && BoundsOk(c) && k in s.passes && s.passes[k].seen.claim.Some?
    requires var pass := s.passes[k]; var p := pass.payout;
             && s.now - pass.begun <= c.passMs && !Straddles(s, pass)
             && p in s.rows && AdoptGuard(s.rows[p], pass.seen) && p in s.last && pass.window.Some?
    ensures s.last[s.passes[k].payout] < s.passes[k].window.value.submissions
  {
    var pass := s.passes[k];
    var p := pass.payout;
    assert PassOk(c, s, k, pass) && LastOk(s, p);
    if pass.seen.status == PayoutStatus.Pending {
      RememberedIsOld(c, s, k);
    }
  }

  lemma PinLiveSafe(c: Config, s: State, k: nat, f: Proposal)
    requires Inv(c, s) && Safe(c, s) && BoundsOk(c) && k in s.passes && s.passes[k].phase == Scan
    requires var pass := s.passes[k]; var p := pass.payout;
             && pass.window.Some? && pass.job.Propose? && Found(c, pass, pass.job.request, true) == Some(f)
             && s.now - pass.begun <= c.passMs && !Straddles(s, pass)
             && p in s.rows && s.rows[p].status != PayoutStatus.Paid && s.rows[p].proposalId.None?
    ensures PinSafe(c, s, s.passes[k].payout, f.id)
  {
    SeenIsRequested(c, s, k);
    var u := WindowPin(c, s, k, s.passes[k].job.request, true, f);
    PinsLast(c, s, k, u, f.id);
  }

  lemma PinsLast(c: Config, s: State, k: nat, u: nat, q: nat)
    requires Inv(c, s) && Safe(c, s) && BoundsOk(c) && k in s.passes && s.passes[k].phase == Scan
    requires var pass := s.passes[k]; var p := pass.payout;
             && WindowShows(s, pass, u) && u < |s.subs| && s.subs[u].payout == p
             && pass.job.Propose? && s.subs[u].claim == pass.job.request && Found(c, pass, pass.job.request, true).Some?
             && s.now - pass.begun <= c.passMs && !Straddles(s, pass)
             && p in s.rows && s.rows[p].status != PayoutStatus.Paid && s.rows[p].proposalId.None?
             && q < |s.chain| && s.chain[q].origin == Some(u)
    ensures PinSafe(c, s, s.passes[k].payout, q)
  {
    var p := s.passes[k].payout;
    if s.rows[p].status == PayoutStatus.Proposed {
      ScanSawRemembered(c, s, k, u);
    } else if s.rows[p].claim.Some? {
      RememberedIsOld(c, s, k);
      WindowAfterStart(c, s, k);
    } else {
      assert RowSafe(c, s, p);
    }
  }

  lemma WindowAfterStart(c: Config, s: State, k: nat)
    requires Inv(c, s) && k in s.passes && s.passes[k].window.Some?
    ensures s.passes[k].subs0 <= s.passes[k].window.value.submissions
  {
    assert PassOk(c, s, k, s.passes[k]);
  }

  /** A /pay cannot reach its own adoption over a later claim: with a live proposal
      of the claim it remembered in its window, its reconcile would have taken it,
      unless the row was reset meanwhile. */
  lemma ScanSawRemembered(c: Config, s: State, k: nat, u: nat)
    requires Inv(c, s) && k in s.passes && s.passes[k].phase == Scan
    requires var pass := s.passes[k]; var p := pass.payout;
             && WindowShows(s, pass, u) && u < |s.subs| && s.subs[u].payout == p
             && pass.job.Propose? && s.subs[u].claim == pass.job.request && Found(c, pass, pass.job.request, true).Some?
             && !Straddles(s, pass) && p in s.rows
             && s.rows[p].status == PayoutStatus.Proposed && s.rows[p].proposalId.None?
    ensures s.last[s.passes[k].payout] < s.passes[k].window.value.submissions
  {
    var pass := s.passes[k];
    var p := pass.payout;
    var last := s.last[p];
    assert PassOk(c, s, k, pass) && RowOk(s, p);
    if last >= pass.window.value.submissions {
      assert s.subs[last].resetsBefore == pass.resets0 == Resets(s, p);
      assert pass.seen.status == PayoutStatus.Pending;
      assert s.subs[u].resetsBefore < s.subs[last].resetsBefore;
      assert pass.last0 == Some(u);
      assert pass.seen.claim == Some(pass.job.request);
      LiveFoundMeansFound(c, pass);
    }
  }

  lemma LiveFoundMeansFound(c: Config, pass: Pass)
    requires pass.window.Some? && pass.job.Propose? && Found(c, pass, pass.job.request, true).Some?
    ensures Found(c, pass, pass.job.request, false).Some?
  {
    var w := pass.window.value;
    var d := Desc(pass.payout, pass.seen);
    var i :| 0 <= i < |w.page| && Eligible(w.page[i], d, pass.job.request, true, c.periodMs, w.at);
    EligibleUnlessShut(w.page[i], d, pass.job.request, c.periodMs, w.at);
  }

  // ---- Resetting ----

  /** A complete window that shows nothing of the row's claim, read after that
      claim's submission could last have landed, proves the claim spent. */
  lemma NothingFoundMeansSpent(c: Config, s: State, k: nat)
    requires Inv(c, s) && Safe(c, s) && k in s.passes && NothingFound(c, s.passes[k])
    requires var pass := s.passes[k]; var p := pass.payout;
             && p in s.rows && p in s.last && s.last[p] < |s.subs|
             && s.subs[s.last[p]].claim == pass.seen.claim.value
             && s.subs[s.last[p]].claimedAt + c.landingMs < pass.begun
    ensures Spent(c, s, s.last[s.passes[k].payout])
  {
    var pass := s.passes[k];
    var last := s.last[pass.payout];
    assert PassOk(c, s, k, pass) && PassSafe(c, s, pass) && LastOk(s, pass.payout) && SubOk(s, last);
    if s.subs[last].state.Landed? {
      LandedShows(c, s, k, s.subs[last].state.id);
    }
  }

  lemma LandedShows(c: Config, s: State, k: nat, q: nat)
    requires Inv(c, s) && Safe(c, s) && k in s.passes && NothingFound(c, s.passes[k])
    requires q < |s.chain| && s.chain[q].origin.Some? && s.chain[q].origin.value < |s.subs|
    requires var pass := s.passes[k]; var u := s.subs[s.chain[q].origin.value];
             && u.payout == pass.payout && u.taskId == pass.seen.taskId
             && u.claim == pass.seen.claim.value && u.claimedAt + c.landingMs < pass.begun
    ensures Shut(s.chain[q].proposal, c.periodMs, s.now)
  {
    var pass := s.passes[k];
    var w := pass.window.value;
    LandedIsOnPage(c, s, k, q);
    assert PassSafe(c, s, pass) && EntryOk(s, q);
    EligibleUnlessShut(w.page[q], Desc(pass.payout, pass.seen), pass.seen.claim.value, c.periodMs, w.at);
    ShutOnPage(c, s, pass, w, q);
  }

  /** What landed before the count was read is on the page. */
  lemma LandedIsOnPage(c: Config, s: State, k: nat, q: nat)
    requires Inv(c, s) && LandedInTime(c, s) && k in s.passes && NothingFound(c, s.passes[k])
    requires q < |s.chain| && s.chain[q].origin.Some? && s.chain[q].origin.value < |s.subs|
    requires s.subs[s.chain[q].origin.value].claimedAt + c.landingMs < s.passes[k].begun
    ensures q < |s.passes[k].window.value.page|
    ensures SameProposal(s.passes[k].window.value.page[q], s.chain[q].proposal)
  {
    var pass := s.passes[k];
    var w := pass.window.value;
    assert PassOk(c, s, k, pass);
    assert s.chain[q].landedAt < pass.countedAt;
    assert SameProposal(w.page[q], s.chain[w.from + q].proposal);
  }

  lemma ShutOnPage(c: Config, s: State, pass: Pass, w: Window, q: nat)
    requires WindowSafe(c, s, pass, w) && w.from == 0 && q < |w.page| && q < |s.chain| && Shut(w.page[q], c.periodMs, w.at)
    ensures Shut(s.chain[q].proposal, c.periodMs, s.now)
  {
    assert w.from + q == q;
  }

  lemma ExpireMeansSpent(c: Config, s: State, k: nat)
    requires Inv(c, s) && Safe(c, s) && BoundsOk(c) && k in s.passes && PassEnabled(c, s, k, Expire(k))
    requires var pass := s.passes[k];
             && s.now - pass.begun <= c.passMs
             && pass.payout in s.rows && ExpireGuard(s.rows[pass.payout], pass.seen, s.now)
    ensures LastSpent(c, s, s.passes[k].payout)
  {
    var pass := s.passes[k];
    var p := pass.payout;
    assert PassOk(c, s, k, pass) && RowOk(s, p);
    if p in s.last {
      assert LastOk(s, p);
      NothingFoundMeansSpent(c, s, k);
    }
  }

  lemma ExpireSafe(c: Config, s: State, k: nat)
    requires Inv(c, s) && Safe(c, s) && BoundsOk(c) && k in s.passes && PassEnabled(c, s, k, Expire(k))
    requires s.now - s.passes[k].begun <= c.passMs
    ensures Safe(c, ExpireNext(s, k))
  {
    var pass := s.passes[k];
    var p := pass.payout;
    if p !in s.rows {
      SafeEndPass(c, s, k);
    } else if !ExpireGuard(s.rows[p], pass.seen, s.now) {
      SafeAfterReconcile(c, s, k, s.rows[p].status);
    } else {
      var row := ResetToPending(s.rows[p], s.rows[p].attention, false, s.now);
      ExpireMeansSpent(c, s, k);
      SafeRowWrite(c, s, WriteReset(s, p, row), p, row);
      SafeAfterReconcile(c, WriteReset(s, p, row), k, PayoutStatus.Pending);
    }
  }

  lemma HealSafe(c: Config, s: State, k: nat)
    requires Inv(c, s) && Safe(c, s) && k in s.passes
    ensures Safe(c, HealNext(s, k))
  {
    var p := s.passes[k].payout;
    if p !in s.rows {
      SafeEndPass(c, s, k);
    } else if !HealGuard(s.rows[p], s.now) {
      SafeAfterReconcile(c, s, k, s.rows[p].status);
    } else {
      var row := ResetToPending(s.rows[p], false, true, s.now);
      assert RowOk(s, p);
      SafeRowWrite(c, s, WriteReset(s, p, row), p, row);
      SafeAfterReconcile(c, WriteReset(s, p, row), k, PayoutStatus.Pending);
    }
  }

  /** The row's pinned proposal is dead, so its newest claim is spent too. */
  lemma DeadPinMeansSpent(c: Config, s: State, p: nat, q: nat)
    requires Inv(c, s) && Safe(c, s) && p in s.rows && s.rows[p].proposalId == Some(q)
    requires q < |s.chain| && Shut(s.chain[q].proposal, c.periodMs, s.now)
    ensures LastSpent(c, s, p)
  {
    assert RowOk(s, p) && RowSafe(c, s, p);
    MatchIsOurs(c, s, q, p, s.rows[p].taskId, s.rows[p].claim.value);
    assert LastOk(s, p);
  }

  lemma ApplySettleSafe(c: Config, s: State, k: nat)
    requires Inv(c, s) && Safe(c, s) && k in s.passes && s.passes[k].phase.Apply?
    ensures Safe(c, ApplySettleNext(s, k))
  {
    var pass := s.passes[k];
    var p := pass.payout;
    var mapped := ProposalToPayout(pass.phase.effective);
    if p !in s.rows {
      SafeEndPass(c, s, k);
      SafeAfterReconcile(c, s, k, mapped.status);
    } else if !SettleGuard(s.rows[p], pass.phase.id) {
      SafeAfterReconcile(c, s, k, s.rows[p].status);
      SafeAfterReconcile(c, s, k, mapped.status);
    } else {
      SettledSafe(c, s, k);
    }
  }

  lemma SettledSafe(c: Config, s: State, k: nat)
    requires Inv(c, s) && Safe(c, s) && k in s.passes && s.passes[k].phase.Apply? && s.passes[k].payout in s.rows
    requires SettleGuard(s.rows[s.passes[k].payout], s.passes[k].phase.id)
    ensures Safe(c, ApplySettleNext(s, k))
  {
    if ProposalToPayout(s.passes[k].phase.effective).reset {
      SettledResetSafe(c, s, k);
    } else {
      SettledPaidSafe(c, s, k);
    }
  }

  lemma SettledResetSafe(c: Config, s: State, k: nat)
    requires Inv(c, s) && Safe(c, s) && k in s.passes && s.passes[k].phase.Apply? && s.passes[k].payout in s.rows
    requires SettleGuard(s.rows[s.passes[k].payout], s.passes[k].phase.id)
    requires ProposalToPayout(s.passes[k].phase.effective).reset
    ensures Safe(c, ApplySettleNext(s, k))
  {
    var pass := s.passes[k];
    var p := pass.payout;
    assert PassSafe(c, s, pass);
    DeadPinMeansSpent(c, s, p, pass.phase.id);
    var row := Settled(s.rows[p], ProposalToPayout(pass.phase.effective), s.now);
    SafeRowWrite(c, s, WriteReset(s, p, row), p, row);
    SafeAfterReconcile(c, WriteReset(s, p, row), k, PayoutStatus.Pending);
  }

  lemma SettledPaidSafe(c: Config, s: State, k: nat)
    requires Inv(c, s) && Safe(c, s) && k in s.passes && s.passes[k].phase.Apply? && s.passes[k].payout in s.rows
    requires SettleGuard(s.rows[s.passes[k].payout], s.passes[k].phase.id)
    requires !ProposalToPayout(s.passes[k].phase.effective).reset
    ensures Safe(c, ApplySettleNext(s, k))
  {
    var pass := s.passes[k];
    var p := pass.payout;
    var mapped := ProposalToPayout(pass.phase.effective);
    assert RowSafe(c, s, p);
    var row := Settled(s.rows[p], mapped, s.now);
    var s1 := WriteRow(s, p, row).(paidNotices := s.paidNotices + [p]);
    SafeRowWrite(c, s, s1, p, row);
    SafeAfterReconcile(c, s1, k, mapped.status);
    SafeAfterReconcile(c, s, k, mapped.status);
  }

  // ---- Steps that pin, claim and submit ----

  lemma AdoptSafe(c: Config, s: State, k: nat)
    requires Inv(c, s) && Safe(c, s) && BoundsOk(c) && k in s.passes && PassEnabled(c, s, k, Adopt(k))
    requires s.now - s.passes[k].begun <= c.passMs && (PinWrites(s, Adopt(k)) ==> PinUnstraddled(c, s, Adopt(k)))
    ensures Safe(c, AdoptNext(c, s, k))
  {
    var pass := s.passes[k];
    var p := pass.payout;
    var id := Found(c, pass, pass.seen.claim.value, false).value.id;
    if p !in s.rows {
      SafeEndPass(c, s, k);
    } else if !AdoptGuard(s.rows[p], pass.seen) {
      SafeAfterReconcile(c, s, k, s.rows[p].status);
    } else {
      AdoptPinIsSafe(c, s, k);
      AdoptedSafe(c, s, k, id);
    }
  }

  lemma AdoptPinIsSafe(c: Config, s: State, k: nat)
    requires Inv(c, s) && Safe(c, s) && BoundsOk(c) && k in s.passes && PassEnabled(c, s, k, Adopt(k))
    requires s.now - s.passes[k].begun <= c.passMs && PinUnstraddled(c, s, Adopt(k))
    requires s.passes[k].payout in s.rows && AdoptGuard(s.rows[s.passes[k].payout], s.passes[k].seen)
    ensures PinSafe(c, s, s.passes[k].payout, Pinned(c, s, Adopt(k)))
  {
    var pass := s.passes[k];
    if Straddles(s, pass) {
      SeenIsRequested(c, s, k);
      HarmlessFoundIsSafe(c, s, k, pass.seen.claim.value, false);
    } else {
      AdoptPinSafe(c, s, k, Found(c, pass, pass.seen.claim.value, false).value);
    }
  }

  lemma AdoptedSafe(c: Config, s: State, k: nat, id: nat)
    requires Inv(c, s) && Safe(c, s) && k in s.passes && s.passes[k].payout in s.rows && s.passes[k].seen.claim.Some?
    requires PinSafe(c, s, s.passes[k].payout, id)
    ensures var pass := s.passes[k];
            var s1 := WriteRow(s, pass.payout, MarkProposed(s.rows[pass.payout], Some(id), pass.seen.claim.value, s.now));
            Safe(c, SetPass(s1, k, pass.(phase := Settle(id), adopted := true)))
  {
    var pass := s.passes[k];
    var row := MarkProposed(s.rows[pass.payout], Some(id), pass.seen.claim.value, s.now);
    var s1 := WriteRow(s, pass.payout, row);
    SafeRowWrite(c, s, s1, pass.payout, row);
    AdoptedPassSafe(c, s1, k, id);
  }

  lemma AdoptedPassSafe(c: Config, s: State, k: nat, id: nat)
    requires Safe(c, s) && k in s.passes
    ensures Safe(c, SetPass(s, k, s.passes[k].(phase := Settle(id), adopted := true)))
  {
    assert PassSafe(c, s, s.passes[k]);
    assert s.passes[k].window.Some? ==> WindowSafe(c, s, s.passes[k].(phase := Settle(id), adopted := true), s.passes[k].window.value);
    SafeSetPass(c, s, k, s.passes[k].(phase := Settle(id), adopted := true));
  }

  lemma PinnedSafe(c: Config, s: State, k: nat, claim: Claim, id: nat)
    requires Inv(c, s) && Safe(c, s) && k in s.passes && s.passes[k].payout in s.rows
    requires PinSafe(c, s, s.passes[k].payout, id)
    ensures var p := s.passes[k].payout; Safe(c, EndPass(WriteRow(s, p, MarkProposed(s.rows[p], Some(id), claim, s.now)), k))
  {
    var p := s.passes[k].payout;
    var row := MarkProposed(s.rows[p], Some(id), claim, s.now);
    SafeRowWrite(c, s, WriteRow(s, p, row), p, row);
    SafeEndPass(c, WriteRow(s, p, row), k);
  }

  lemma PinLivePinIsSafe(c: Config, s: State, k: nat)
    requires Inv(c, s) && Safe(c, s) && BoundsOk(c) && k in s.passes && PassEnabled(c, s, k, PinLive(k))
    requires s.now - s.passes[k].begun <= c.passMs && PinUnstraddled(c, s, PinLive(k))
    requires var p := s.passes[k].payout; p in s.rows && s.rows[p].status != PayoutStatus.Paid && s.rows[p].proposalId.None?
    ensures PinSafe(c, s, s.passes[k].payout, Pinned(c, s, PinLive(k)))
  {
    var pass := s.passes[k];
    if Straddles(s, pass) {
      SeenIsRequested(c, s, k);
      HarmlessFoundIsSafe(c, s, k, pass.job.request, true);
    } else {
      PinLiveSafe(c, s, k, Found(c, pass, pass.job.request, true).value);
    }
  }

  lemma PinLiveStepSafe(c: Config, s: State, k: nat)
    requires Inv(c, s) && Safe(c, s) && BoundsOk(c) && k in s.passes && PassEnabled(c, s, k, PinLive(k))
    requires s.now - s.passes[k].begun <= c.passMs && (PinWrites(s, PinLive(k)) ==> PinUnstraddled(c, s, PinLive(k)))
    ensures Safe(c, PinLiveNext(c, s, k))
  {
    var pass := s.passes[k];
    var p := pass.payout;
    var id := Found(c, pass, pass.job.request, true).value.id;
    if p !in s.rows || s.rows[p].status == PayoutStatus.Paid || s.rows[p].proposalId.Some?
       || ConflictingClaim(s.rows[p], pass.job.request) {
      SafeEndPass(c, s, k);
    } else {
      PinLivePinIsSafe(c, s, k);
      PinnedSafe(c, s, k, pass.job.request, id);
    }
  }

  /** The pass's own proposal is the newest claim's unless the pass straddles. */
  lemma OwnAnswerIsSafe(c: Config, s: State, k: nat)
    requires Inv(c, s) && k in s.passes && s.passes[k].phase.Pin? && !Straddles(s, s.passes[k])
    requires s.passes[k].phase.answer < |s.chain|
    requires s.chain[s.passes[k].phase.answer].origin == Some(s.passes[k].phase.sub)
    ensures PinSafe(c, s, s.passes[k].payout, s.passes[k].phase.answer)
  {
    var pass := s.passes[k];
    var p := pass.payout;
    var i := pass.phase.sub;
    assert PassOk(c, s, k, pass) && SubOk(s, i) && LastOk(s, p);
  }

  /** The answered proposal carries the identity that was asked for. */
  lemma AnswerMatches(c: Config, s: State, k: nat)
    requires Inv(c, s) && k in s.passes && PassEnabled(c, s, k, PinAnswer(k))
    ensures var pass := s.passes[k]; var q := pass.phase.answer;
            && q < |s.chain| && MatchesPayoutTransfer(s.chain[q].proposal, PayoutDescription(pass.payout, pass.seen.taskId), pass.job.request)
            && Request(pass.payout, pass.seen.taskId, pass.job.request) in s.requested
  {
    assert PassOk(c, s, k, s.passes[k]);
  }

  lemma AnswerPinIsSafe(c: Config, s: State, k: nat)
    requires Inv(c, s) && Safe(c, s) && k in s.passes && PassEnabled(c, s, k, PinAnswer(k))
    requires PinUnstraddled(c, s, PinAnswer(k)) && AnswerFits(c, s, PinAnswer(k))
    ensures PinSafe(c, s, s.passes[k].payout, s.passes[k].phase.answer)
  {
    var pass := s.passes[k];
    AnswerMatches(c, s, k);
    if Harmless(c, s, pass.payout, pass.phase.answer) {
      SafePinExactly(c, s, pass.payout, pass.seen.taskId, pass.job.request, pass.phase.answer);
    } else {
      OwnAnswerIsSafe(c, s, k);
    }
  }

  lemma PinAnswerSafe(c: Config, s: State, k: nat)
    requires Inv(c, s) && Safe(c, s) && k in s.passes && PassEnabled(c, s, k, PinAnswer(k))
    requires PinWrites(s, PinAnswer(k)) ==> PinUnstraddled(c, s, PinAnswer(k)) && AnswerFits(c, s, PinAnswer(k))
    ensures Safe(c, PinAnswerNext(s, k))
  {
    var pass := s.passes[k];
    var p := pass.payout;
    if p !in s.rows || !PinGuard(s.rows[p]) {
      SafeEndPass(c, s, k);
    } else {
      AnswerPinIsSafe(c, s, k);
      PinnedSafe(c, s, k, pass.job.request, pass.phase.answer);
    }
  }

  /** A claim is made only over a spent history, so it becomes the only one that
      can still move money. */
  lemma ClaimSafe(c: Config, s: State, k: nat)
    requires Inv(c, s) && Safe(c, s) && k in s.passes && PassEnabled(c, s, k, ClaimRow(k))
    requires NoClaimOverUnresolved(c, s, ClaimRow(k))
    ensures Safe(c, ClaimRowNext(s, k))
  {
    var pass := s.passes[k];
    var p := pass.payout;
    if p !in s.rows || s.rows[p].status != PayoutStatus.Pending || ConflictingClaim(s.rows[p], pass.job.request) {
      SafeEndPass(c, s, k);
    } else {
      assert RowSafe(c, s, p);
      var row := MarkProposed(s.rows[p], None, pass.job.request, s.now);
      var u := Submission(p, row.taskId, pass.job.request, s.now, Resets(s, p), k, Unsent);
      var s1 := WriteRow(s, p, row).(subs := s.subs + [u], last := s.last[p := |s.subs|]);
      ClaimedSafe(c, s, p, pass.job.request, k, s1);
      assert PassSafe(c, s1, s1.passes[k]);
      SafeSetPass(c, s1, k, pass.(seen := row, resets0 := Resets(s, p), last0 := Some(|s.subs|), subs0 := |s.subs| + 1,
                                  phase := Claimed(|s.subs|), window := None, adopted := false));
    }
  }

  lemma ClaimedSafe(c: Config, s: State, p: nat, claim: Claim, owner: nat, s1: State)
    requires Inv(c, s) && Safe(c, s) && p in s.rows && LastSpent(c, s, p)
    requires var row := MarkProposed(s.rows[p], None, claim, s.now);
             s1 == WriteRow(s, p, row).(subs := s.subs + [Submission(p, row.taskId, claim, s.now, Resets(s, p), owner, Unsent)],
                                        last := s.last[p := |s.subs|])
    ensures Safe(c, s1)
  {
    ClaimGrows(c, s, p, claim, owner, s1);
    SteadyWhenTablesStay(c, s, s1);
    ClaimTablesSafe(c, s, s1, p);
  }

  lemma ClaimTablesSafe(c: Config, s: State, s1: State, p: nat)
    requires Inv(c, s) && Safe(c, s) && Steady(c, s, s1) && p in s.rows && LastSpent(c, s, p)
    requires |s1.subs| == |s.subs| + 1 && s1.subs[..|s.subs|] == s.subs && s1.subs[|s.subs|].payout == p
    requires p in s1.rows && s1 == s.(rows := s.rows[p := s1.rows[p]], subs := s1.subs, last := s.last[p := |s.subs|])
    requires s1.rows[p].status == PayoutStatus.Proposed && s1.rows[p].proposalId.None?
    ensures Safe(c, s1)
  {
    OlderSpentAfterClaim(c, s, s1, p);
    RowsSafeAfterClaim(c, s, s1, p);
    PassesSafeCarry(c, s, s1);
  }

  lemma RowsSafeAfterClaim(c: Config, s: State, s1: State, p: nat)
    requires Safe(c, s) && Steady(c, s, s1) && p in s.rows && p in s1.rows && s1.chain == s.chain
    requires s1.rows == s.rows[p := s1.rows[p]] && s1.last == s.last[p := |s.subs|]
    requires s1.rows[p].status == PayoutStatus.Proposed && s1.rows[p].proposalId.None?
    ensures forall q | q in s1.rows :: RowSafe(c, s1, q)
    ensures forall q | q in s1.last :: GoneSafe(c, s1, q)
  {
    forall q | q in s1.rows ensures RowSafe(c, s1, q) {
      assert RowSafe(c, s, q);
    }
    forall q | q in s1.last ensures GoneSafe(c, s1, q) {
      assert q != p ==> GoneSafe(c, s, q);
    }
  }

  lemma OlderSpentAfterClaim(c: Config, s: State, s1: State, p: nat)
    requires OlderSpent(c, s) && LastSpent(c, s, p) && Steady(c, s, s1)
    requires |s1.subs| == |s.subs| + 1 && s1.subs[..|s.subs|] == s.subs && s1.subs[|s.subs|].payout == p
    requires s1.last == s.last[p := |s.subs|]
    ensures OlderSpent(c, s1)
  {
    forall i | 0 <= i < |s1.subs| && Last(s1, s1.subs[i].payout) != Some(i) ensures Spent(c, s1, i) {
      assert s1.subs[i] == s.subs[i];
      assert Spent(c, s, i);
    }
  }

  lemma PassesSafeCarry(c: Config, s: State, s1: State)
    requires Inv(c, s) && Safe(c, s) && Steady(c, s, s1) && s1.passes == s.passes
    ensures forall j | j in s1.passes :: PassSafe(c, s1, s1.passes[j])
  {
    forall j | j in s1.passes ensures PassSafe(c, s1, s1.passes[j]) {
      assert PassOk(c, s, j, s.passes[j]) && PassSafe(c, s, s.passes[j]);
      PassSafeCarries(c, s, s1, j, s.passes[j]);
    }
  }

  lemma SubmitSafe(c: Config, s: State, k: nat)
    requires Inv(c, s) && Safe(c, s) && k in s.passes && PassEnabled(c, s, k, Submit(k))
    ensures Safe(c, SubmitNext(s, k))
  {
    var sub := s.passes[k].phase.sub;
    var u := s.subs[sub];
    if u.state == Unsent {
      SubStateSafe(c, s, sub, Sent);
      SubmittedSafe(c, s.(subs := s.subs[sub := u.(state := Sent)]), k, sub);
    } else {
      assert s.subs[sub := u] == s.subs;
      SubmittedSafe(c, s, k, sub);
    }
  }

  lemma SubmittedSafe(c: Config, s: State, k: nat, sub: nat)
    requires Safe(c, s) && k in s.passes
    ensures Safe(c, SetPass(s, k, s.passes[k].(phase := Submitted(sub))))
  {
    assert PassSafe(c, s, s.passes[k]);
    PhasedSafe(c, s, s.passes[k], Submitted(sub));
    SafeSetPass(c, s, k, s.passes[k].(phase := Submitted(sub)));
  }

  lemma SubStateSafe(c: Config, s: State, sub: nat, state: SubmitState)
    requires Inv(c, s) && Safe(c, s) && sub < |s.subs| && !s.subs[sub].state.Landed?
    requires state == Dropped || (s.subs[sub].state == Unsent && state == Sent)
    ensures Safe(c, s.(subs := s.subs[sub := s.subs[sub].(state := state)]))
  {
    var s1 := s.(subs := s.subs[sub := s.subs[sub].(state := state)]);
    SubStateTables(c, s, sub, state);
    SubStateSteady(c, s, s1, sub, state);
    SafeQuiet(c, s, s1);
  }

  // ---- Reads ----

  lemma ReadPageSafe(c: Config, s: State, k: nat)
    requires Inv(c, s) && Safe(c, s) && k in s.passes && PassEnabled(c, s, k, ReadPage(k))
    ensures Safe(c, ReadPageNext(c, s, k))
  {
    var w := PageWindow(s, s.passes[k]);
    ReadWindowSafe(c, s, k, w);
    SafeSetPass(c, s, k, s.passes[k].(window := Some(w)));
  }

  lemma ReadWindowSafe(c: Config, s: State, k: nat, w: Window)
    requires Inv(c, s) && Safe(c, s) && k in s.passes
    requires w.from + |w.page| <= |s.chain| && w.at == s.now && w.lastClaim == Last(s, s.passes[k].payout)
    requires forall i | 0 <= i < |w.page| :: w.page[i] == s.chain[w.from + i].proposal
    ensures PassSafe(c, s, s.passes[k].(window := Some(w)))
  {
    assert PassSafe(c, s, s.passes[k]);
    FreshWindowSafe(c, s, s.passes[k], w);
    WindowedSafe(c, s, s.passes[k], w);
  }

  lemma WindowedSafe(c: Config, s: State, pass: Pass, w: Window)
    requires PassSafe(c, s, pass) && WindowSafe(c, s, pass, w)
    ensures PassSafe(c, s, pass.(window := Some(w)))
  {
    assert WindowSafe(c, s, pass.(window := Some(w)), w);
  }

  /** What is not shut at the moment of the read is not spent, so it is the
      payout's newest claim. */
  lemma FreshWindowSafe(c: Config, s: State, pass: Pass, w: Window)
    requires Inv(c, s) && Safe(c, s) && PassSafe(c, s, pass)
    requires w.from + |w.page| <= |s.chain| && w.at == s.now && w.lastClaim == Last(s, pass.payout)
    requires forall i | 0 <= i < |w.page| :: w.page[i] == s.chain[w.from + i].proposal
    ensures WindowSafe(c, s, pass, w)
  {
    forall i | 0 <= i < |w.page| && !Shut(w.page[i], c.periodMs, w.at)
      ensures var origin := s.chain[w.from + i].origin;
              origin.Some? && origin.value < |s.subs| ==> !Spent(c, s, origin.value)
    {
      assert EntryOk(s, w.from + i);
    }
  }

  lemma ReadStepSafe(c: Config, s: State, k: nat, ev: Event)
    requires Inv(c, s) && Safe(c, s) && k in s.passes && PassEnabled(c, s, k, ev)
    requires ev.ReadCount? || ev.Answer?
    ensures Safe(c, PassNext(c, s, k, ev))
  {
    assert PassSafe(c, s, s.passes[k]);
    SafeSetPass(c, s, k, PassNext(c, s, k, ev).passes[k]);
  }

  /** What a status read says is dead is dead on the chain, and a missing id the
      code believes removed was removed. */
  lemma StatusReadSafe(c: Config, s: State, k: nat, ev: Event)
    requires Inv(c, s) && Safe(c, s) && k in s.passes && PassEnabled(c, s, k, ev)
    requires ev.ReadLast? || ev.ReadProposal?
    ensures Safe(c, PassNext(c, s, k, ev))
  {
    var phase := PassNext(c, s, k, ev).passes[k].phase;
    StatusReadPhase(c, s, k, ev);
    assert PassSafe(c, s, s.passes[k]);
    PhasedSafe(c, s, s.passes[k], phase);
    SafeSetPass(c, s, k, s.passes[k].(phase := phase));
  }

  lemma PhasedSafe(c: Config, s: State, pass: Pass, phase: Phase)
    requires PassSafe(c, s, pass)
    requires phase.Apply? && ProposalToPayout(phase.effective).reset ==>
               phase.id < |s.chain| && Shut(s.chain[phase.id].proposal, c.periodMs, s.now)
    ensures PassSafe(c, s, pass.(phase := phase))
  {
  }

  lemma StatusReadPhase(c: Config, s: State, k: nat, ev: Event)
    requires Inv(c, s) && k in s.passes && PassEnabled(c, s, k, ev)
    requires ev.ReadLast? || ev.ReadProposal?
    ensures var phase := PassNext(c, s, k, ev).passes[k].phase;
            phase.Apply? && ProposalToPayout(phase.effective).reset ==>
              phase.id < |s.chain| && Shut(s.chain[phase.id].proposal, c.periodMs, s.now)
  {
    var id := s.passes[k].phase.id;
    if ev.ReadLast? {
      GoneIsRemoved(c, s, k);
    } else if ReadsBack(s, id) {
      ResetMeansShut(s.chain[id].proposal, c.periodMs, s.now);
    }
  }

  lemma GoneIsRemoved(c: Config, s: State, k: nat)
    requires Inv(c, s) && k in s.passes && s.passes[k].phase.Gone?
    ensures s.passes[k].phase.id < |s.chain| && s.chain[s.passes[k].phase.id].proposal.status == ProposalStatus.Removed
  {
    assert PassOk(c, s, k, s.passes[k]);
  }

  lemma VerifyReadSafe(c: Config, s: State, k: nat)
    requires Inv(c, s) && Safe(c, s) && k in s.passes && PassEnabled(c, s, k, VerifyRead(k))
    ensures Safe(c, VerifyReadNext(s, k))
  {
    assert PassSafe(c, s, s.passes[k]);
    SafeSetPass(c, s, k, s.passes[k].(phase := Pin(s.passes[k].phase.sub, s.passes[k].phase.answer)));
    SafeEndPass(c, s, k);
  }

  lemma BeginSafe(c: Config, s: State, k: nat, p: nat, job: Job)
    requires Inv(c, s) && Safe(c, s) && k !in s.passes && p in s.rows && s.rows[p].status != PayoutStatus.Paid
    requires NoImpostor(BeginNext(s, k, p, job))
    ensures Safe(c, BeginNext(s, k, p, job))
  {
    var s' := BeginNext(s, k, p, job);
    var s1 := s.(requested := s'.requested);
    RequestSafe(c, s, s1);
    assert RowSafe(c, s1, p);
    SafeSetPass(c, s1, k, s'.passes[k]);
  }

  lemma RequestSafe(c: Config, s: State, s1: State)
    requires Inv(c, s) && Safe(c, s) && s1 == s.(requested := s1.requested) && s.requested <= s1.requested && NoImpostor(s1)
    ensures Safe(c, s1)
  {
    SameTables(s, s1);
    SteadyWhenTablesStay(c, s, s1);
    SafeQuiet(c, s, s1);
  }

  // ---- The environment ----

  lemma TickSafe(c: Config, s: State, now: int, chainNow: int)
    requires Inv(c, s) && Safe(c, s) && s.now <= now && s.chainNow <= chainNow && now <= chainNow + c.leadMs
    ensures Safe(c, s.(now := now, chainNow := chainNow))
  {
    var s' := s.(now := now, chainNow := chainNow);
    SameTables(s, s');
    SteadyWhenTablesStay(c, s, s');
    SafeQuiet(c, s, s');
  }

  lemma CreateSafe(c: Config, s: State, taskId: nat, who: nat)
    requires Inv(c, s) && Safe(c, s)
    ensures Safe(c, EnvNext(c, s, CreatePayout(taskId, who)))
  {
    var s' := EnvNext(c, s, CreatePayout(taskId, who));
    EnvStepGrows(c, s, CreatePayout(taskId, who));
    SteadyWhenTablesStay(c, s, s');
    IdsAreOld(c, s);
    SafeQuiet(c, s, s');
  }

  /** No row, and no claim, has the next row's id. */
  lemma IdsAreOld(c: Config, s: State)
    requires Inv(c, s)
    ensures forall p | p in s.rows || p in s.last :: p < s.nextRow
  {
    forall p | p in s.rows || p in s.last ensures p < s.nextRow {
      if p in s.rows {
        assert RowOk(s, p);
      } else {
        assert LastOk(s, p);
      }
    }
  }

  lemma LandSafe(c: Config, s: State, sub: nat, rounding: int)
    requires Inv(c, s) && Safe(c, s) && EnvEnabled(c, s, Land(sub, rounding))
    requires NoImpostor(EnvNext(c, s, Land(sub, rounding)))
    requires s.now <= s.subs[sub].claimedAt + c.landingMs && c.leadMs <= EXPIRY_GRACE_MS + rounding
    ensures Safe(c, EnvNext(c, s, Land(sub, rounding)))
  {
    var s' := EnvNext(c, s, Land(sub, rounding));
    LandSteady(c, s, sub, rounding);
    LandClocks(c, s, sub, rounding);
    SafeQuiet(c, s, s');
  }

  lemma LandClocks(c: Config, s: State, sub: nat, rounding: int)
    requires ClocksOk(c, s) && LandedInTime(c, s) && EnvEnabled(c, s, Land(sub, rounding))
    requires s.now <= s.subs[sub].claimedAt + c.landingMs && c.leadMs <= EXPIRY_GRACE_MS + rounding
    ensures ClocksOk(c, EnvNext(c, s, Land(sub, rounding))) && LandedInTime(c, EnvNext(c, s, Land(sub, rounding)))
  {
    var s' := EnvNext(c, s, Land(sub, rounding));
    assert forall q | 0 <= q < |s.chain| :: s'.chain[q] == s.chain[q];
    assert forall i | 0 <= i < |s.subs| :: s'.subs[i].claimedAt == s.subs[i].claimedAt;
  }

  lemma OutsiderSafe(c: Config, s: State, description: string, kind: Kind, rounding: int)
    requires Inv(c, s) && Safe(c, s) && c.leadMs <= EXPIRY_GRACE_MS + rounding
    requires NoImpostor(EnvNext(c, s, Outsider(description, kind, rounding)))
    ensures Safe(c, EnvNext(c, s, Outsider(description, kind, rounding)))
  {
    var s' := EnvNext(c, s, Outsider(description, kind, rounding));
    assert forall q | 0 <= q < |s.chain| :: s'.chain[q] == s.chain[q];
    OutsiderSteady(c, s, description, kind, rounding);
    SafeQuiet(c, s, s');
  }

  lemma CouncilSafe(c: Config, s: State, id: nat, status: ProposalStatus)
    requires Inv(c, s) && Safe(c, s) && EnvEnabled(c, s, Council(id, status))
    ensures Safe(c, EnvNext(c, s, Council(id, status)))
  {
    var s' := EnvNext(c, s, Council(id, status));
    CouncilSteady(c, s, id, status);
    SafeQuiet(c, s, s');
  }

  /** The erasure transaction's two backstops let a row go only when its newest
      claim is spent or has been executed as the one recorded payment. */
  lemma ErasedIsSettled(c: Config, s: State, who: nat, p: nat)
    requires Inv(c, s) && Safe(c, s) && EnvEnabled(c, s, Forget(who))
    requires p in s.rows && s.rows[p].contributorId == who && p in s.last
    ensures s.last[p] < |s.subs| && (Spent(c, s, s.last[p]) || PaidOut(s, s.last[p]))
  {
    assert RowOk(s, p) && RowSafe(c, s, p) && LastOk(s, p);
    if s.rows[p].status == PayoutStatus.Paid {
      var q := s.rows[p].proposalId.value;
      MatchIsOurs(c, s, q, p, s.rows[p].taskId, s.rows[p].claim.value);
    }
  }

  lemma ForgetSafe(c: Config, s: State, who: nat)
    requires Inv(c, s) && Safe(c, s) && EnvEnabled(c, s, Forget(who))
    ensures Safe(c, EnvNext(c, s, Forget(who)))
  {
    var s' := EnvNext(c, s, Forget(who));
    EnvStepGrows(c, s, Forget(who));
    SteadyWhenTablesStay(c, s, s');
    forall p | p in s.rows && p !in s'.rows && p in s.last ensures GoneSafe(c, s', p) {
      ErasedIsSettled(c, s, who, p);
    }
    SafeQuiet(c, s, s');
  }

  lemma EnvStepSafe(c: Config, s: State, ev: Event)
    requires Inv(c, s) && Safe(c, s) && IsEnv(ev) && Enabled(c, s, ev) && Assumed(c, s, ev)
    ensures Safe(c, EnvNext(c, s, ev))
  {
    match ev
    case Tick(now, chainNow) => TickSafe(c, s, now, chainNow);
    case CreatePayout(taskId, who) => CreateSafe(c, s, taskId, who);
    case Land(i, rounding) => LandSafe(c, s, i, rounding);
    case Drop(i) => SubStateSafe(c, s, i, Dropped);
    case Outsider(description, kind, rounding) => OutsiderSafe(c, s, description, kind, rounding);
    case Council(id, status) => CouncilSafe(c, s, id, status);
    case Forget(who) => ForgetSafe(c, s, who);
  }

  lemma ReconcileStepSafe(c: Config, s: State, k: nat, ev: Event)
    requires Inv(c, s) && Safe(c, s) && BoundsOk(c) && Enabled(c, s, ev) && Assumed(c, s, ev)
    requires (ev.Adopt? || ev.Expire?) && ev.pass == k
    ensures Safe(c, PassNext(c, s, k, ev))
  {
    if ev.Adopt? {
      AdoptSafe(c, s, k);
    } else {
      ExpireSafe(c, s, k);
    }
  }

  lemma PinStepSafe(c: Config, s: State, k: nat, ev: Event)
    requires Inv(c, s) && Safe(c, s) && BoundsOk(c) && Enabled(c, s, ev) && Assumed(c, s, ev)
    requires (ev.PinLive? || ev.PinAnswer?) && ev.pass == k
    ensures Safe(c, PassNext(c, s, k, ev))
  {
    if ev.PinLive? {
      PinLiveStepSafe(c, s, k);
    } else {
      PinAnswerSafe(c, s, k);
    }
  }

  lemma SettleStepSafe(c: Config, s: State, k: nat, ev: Event)
    requires Inv(c, s) && Safe(c, s) && k in s.passes && PassEnabled(c, s, k, ev)
    requires ev.Heal? || ev.ApplySettle?
    ensures Safe(c, PassNext(c, s, k, ev))
  {
    match ev
    case Heal(_) => HealSafe(c, s, k);
    case ApplySettle(_) => ApplySettleSafe(c, s, k);
  }

  lemma RestStopSafe(c: Config, s: State, k: nat, ev: Event)
    requires Inv(c, s) && Safe(c, s) && k in s.passes && PassEnabled(c, s, k, ev)
    requires ev.Rest? || ev.Stop?
    ensures Safe(c, PassNext(c, s, k, ev))
  {
    match ev
    case Rest(_) => SafeAfterReconcile(c, s, k, PayoutStatus.Pending);
    case Stop(_) => SafeEndPass(c, s, k);
  }

  /** Every step that meets the assumptions keeps the money safe. */
  lemma StepSafe(c: Config, s: State, ev: Event)
    requires Inv(c, s) && Safe(c, s) && BoundsOk(c)
    requires Enabled(c, s, ev) && Assumed(c, s, ev) && NoClaimOverUnresolved(c, s, ev)
    ensures Safe(c, Next(c, s, ev))
  {
    if IsEnv(ev) {
      EnvStepSafe(c, s, ev);
    } else if ev.Begin? {
      BeginSafe(c, s, ev.pass, ev.payout, ev.job);
    } else if ev.Adopt? || ev.Expire? {
      ReconcileStepSafe(c, s, ev.pass, ev);
    } else if ev.PinLive? || ev.PinAnswer? {
      PinStepSafe(c, s, ev.pass, ev);
    } else if ev.ClaimRow? {
      ClaimSafe(c, s, ev.pass);
    } else if ev.Heal? || ev.ApplySettle? {
      SettleStepSafe(c, s, ev.pass, ev);
    } else {
      QuietStepSafe(c, s, ev.pass, ev);
    }
  }

  lemma WindowStepSafe(c: Config, s: State, k: nat, ev: Event)
    requires Inv(c, s) && Safe(c, s) && k in s.passes && PassEnabled(c, s, k, ev)
    requires ev.ReadPage? || ev.VerifyRead?
    ensures Safe(c, PassNext(c, s, k, ev))
  {
    match ev
    case ReadPage(_) => ReadPageSafe(c, s, k);
    case VerifyRead(_) => VerifyReadSafe(c, s, k);
  }

  /** The steps that write no row need no assumption. */
  lemma QuietStepSafe(c: Config, s: State, k: nat, ev: Event)
    requires Inv(c, s) && Safe(c, s) && k in s.passes && PassEnabled(c, s, k, ev)
    requires !(ev.Adopt? || ev.Expire? || ev.PinLive? || ev.PinAnswer? || ev.ClaimRow? || ev.Heal? || ev.ApplySettle?)
    ensures Safe(c, PassNext(c, s, k, ev))
  {
    if ev.Submit? {
      SubmitSafe(c, s, k);
    } else if ev.ReadPage? || ev.VerifyRead? {
      WindowStepSafe(c, s, k, ev);
    } else if ev.Rest? || ev.Stop? {
      RestStopSafe(c, s, k, ev);
    } else if ev.ReadLast? || ev.ReadProposal? {
      StatusReadSafe(c, s, k, ev);
    } else {
      ReadStepSafe(c, s, k, ev);
    }
  }
}
