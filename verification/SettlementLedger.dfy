// What every step of the settlement protocol keeps, with no assumption about
// timing, about outsiders or about the gateway.
module SettlementLedger {
  import opened Wrappers
  import opened Dao
  import opened Payouts
  import opened Settlement

  // ---- The invariant ----

  ghost predicate EntryOk(s: State, q: nat)
    requires q < |s.chain|
  {
    var e := s.chain[q];
    && e.proposal.id == q && e.landedAt <= s.now
    && (e.origin.Some? ==>
          && e.origin.value < |s.subs|
          && var u := s.subs[e.origin.value];
             u.state == Landed(q) && MatchesPayoutTransfer(e.proposal, SubDesc(u), u.claim))
  }

  ghost predicate SubOk(s: State, i: nat)
    requires i < |s.subs|
  {
    var u := s.subs[i];
    && u.payout < s.nextRow && u.payout in s.last && i <= s.last[u.payout]
    && u.claimedAt <= s.now && u.resetsBefore <= Resets(s, u.payout)
    && Request(u.payout, u.taskId, u.claim) in s.requested
    && (u.state.Landed? ==> u.state.id < |s.chain| && s.chain[u.state.id].origin == Some(i))
    && (u.payout in s.rows ==> s.rows[u.payout].taskId == u.taskId)
  }

  ghost predicate LastOk(s: State, p: nat)
    requires p in s.last
  {
    p < s.nextRow && s.last[p] < |s.subs| && s.subs[s.last[p]].payout == p
  }

  /** Two claims of one payout are always separated by a reset of its row. */
  ghost predicate ClaimsSerial(s: State) {
    forall i, j | 0 <= i < j < |s.subs| && s.subs[i].payout == s.subs[j].payout ::
      s.subs[i].resetsBefore < s.subs[j].resetsBefore
  }

  ghost predicate RowShape(s: State, p: nat, r: Payout) {
    && r.updatedAt <= s.now
    && (r.status == PayoutStatus.Pending ==> r.proposalId.None?)
    && (r.status == PayoutStatus.Proposed ==> r.claim.Some?)
    && (r.status == PayoutStatus.Paid ==> r.proposalId.Some?)
    && (r.claim.Some? ==> Request(p, r.taskId, r.claim.value) in s.requested)
    && (r.proposalId.Some? ==>
          && r.claim.Some? && r.proposalId.value < |s.chain|
          && MatchesPayoutTransfer(s.chain[r.proposalId.value].proposal, Desc(p, r), r.claim.value))
    && (r.status == PayoutStatus.Paid ==>
          s.chain[r.proposalId.value].proposal.status == ProposalStatus.Approved)
  }

  /** How a row relates to the newest claim made for it. */
  ghost predicate RowClaim(s: State, p: nat, r: Payout) {
    && (r.proposalId.None? && r.claim.Some? ==> p in s.last)
    && (p in s.last && s.last[p] < |s.subs| ==>
          var u := s.subs[s.last[p]];
          && (r.status == PayoutStatus.Pending ==> u.resetsBefore < Resets(s, p))
          && (r.status == PayoutStatus.Proposed && r.proposalId.None? ==>
                u.resetsBefore == Resets(s, p) && r.claim == Some(u.claim) && r.updatedAt == u.claimedAt)
          && (r.status == PayoutStatus.Pending && r.claim.Some? ==>
                r.claim == Some(u.claim) && r.updatedAt > u.claimedAt + ABANDONED_CLAIM_GRACE_MS))
  }

  ghost predicate RowOk(s: State, p: nat)
    requires p in s.rows
  {
    p < s.nextRow && RowShape(s, p, s.rows[p]) && RowClaim(s, p, s.rows[p])
  }

  /** The paid notice went out exactly once for a paid row, never for another. */
  ghost predicate NoticesOk(s: State) {
    && (forall p | p in s.rows :: multiset(s.paidNotices)[p] == if s.rows[p].status == PayoutStatus.Paid then 1 else 0)
    && (forall p: nat :: multiset(s.paidNotices)[p] <= 1)
    && (forall p | p in s.paidNotices :: p < s.nextRow)
  }

  /** `later` is the same proposal at a later moment. */
  ghost predicate SameProposal(a: Proposal, b: Proposal) {
    a.(status := b.status) == b
  }

  ghost predicate WindowOk(s: State, pass: Pass, w: Window) {
    && pass.counted.Some? && pass.counted.value <= |s.chain| && w.from + |w.page| == pass.counted.value
    && (forall i | 0 <= i < |w.page| :: SameProposal(w.page[i], s.chain[w.from + i].proposal))
    && pass.countedAt <= w.at <= s.now
    && pass.subs0 <= w.submissions <= |s.subs|
    && (w.lastClaim.Some? ==> w.lastClaim.value < w.submissions)
    && (w.lastClaim == pass.last0 || (w.lastClaim.Some? && w.lastClaim.value >= pass.subs0))
    && (Last(s, pass.payout) == w.lastClaim || (pass.payout in s.last && s.last[pass.payout] >= w.submissions))
  }

  /** How the row may have moved since the pass read it. */
  ghost predicate FrameOk(s: State, pass: Pass) {
    var p := pass.payout;
    && (p in s.rows ==>
          var r := s.rows[p];
          && r.taskId == pass.seen.taskId
          && (r == pass.seen || r.updatedAt >= pass.begun)
          && (r.status == PayoutStatus.Pending && Resets(s, p) == pass.resets0 ==> r == pass.seen && !pass.adopted))
    && (Last(s, p) == pass.last0 || (p in s.last && s.last[p] >= pass.subs0))
    && (forall v | pass.subs0 <= v < |s.subs| && s.subs[v].payout == p ::
          && s.subs[v].claimedAt >= pass.begun && s.subs[v].resetsBefore >= pass.resets0
          && (s.subs[v].resetsBefore == pass.resets0 ==> pass.seen.status == PayoutStatus.Pending))
  }

  ghost predicate SeenOk(s: State, pass: Pass) {
    var p, seen := pass.payout, pass.seen;
    && p < s.nextRow && pass.begun <= s.now && pass.resets0 <= Resets(s, p) && pass.subs0 <= |s.subs|
    && seen.status != PayoutStatus.Paid && seen.updatedAt <= s.now
    && (seen.status == PayoutStatus.Pending ==> seen.proposalId.None?)
    && (seen.proposalId.Some? ==> seen.proposalId.value < |s.chain|)
    && (seen.claim.Some? ==> Request(p, seen.taskId, seen.claim.value) in s.requested)
    && (pass.job.Propose? ==> Request(p, seen.taskId, pass.job.request) in s.requested)
    && (pass.last0.Some? ==>
          && pass.last0.value < pass.subs0 && s.subs[pass.last0.value].payout == p
          && s.subs[pass.last0.value].resetsBefore <= pass.resets0)
    && (seen.status == PayoutStatus.Pending && seen.claim.Some? ==>
          pass.last0.Some? && s.subs[pass.last0.value].claim == seen.claim.value)
    && (pass.counted.Some? ==>
          && pass.counted.value <= |s.chain| && pass.begun <= pass.countedAt <= s.now
          && forall q | pass.counted.value <= q < |s.chain| :: s.chain[q].landedAt >= pass.countedAt)
  }

  ghost predicate OwnClaim(s: State, k: nat, pass: Pass, i: nat) {
    && pass.job.Propose? && i < |s.subs| && pass.subs0 == i + 1
    && var u := s.subs[i];
       u.payout == pass.payout && u.taskId == pass.seen.taskId && u.claim == pass.job.request && u.owner == k
       && u.resetsBefore == pass.resets0
  }

  /** A /pay that saw a remembered claim scans on only if the window shows nothing
      of that claim, or the row was reset since. */
  ghost predicate ScanReady(c: Config, s: State, pass: Pass) {
    pass.seen.status == PayoutStatus.Pending && pass.seen.claim.Some? ==>
      && pass.window.Some?
      && (Found(c, pass, pass.seen.claim.value, false).Some? && pass.payout in s.rows ==>
            Resets(s, pass.payout) > pass.resets0)
  }

  ghost predicate PhaseOk(c: Config, s: State, k: nat, pass: Pass) {
    match pass.phase
    case Recon => pass.seen.proposalId.None? && !pass.adopted
    case Settle(q) => (pass.adopted || pass.seen.proposalId.Some?) && q < |s.chain|
    case Gone(q) =>
      (pass.adopted || pass.seen.proposalId.Some?) && q < |s.chain| && s.chain[q].proposal.status == ProposalStatus.Removed
    case Apply(q, effective) =>
      && (pass.adopted || pass.seen.proposalId.Some?) && q < |s.chain|
      && (effective == EffectiveStatus.Executed ==> s.chain[q].proposal.status == ProposalStatus.Approved)
    case Scan => pass.job.Propose? && ScanReady(c, s, pass)
    case Claimed(i) => OwnClaim(s, k, pass, i)
    case Submitted(i) => OwnClaim(s, k, pass, i)
    case Verify(i, _) => OwnClaim(s, k, pass, i)
    case Pin(i, q) =>
      && OwnClaim(s, k, pass, i) && q < |s.chain|
      && MatchesPayoutTransfer(s.chain[q].proposal, Desc(pass.payout, pass.seen), pass.job.request)
  }

  ghost predicate PassOk(c: Config, s: State, k: nat, pass: Pass) {
    && SeenOk(s, pass) && FrameOk(s, pass)
    && (pass.window.Some? ==> WindowOk(s, pass, pass.window.value))
    && (pass.adopted ==> pass.window.Some?)
    && PhaseOk(c, s, k, pass)
  }

  ghost predicate TablesOk(s: State) {
    && (forall q | 0 <= q < |s.chain| :: EntryOk(s, q))
    && (forall i | 0 <= i < |s.subs| :: SubOk(s, i))
    && (forall p | p in s.last :: LastOk(s, p))
    && (forall p | p in s.rows :: RowOk(s, p))
    && ClaimsSerial(s)
    && NoticesOk(s)
  }

  ghost predicate PassesOk(c: Config, s: State) {
    forall k | k in s.passes :: PassOk(c, s, k, s.passes[k])
  }

  ghost predicate Inv(c: Config, s: State) {
    TablesOk(s) && PassesOk(c, s)
  }

  // ---- What time only adds to ----

  ghost predicate Grown(s: State, s': State) {
    && s.now <= s'.now && s.nextRow <= s'.nextRow && s.requested <= s'.requested
    && |s.chain| <= |s'.chain| && |s.subs| <= |s'.subs|
    && (forall q | 0 <= q < |s.chain| :: EntryGrown(s.chain[q], s'.chain[q]))
    && (forall q | |s.chain| <= q < |s'.chain| :: s'.chain[q].landedAt == s.now)
    && (forall i | 0 <= i < |s.subs| :: s'.subs[i] == s.subs[i].(state := s'.subs[i].state))
    && (forall p: nat :: Resets(s, p) <= Resets(s', p))
    && (forall p: nat :: Last(s', p) == Last(s, p) || (p in s'.last && s'.last[p] >= |s.subs|))
  }

  ghost predicate EntryGrown(e: Entry, e': Entry) {
    && SameProposal(e.proposal, e'.proposal) && e'.origin == e.origin && e'.landedAt == e.landedAt
    && (e.proposal.status in {ProposalStatus.Removed, ProposalStatus.Approved} ==> e'.proposal.status == e.proposal.status)
  }

  /** What a step may do to one row, its reset count and its claims. */
  ghost predicate RowMoved(s: State, s': State, p: nat) {
    && (p in s'.rows ==>
          && p in s.rows && s'.rows[p].taskId == s.rows[p].taskId
          && ((s'.rows[p] == s.rows[p] && Resets(s', p) == Resets(s, p))
              || (s'.rows[p].updatedAt == s'.now
                  && (s'.rows[p].status == PayoutStatus.Pending ==> Resets(s', p) > Resets(s, p)))))
    && (forall v | |s.subs| <= v < |s'.subs| && s'.subs[v].payout == p ::
          && s'.subs[v].claimedAt == s.now && s'.subs[v].resetsBefore == Resets(s, p)
          && p in s.rows && s.rows[p].status == PayoutStatus.Pending)
  }

  lemma PassCarriesOver(c: Config, s: State, s': State, k: nat, pass: Pass)
    requires PassOk(c, s, k, pass) && Grown(s, s') && RowMoved(s, s', pass.payout)
    ensures PassOk(c, s', k, pass)
  {
    assert SeenOk(s', pass);
    FrameCarriesOver(c, s, s', k, pass);
    if pass.window.Some? {
      assert WindowOk(s', pass, pass.window.value);
    }
  }

  lemma FrameCarriesOver(c: Config, s: State, s': State, k: nat, pass: Pass)
    requires PassOk(c, s, k, pass) && Grown(s, s') && RowMoved(s, s', pass.payout)
    ensures FrameOk(s', pass)
  {
    var p := pass.payout;
    assert Resets(s, p) <= Resets(s', p);
    forall v | pass.subs0 <= v < |s'.subs| && s'.subs[v].payout == p
      ensures && s'.subs[v].claimedAt >= pass.begun && s'.subs[v].resetsBefore >= pass.resets0
              && (s'.subs[v].resetsBefore == pass.resets0 ==> pass.seen.status == PayoutStatus.Pending)
    {
      if v < |s.subs| {
        assert s'.subs[v] == s.subs[v].(state := s'.subs[v].state);
      }
    }
  }

  // ---- Steps on one pass ----

  lemma SetPassKeeps(c: Config, s: State, k: nat, pass: Pass)
    requires Inv(c, s) && PassOk(c, s, k, pass)
    ensures Inv(c, SetPass(s, k, pass))
  {
    var s' := SetPass(s, k, pass);
    TablesIgnorePasses(s, s');
    forall j | j in s'.passes ensures PassOk(c, s', j, s'.passes[j]) {
      PassIgnoresPasses(c, s, s', j, s'.passes[j]);
    }
  }

  lemma EndPassKeeps(c: Config, s: State, k: nat)
    requires Inv(c, s)
    ensures Inv(c, EndPass(s, k))
  {
    var s' := EndPass(s, k);
    TablesIgnorePasses(s, s');
    forall j | j in s'.passes ensures PassOk(c, s', j, s'.passes[j]) {
      PassIgnoresPasses(c, s, s', j, s'.passes[j]);
    }
  }

  lemma TablesIgnorePasses(s: State, s': State)
    requires TablesOk(s) && s' == s.(passes := s'.passes)
    ensures TablesOk(s')
  {
    assert forall q | 0 <= q < |s.chain| :: EntryOk(s, q) ==> EntryOk(s', q);
    assert forall i | 0 <= i < |s.subs| :: SubOk(s, i) ==> SubOk(s', i);
    assert forall p | p in s.last :: LastOk(s, p) ==> LastOk(s', p);
    assert forall p | p in s.rows :: RowOk(s, p) ==> RowOk(s', p);
  }

  lemma PassIgnoresPasses(c: Config, s: State, s': State, k: nat, pass: Pass)
    requires PassOk(c, s, k, pass) && s' == s.(passes := s'.passes)
    ensures PassOk(c, s', k, pass)
  {
  }

  /** A step that leaves the passes alone keeps the invariant once the tables do. */
  lemma TableStepKeeps(c: Config, s: State, s': State)
    requires Inv(c, s) && s'.passes == s.passes && TablesOk(s') && Grown(s, s')
    requires forall p: nat :: RowMoved(s, s', p)
    ensures Inv(c, s')
  {
    forall k | k in s'.passes ensures PassOk(c, s', k, s'.passes[k]) {
      PassCarriesOver(c, s, s', k, s.passes[k]);
    }
  }

  // ---- Locked writes of one row ----

  /** `row` replaces the row of `p`; the reset count may go up by one. */
  ghost predicate RowWrite(s: State, s': State, p: nat, row: Payout) {
    && p in s.rows && row.taskId == s.rows[p].taskId && row.updatedAt == s.now
    && s' == s.(rows := s.rows[p := row], resets := s'.resets, paidNotices := s'.paidNotices)
    && (forall q: nat | q != p :: Resets(s', q) == Resets(s, q))
    && Resets(s', p) == Resets(s, p) + (if row.status == PayoutStatus.Pending then 1 else 0)
    && s'.paidNotices == s.paidNotices + (if row.status == PayoutStatus.Paid then [p] else [])
    && s.rows[p].status != PayoutStatus.Paid
  }

  lemma RowWriteKeeps(c: Config, s: State, s': State, p: nat, row: Payout)
    requires Inv(c, s) && RowWrite(s, s', p, row) && RowShape(s, p, row)
    requires RowClaim(s', p, row)
    ensures Inv(c, s') && Grown(s, s')
  {
    RowWriteTables(c, s, s', p, row);
    forall q: nat ensures RowMoved(s, s', q) {
    }
    TableStepKeeps(c, s, s');
  }

  lemma RowWriteTables(c: Config, s: State, s': State, p: nat, row: Payout)
    requires Inv(c, s) && RowWrite(s, s', p, row) && RowShape(s, p, row)
    requires RowClaim(s', p, row)
    ensures TablesOk(s') && Grown(s, s')
  {
    RowWriteGrows(s, s', p, row);
    assert RowOk(s, p);
    forall q | 0 <= q < |s'.chain| ensures EntryOk(s', q) {
      assert EntryOk(s, q);
    }
    forall i | 0 <= i < |s'.subs| ensures SubOk(s', i) {
      SubAfterWrite(s, s', p, row, i);
    }
    forall q | q in s'.last ensures LastOk(s', q) {
      assert LastOk(s, q);
    }
    forall q | q in s'.rows ensures RowOk(s', q) {
    }
    NoticesAfterWrite(s, s', p, row);
  }

  lemma RowWriteGrows(s: State, s': State, p: nat, row: Payout)
    requires RowWrite(s, s', p, row)
    ensures Grown(s, s')
  {
  }

  lemma SubAfterWrite(s: State, s': State, p: nat, row: Payout, i: nat)
    requires RowWrite(s, s', p, row) && i < |s.subs| && SubOk(s, i)
    ensures SubOk(s', i)
  {
  }

  lemma NoticesAfterWrite(s: State, s': State, p: nat, row: Payout)
    requires NoticesOk(s) && RowWrite(s, s', p, row) && p < s.nextRow
    ensures NoticesOk(s')
  {
    var extra: seq<nat> := if row.status == PayoutStatus.Paid then [p] else [];
    assert multiset(s'.paidNotices) == multiset(s.paidNotices) + multiset(extra);
    assert forall q: nat :: multiset(extra)[q] == if q == p && row.status == PayoutStatus.Paid then 1 else 0;
    forall q: nat ensures multiset(s'.paidNotices)[q] <= 1 {
      assert multiset(s.paidNotices)[q] <= 1;
      assert multiset(s.paidNotices)[p] == 0;
    }
    forall q | q in s'.rows
      ensures multiset(s'.paidNotices)[q] == if s'.rows[q].status == PayoutStatus.Paid then 1 else 0
    {
      assert q in s.rows;
    }
  }

  /** Pinning a proposal that carries the row's identity. */
  lemma PinKeeps(c: Config, s: State, p: nat, q: nat, claim: Claim)
    requires Inv(c, s) && p in s.rows && s.rows[p].status != PayoutStatus.Paid
    requires q < |s.chain| && MatchesPayoutTransfer(s.chain[q].proposal, Desc(p, s.rows[p]), claim)
    requires Request(p, s.rows[p].taskId, claim) in s.requested
    ensures Inv(c, WriteRow(s, p, MarkProposed(s.rows[p], Some(q), claim, s.now)))
    ensures Grown(s, WriteRow(s, p, MarkProposed(s.rows[p], Some(q), claim, s.now)))
  {
    var row := MarkProposed(s.rows[p], Some(q), claim, s.now);
    RowWriteKeeps(c, s, WriteRow(s, p, row), p, row);
  }

  lemma ResetKeeps(c: Config, s: State, p: nat, row: Payout)
    requires Inv(c, s) && p in s.rows && s.rows[p].status != PayoutStatus.Paid
    requires row.taskId == s.rows[p].taskId && row.updatedAt == s.now && row.status == PayoutStatus.Pending && row.proposalId.None?
    requires row.claim.Some? ==> HealGuard(s.rows[p], s.now) && row.claim == s.rows[p].claim
    ensures Inv(c, WriteReset(s, p, row)) && Grown(s, WriteReset(s, p, row))
  {
    assert RowOk(s, p);
    if p in s.last {
      assert LastOk(s, p);
      assert SubOk(s, s.last[p]);
    }
    RowWriteKeeps(c, s, WriteReset(s, p, row), p, row);
  }

  lemma PaidKeeps(c: Config, s: State, p: nat)
    requires Inv(c, s) && p in s.rows && s.rows[p].status == PayoutStatus.Proposed && s.rows[p].proposalId.Some?
    requires s.rows[p].proposalId.value < |s.chain|
    requires s.chain[s.rows[p].proposalId.value].proposal.status == ProposalStatus.Approved
    ensures Inv(c, WriteRow(s, p, MarkPaid(s.rows[p], s.now)).(paidNotices := s.paidNotices + [p]))
    ensures Grown(s, WriteRow(s, p, MarkPaid(s.rows[p], s.now)).(paidNotices := s.paidNotices + [p]))
  {
    assert RowOk(s, p);
    var row := MarkPaid(s.rows[p], s.now);
    RowWriteKeeps(c, s, WriteRow(s, p, row).(paidNotices := s.paidNotices + [p]), p, row);
  }

  // ---- Steps of a pass ----

  lemma AfterReconcileKeeps(c: Config, s: State, k: nat, status: PayoutStatus)
    requires Inv(c, s) && k in s.passes
    requires s.passes[k].job.Propose? && status == PayoutStatus.Pending ==> ScanReady(c, s, s.passes[k])
    ensures Inv(c, AfterReconcile(s, k, status))
  {
    assert PassOk(c, s, k, s.passes[k]);
    if s.passes[k].job.Propose? && status == PayoutStatus.Pending {
      SetPassKeeps(c, s, k, s.passes[k].(phase := Scan));
    } else {
      EndPassKeeps(c, s, k);
    }
  }

  /** A lost compare-and-set that finds the row pending finds it reset since the
      pass read it, or exactly as the pass read it. */
  lemma LostRaceReady(c: Config, s: State, k: nat)
    requires Inv(c, s) && k in s.passes && s.passes[k].payout in s.rows
    requires s.rows[s.passes[k].payout].status == PayoutStatus.Pending
    ensures Resets(s, s.passes[k].payout) > s.passes[k].resets0
         || (s.rows[s.passes[k].payout] == s.passes[k].seen && !s.passes[k].adopted)
  {
    assert PassOk(c, s, k, s.passes[k]);
  }

  lemma FoundIsOnChain(c: Config, s: State, k: nat, claim: Claim, liveOnly: bool) returns (i: nat)
    requires Inv(c, s) && k in s.passes && s.passes[k].window.Some?
    requires Found(c, s.passes[k], claim, liveOnly).Some?
    ensures var w := s.passes[k].window.value;
            && i < |w.page| && w.from + i < |s.chain| && w.page[i] == Found(c, s.passes[k], claim, liveOnly).value
            && w.page[i].id == w.from + i
            && Eligible(w.page[i], Desc(s.passes[k].payout, s.passes[k].seen), claim, liveOnly, c.periodMs, w.at)
            && MatchesPayoutTransfer(s.chain[w.from + i].proposal, Desc(s.passes[k].payout, s.passes[k].seen), claim)
  {
    i := FoundOnPage(c, s.passes[k], claim, liveOnly);
    PageIsOnChain(c, s, k, i);
  }

  lemma FoundOnPage(c: Config, pass: Pass, claim: Claim, liveOnly: bool) returns (i: nat)
    requires pass.window.Some? && Found(c, pass, claim, liveOnly).Some?
    ensures var w := pass.window.value;
            && i < |w.page| && w.page[i] == Found(c, pass, claim, liveOnly).value
            && Eligible(w.page[i], Desc(pass.payout, pass.seen), claim, liveOnly, c.periodMs, w.at)
  {
    var w := pass.window.value;
    i :| && 0 <= i < |w.page| && w.page[i] == Found(c, pass, claim, liveOnly).value
         && Eligible(w.page[i], Desc(pass.payout, pass.seen), claim, liveOnly, c.periodMs, w.at);
  }

  lemma PageIsOnChain(c: Config, s: State, k: nat, i: nat)
    requires Inv(c, s) && k in s.passes && s.passes[k].window.Some? && i < |s.passes[k].window.value.page|
    ensures var w := s.passes[k].window.value;
            w.from + i < |s.chain| && w.page[i].id == w.from + i && SameProposal(w.page[i], s.chain[w.from + i].proposal)
  {
    assert PassOk(c, s, k, s.passes[k]);
    assert EntryOk(s, s.passes[k].window.value.from + i);
  }

  lemma AdoptKeeps(c: Config, s: State, k: nat)
    requires Inv(c, s) && k in s.passes && PassEnabled(c, s, k, Adopt(k))
    ensures Inv(c, AdoptNext(c, s, k))
  {
    var pass := s.passes[k];
    var p := pass.payout;
    if p !in s.rows {
      EndPassKeeps(c, s, k);
    } else if !AdoptGuard(s.rows[p], pass.seen) {
      AdoptLosesKeeps(c, s, k);
    } else {
      assert PassOk(c, s, k, pass);
      var i := FoundIsOnChain(c, s, k, pass.seen.claim.value, false);
      AdoptedKeeps(c, s, k, pass.window.value.page[i].id);
    }
  }

  lemma AdoptLosesKeeps(c: Config, s: State, k: nat)
    requires Inv(c, s) && k in s.passes && PassEnabled(c, s, k, Adopt(k))
    requires s.passes[k].payout in s.rows && !AdoptGuard(s.rows[s.passes[k].payout], s.passes[k].seen)
    ensures Inv(c, AfterReconcile(s, k, s.rows[s.passes[k].payout].status))
  {
    var p := s.passes[k].payout;
    assert PassOk(c, s, k, s.passes[k]);
    if s.rows[p].status == PayoutStatus.Pending {
      LostRaceReady(c, s, k);
    }
    AfterReconcileKeeps(c, s, k, s.rows[p].status);
  }

  lemma AdoptedKeeps(c: Config, s: State, k: nat, id: nat)
    requires Inv(c, s) && k in s.passes && s.passes[k].payout in s.rows && s.passes[k].seen.claim.Some?
    requires s.rows[s.passes[k].payout].status != PayoutStatus.Paid && s.passes[k].window.Some?
    requires id < |s.chain|
    requires MatchesPayoutTransfer(s.chain[id].proposal, Desc(s.passes[k].payout, s.passes[k].seen), s.passes[k].seen.claim.value)
    ensures var pass := s.passes[k];
            var s1 := WriteRow(s, pass.payout, MarkProposed(s.rows[pass.payout], Some(id), pass.seen.claim.value, s.now));
            Inv(c, SetPass(s1, k, pass.(phase := Settle(id), adopted := true)))
  {
    var pass := s.passes[k];
    var p := pass.payout;
    assert PassOk(c, s, k, pass);
    PinKeeps(c, s, p, id, pass.seen.claim.value);
    var s1 := WriteRow(s, p, MarkProposed(s.rows[p], Some(id), pass.seen.claim.value, s.now));
    AdoptingPassOk(c, s1, k, pass, id);
    SetPassKeeps(c, s1, k, pass.(phase := Settle(id), adopted := true));
  }

  lemma AdoptingPassOk(c: Config, s: State, k: nat, pass: Pass, id: nat)
    requires Inv(c, s) && k in s.passes && s.passes[k] == pass && pass.payout in s.rows && pass.window.Some?
    requires s.rows[pass.payout].status != PayoutStatus.Pending && id < |s.chain|
    ensures PassOk(c, s, k, pass.(phase := Settle(id), adopted := true))
  {
    assert PassOk(c, s, k, pass);
  }

  lemma ExpireKeeps(c: Config, s: State, k: nat)
    requires Inv(c, s) && k in s.passes && PassEnabled(c, s, k, Expire(k))
    ensures Inv(c, ExpireNext(s, k))
  {
    var pass := s.passes[k];
    var p := pass.payout;
    if p !in s.rows {
      EndPassKeeps(c, s, k);
    } else if !ExpireGuard(s.rows[p], pass.seen, s.now) {
      AfterReconcileKeeps(c, s, k, s.rows[p].status);
    } else {
      var row := ResetToPending(s.rows[p], s.rows[p].attention, false, s.now);
      ResetKeeps(c, s, p, row);
      AfterReconcileKeeps(c, WriteReset(s, p, row), k, PayoutStatus.Pending);
    }
  }

  lemma HealKeeps(c: Config, s: State, k: nat)
    requires Inv(c, s) && k in s.passes && PassEnabled(c, s, k, Heal(k))
    ensures Inv(c, HealNext(s, k))
  {
    var pass := s.passes[k];
    var p := pass.payout;
    if p !in s.rows {
      EndPassKeeps(c, s, k);
    } else if !HealGuard(s.rows[p], s.now) {
      AfterReconcileKeeps(c, s, k, s.rows[p].status);
    } else {
      var row := ResetToPending(s.rows[p], false, true, s.now);
      ResetKeeps(c, s, p, row);
      AfterReconcileKeeps(c, WriteReset(s, p, row), k, PayoutStatus.Pending);
    }
  }

  lemma ReadProposalKeeps(c: Config, s: State, k: nat)
    requires Inv(c, s) && k in s.passes && s.passes[k].phase.Settle?
    ensures Inv(c, ReadProposalNext(c, s, k))
  {
    var id := s.passes[k].phase.id;
    assert PassOk(c, s, k, s.passes[k]);
    var next := if ReadsBack(s, id) then Apply(id, EffectiveProposalStatus(s.chain[id].proposal, c.periodMs, s.now)) else Gone(id);
    SetPassKeeps(c, s, k, s.passes[k].(phase := next));
  }

  lemma ApplySettleKeeps(c: Config, s: State, k: nat)
    requires Inv(c, s) && k in s.passes && s.passes[k].phase.Apply?
    ensures Inv(c, ApplySettleNext(s, k))
  {
    var pass := s.passes[k];
    var p := pass.payout;
    var mapped := ProposalToPayout(pass.phase.effective);
    var rowStatus := if pass.adopted then PayoutStatus.Proposed else pass.seen.status;
    if !mapped.reset && mapped.status == rowStatus {
      assert PassOk(c, s, k, pass);
      AfterReconcileKeeps(c, s, k, mapped.status);
    } else if p !in s.rows {
      EndPassKeeps(c, s, k);
    } else if !SettleGuard(s.rows[p], pass.phase.id) {
      SettleLosesKeeps(c, s, k);
    } else if mapped.reset {
      SettledByReset(c, s, k);
    } else {
      SettledByPayment(c, s, k);
    }
  }

  lemma SettleLosesKeeps(c: Config, s: State, k: nat)
    requires Inv(c, s) && k in s.passes && s.passes[k].phase.Apply?
    requires s.passes[k].payout in s.rows && !SettleGuard(s.rows[s.passes[k].payout], s.passes[k].phase.id)
    ensures Inv(c, AfterReconcile(s, k, s.rows[s.passes[k].payout].status))
  {
    var p := s.passes[k].payout;
    assert PassOk(c, s, k, s.passes[k]);
    if s.rows[p].status == PayoutStatus.Pending {
      LostRaceReady(c, s, k);
    }
    AfterReconcileKeeps(c, s, k, s.rows[p].status);
  }

  lemma SettledByPayment(c: Config, s: State, k: nat)
    requires Inv(c, s) && k in s.passes && s.passes[k].phase.Apply? && s.passes[k].payout in s.rows
    requires SettleGuard(s.rows[s.passes[k].payout], s.passes[k].phase.id)
    requires s.passes[k].phase.effective == EffectiveStatus.Executed
    ensures var p := s.passes[k].payout;
            Inv(c, AfterReconcile(WriteRow(s, p, MarkPaid(s.rows[p], s.now)).(paidNotices := s.paidNotices + [p]), k, PayoutStatus.Paid))
  {
    var p := s.passes[k].payout;
    assert PassOk(c, s, k, s.passes[k]) && RowOk(s, p);
    PaidKeeps(c, s, p);
    AfterReconcileKeeps(c, WriteRow(s, p, MarkPaid(s.rows[p], s.now)).(paidNotices := s.paidNotices + [p]), k, PayoutStatus.Paid);
  }

  lemma SettledByReset(c: Config, s: State, k: nat)
    requires Inv(c, s) && k in s.passes && s.passes[k].phase.Apply? && s.passes[k].payout in s.rows
    requires SettleGuard(s.rows[s.passes[k].payout], s.passes[k].phase.id)
    requires ProposalToPayout(s.passes[k].phase.effective).reset
    ensures var p := s.passes[k].payout;
            var row := Settled(s.rows[p], ProposalToPayout(s.passes[k].phase.effective), s.now);
            Inv(c, AfterReconcile(WriteReset(s, p, row), k, PayoutStatus.Pending))
  {
    var pass := s.passes[k];
    var row := Settled(s.rows[pass.payout], ProposalToPayout(pass.phase.effective), s.now);
    assert PassOk(c, s, k, pass);
    ResetKeeps(c, s, pass.payout, row);
    AfterReconcileKeeps(c, WriteReset(s, pass.payout, row), k, PayoutStatus.Pending);
  }

  lemma PinLiveKeeps(c: Config, s: State, k: nat)
    requires Inv(c, s) && k in s.passes && PassEnabled(c, s, k, PinLive(k))
    ensures Inv(c, PinLiveNext(c, s, k))
  {
    var pass := s.passes[k];
    var p := pass.payout;
    if p !in s.rows || s.rows[p].status == PayoutStatus.Paid || s.rows[p].proposalId.Some?
       || ConflictingClaim(s.rows[p], pass.job.request) {
      EndPassKeeps(c, s, k);
    } else {
      PinFoundKeeps(c, s, k);
    }
  }

  lemma PinFoundKeeps(c: Config, s: State, k: nat)
    requires Inv(c, s) && k in s.passes && PassEnabled(c, s, k, PinLive(k))
    requires s.passes[k].payout in s.rows && s.rows[s.passes[k].payout].status != PayoutStatus.Paid
    ensures var pass := s.passes[k]; var p := pass.payout; var id := Found(c, pass, pass.job.request, true).value.id;
            Inv(c, EndPass(WriteRow(s, p, MarkProposed(s.rows[p], Some(id), pass.job.request, s.now)), k))
  {
    var i := FoundIsOnChain(c, s, k, s.passes[k].job.request, true);
    PinAskedKeeps(c, s, k, s.passes[k].window.value.from + i);
  }

  /** Any proposal with the identity the pass was asked for may be pinned. */
  lemma PinAskedKeeps(c: Config, s: State, k: nat, id: nat)
    requires Inv(c, s) && k in s.passes && s.passes[k].job.Propose? && id < |s.chain|
    requires s.passes[k].payout in s.rows && s.rows[s.passes[k].payout].status != PayoutStatus.Paid
    requires MatchesPayoutTransfer(s.chain[id].proposal, Desc(s.passes[k].payout, s.passes[k].seen), s.passes[k].job.request)
    ensures var pass := s.passes[k]; var p := pass.payout;
            Inv(c, EndPass(WriteRow(s, p, MarkProposed(s.rows[p], Some(id), pass.job.request, s.now)), k))
  {
    assert PassOk(c, s, k, s.passes[k]);
    PinAndEndKeeps(c, s, k, id, s.passes[k].job.request);
  }

  lemma PinAndEndKeeps(c: Config, s: State, k: nat, id: nat, claim: Claim)
    requires Inv(c, s) && k in s.passes && s.passes[k].payout in s.rows && id < |s.chain|
    requires s.rows[s.passes[k].payout].status != PayoutStatus.Paid
    requires MatchesPayoutTransfer(s.chain[id].proposal, Desc(s.passes[k].payout, s.rows[s.passes[k].payout]), claim)
    requires Request(s.passes[k].payout, s.rows[s.passes[k].payout].taskId, claim) in s.requested
    ensures var p := s.passes[k].payout;
            Inv(c, EndPass(WriteRow(s, p, MarkProposed(s.rows[p], Some(id), claim, s.now)), k))
  {
    var p := s.passes[k].payout;
    PinKeeps(c, s, p, id, claim);
    EndPassKeeps(c, WriteRow(s, p, MarkProposed(s.rows[p], Some(id), claim, s.now)), k);
  }

  lemma PinAnswerKeeps(c: Config, s: State, k: nat)
    requires Inv(c, s) && k in s.passes && PassEnabled(c, s, k, PinAnswer(k))
    ensures Inv(c, PinAnswerNext(s, k))
  {
    var pass := s.passes[k];
    var p := pass.payout;
    assert PassOk(c, s, k, pass);
    if p !in s.rows || !PinGuard(s.rows[p]) {
      EndPassKeeps(c, s, k);
    } else {
      PinKeeps(c, s, p, pass.phase.answer, pass.job.request);
      EndPassKeeps(c, WriteRow(s, p, MarkProposed(s.rows[p], Some(pass.phase.answer), pass.job.request, s.now)), k);
    }
  }

  // ---- Claiming and submitting ----

  /** The tables after a claim: the row is proposed with no pin and owns a new
      submission, its payout's newest. */
  lemma ClaimTables(c: Config, s: State, p: nat, claim: Claim, owner: nat, s': State)
    requires Inv(c, s) && p in s.rows && s.rows[p].status == PayoutStatus.Pending
    requires Request(p, s.rows[p].taskId, claim) in s.requested
    requires var row := MarkProposed(s.rows[p], None, claim, s.now);
             s' == WriteRow(s, p, row).(subs := s.subs + [Submission(p, row.taskId, claim, s.now, Resets(s, p), owner, Unsent)],
                                        last := s.last[p := |s.subs|])
    ensures TablesOk(s') && Grown(s, s')
  {
    ClaimGrows(c, s, p, claim, owner, s');
    ClaimEntries(c, s, p, claim, owner, s');
    ClaimRows(c, s, p, claim, owner, s');
    ClaimIsSerial(s, p, s');
  }

  lemma ClaimEntries(c: Config, s: State, p: nat, claim: Claim, owner: nat, s': State)
    requires Inv(c, s) && p in s.rows && Request(p, s.rows[p].taskId, claim) in s.requested
    requires var row := MarkProposed(s.rows[p], None, claim, s.now);
             s' == WriteRow(s, p, row).(subs := s.subs + [Submission(p, row.taskId, claim, s.now, Resets(s, p), owner, Unsent)],
                                        last := s.last[p := |s.subs|])
    ensures forall q | 0 <= q < |s'.chain| :: EntryOk(s', q)
    ensures forall i | 0 <= i < |s'.subs| :: SubOk(s', i)
  {
    assert RowOk(s, p);
    forall q | 0 <= q < |s'.chain| ensures EntryOk(s', q) {
      assert EntryOk(s, q);
    }
    forall i | 0 <= i < |s'.subs| ensures SubOk(s', i) {
      if i < |s.subs| {
        assert SubOk(s, i);
      }
    }
  }

  lemma ClaimRows(c: Config, s: State, p: nat, claim: Claim, owner: nat, s': State)
    requires TablesOk(s) && p in s.rows && s.rows[p].status == PayoutStatus.Pending
    requires Request(p, s.rows[p].taskId, claim) in s.requested
    requires var row := MarkProposed(s.rows[p], None, claim, s.now);
             s' == WriteRow(s, p, row).(subs := s.subs + [Submission(p, row.taskId, claim, s.now, Resets(s, p), owner, Unsent)],
                                        last := s.last[p := |s.subs|])
    ensures (forall q | q in s'.last :: LastOk(s', q)) && (forall q | q in s'.rows :: RowOk(s', q))
  {
    assert RowOk(s, p);
    forall q | q in s'.last ensures LastOk(s', q) {
      if q != p {
        assert LastOk(s, q);
      }
    }
    forall q | q in s'.rows ensures RowOk(s', q) {
      if q != p {
        assert RowOk(s, q);
        if q in s.last {
          assert LastOk(s, q);
        }
      }
    }
  }

  lemma ClaimGrows(c: Config, s: State, p: nat, claim: Claim, owner: nat, s': State)
    requires Inv(c, s) && p in s.rows
    requires var row := MarkProposed(s.rows[p], None, claim, s.now);
             s' == WriteRow(s, p, row).(subs := s.subs + [Submission(p, row.taskId, claim, s.now, Resets(s, p), owner, Unsent)],
                                        last := s.last[p := |s.subs|])
    ensures Grown(s, s')
  {
  }

  lemma ClaimIsSerial(s: State, p: nat, s': State)
    requires TablesOk(s) && p in s.rows && s.rows[p].status == PayoutStatus.Pending
    requires |s'.subs| == |s.subs| + 1 && s'.subs[..|s.subs|] == s.subs
    requires s'.subs[|s.subs|].payout == p && s'.subs[|s.subs|].resetsBefore == Resets(s, p)
    ensures ClaimsSerial(s')
  {
    assert RowOk(s, p);
    forall i, j | 0 <= i < j < |s'.subs| && s'.subs[i].payout == s'.subs[j].payout
      ensures s'.subs[i].resetsBefore < s'.subs[j].resetsBefore
    {
      assert s'.subs[i] == s.subs[i];
      if j == |s.subs| {
        assert SubOk(s, i) && LastOk(s, p);
        assert i == s.last[p] || s.subs[i].resetsBefore < s.subs[s.last[p]].resetsBefore;
      } else {
        assert s'.subs[j] == s.subs[j];
      }
    }
  }

  lemma ClaimMoves(c: Config, s: State, p: nat, claim: Claim, owner: nat, s': State, q: nat)
    requires Inv(c, s) && p in s.rows && s.rows[p].status == PayoutStatus.Pending
    requires var row := MarkProposed(s.rows[p], None, claim, s.now);
             s' == WriteRow(s, p, row).(subs := s.subs + [Submission(p, row.taskId, claim, s.now, Resets(s, p), owner, Unsent)],
                                        last := s.last[p := |s.subs|])
    ensures RowMoved(s, s', q)
  {
  }

  lemma ClaimRowKeeps(c: Config, s: State, k: nat)
    requires Inv(c, s) && k in s.passes && PassEnabled(c, s, k, ClaimRow(k))
    ensures Inv(c, ClaimRowNext(s, k))
  {
    var pass := s.passes[k];
    var p := pass.payout;
    assert PassOk(c, s, k, pass);
    if p !in s.rows || s.rows[p].status != PayoutStatus.Pending || ConflictingClaim(s.rows[p], pass.job.request) {
      EndPassKeeps(c, s, k);
    } else {
      var row := MarkProposed(s.rows[p], None, pass.job.request, s.now);
      var u := Submission(p, row.taskId, pass.job.request, s.now, Resets(s, p), k, Unsent);
      var s1 := WriteRow(s, p, row).(subs := s.subs + [u], last := s.last[p := |s.subs|]);
      ClaimTables(c, s, p, pass.job.request, k, s1);
      forall q: nat ensures RowMoved(s, s1, q) {
        ClaimMoves(c, s, p, pass.job.request, k, s1, q);
      }
      TableStepKeeps(c, s, s1);
      var claimed := pass.(seen := row, resets0 := Resets(s, p), last0 := Some(|s.subs|), subs0 := |s.subs| + 1,
                           phase := Claimed(|s.subs|), window := None, adopted := false);
      ClaimingPassOk(c, s, k, s1, claimed);
      SetPassKeeps(c, s1, k, claimed);
    }
  }

  lemma ClaimingPassOk(c: Config, s: State, k: nat, s1: State, claimed: Pass)
    requires Inv(c, s1) && k in s1.passes && |s1.subs| == |s.subs| + 1
    requires var pass := s1.passes[k];
             && claimed == pass.(seen := claimed.seen, resets0 := Resets(s1, pass.payout), last0 := Some(|s.subs|),
                                 subs0 := |s.subs| + 1, phase := Claimed(|s.subs|), window := None, adopted := false)
             && pass.job.Propose? && pass.payout in s1.rows && s1.rows[pass.payout] == claimed.seen
             && claimed.seen.status == PayoutStatus.Proposed && claimed.seen.proposalId.None?
             && pass.payout in s1.last && s1.last[pass.payout] == |s.subs|
             && claimed.seen.taskId == pass.seen.taskId
             && var u := s1.subs[|s.subs|];
                u.payout == pass.payout && u.taskId == claimed.seen.taskId && u.claim == pass.job.request && u.owner == k
                && u.resetsBefore == Resets(s1, pass.payout)
    ensures PassOk(c, s1, k, claimed)
  {
    assert PassOk(c, s1, k, s1.passes[k]);
    assert RowOk(s1, claimed.payout);
  }

  /** Marking a submission sent, landed or dropped touches nothing else of it. */
  lemma SubStateTables(c: Config, s: State, i: nat, state: SubmitState)
    requires Inv(c, s) && i < |s.subs| && !state.Landed? && !s.subs[i].state.Landed?
    ensures var s' := s.(subs := s.subs[i := s.subs[i].(state := state)]);
            TablesOk(s') && Grown(s, s')
  {
    var s' := s.(subs := s.subs[i := s.subs[i].(state := state)]);
    forall q | 0 <= q < |s'.chain| ensures EntryOk(s', q) {
      assert EntryOk(s, q);
    }
    forall j | 0 <= j < |s'.subs| ensures SubOk(s', j) {
      assert SubOk(s, j);
    }
    forall q | q in s'.last ensures LastOk(s', q) {
      assert LastOk(s, q);
    }
    forall q | q in s'.rows ensures RowOk(s', q) {
      assert RowOk(s, q);
    }
  }

  lemma SubStateKeeps(c: Config, s: State, i: nat, state: SubmitState)
    requires Inv(c, s) && i < |s.subs| && !state.Landed? && !s.subs[i].state.Landed?
    ensures Inv(c, s.(subs := s.subs[i := s.subs[i].(state := state)]))
  {
    var s' := s.(subs := s.subs[i := s.subs[i].(state := state)]);
    SubStateTables(c, s, i, state);
    forall q: nat ensures RowMoved(s, s', q) {
    }
    TableStepKeeps(c, s, s');
  }

  lemma SubmitKeeps(c: Config, s: State, k: nat)
    requires Inv(c, s) && k in s.passes && PassEnabled(c, s, k, Submit(k))
    ensures Inv(c, SubmitNext(s, k))
  {
    var sub := s.passes[k].phase.sub;
    var u := s.subs[sub];
    if u.state == Unsent {
      SubStateKeeps(c, s, sub, Sent);
    }
    var state := if u.state == Unsent then Sent else u.state;
    var s1 := s.(subs := s.subs[sub := u.(state := state)]);
    assert u.state != Unsent ==> s1 == s;
    SubmittedPassKeeps(c, s1, k, sub);
  }

  lemma SubmittedPassKeeps(c: Config, s: State, k: nat, sub: nat)
    requires Inv(c, s) && k in s.passes && s.passes[k].phase == Claimed(sub)
    ensures Inv(c, SetPass(s, k, s.passes[k].(phase := Submitted(sub))))
  {
    assert PassOk(c, s, k, s.passes[k]);
    SetPassKeeps(c, s, k, s.passes[k].(phase := Submitted(sub)));
  }

  // ---- Reads ----

  lemma ReadCountKeeps(c: Config, s: State, k: nat)
    requires Inv(c, s) && k in s.passes && PassEnabled(c, s, k, ReadCount(k))
    ensures Inv(c, PassNext(c, s, k, ReadCount(k)))
  {
    assert PassOk(c, s, k, s.passes[k]);
    SetPassKeeps(c, s, k, s.passes[k].(counted := Some(|s.chain|), countedAt := s.now));
  }

  lemma ReadPageKeeps(c: Config, s: State, k: nat)
    requires Inv(c, s) && k in s.passes && PassEnabled(c, s, k, ReadPage(k))
    ensures Inv(c, ReadPageNext(c, s, k))
  {
    assert PassOk(c, s, k, s.passes[k]);
    var window := PageWindow(s, s.passes[k]);
    FreshWindowOk(c, s, k, window);
    SetPassKeeps(c, s, k, s.passes[k].(window := Some(window)));
  }

  lemma FreshWindowOk(c: Config, s: State, k: nat, window: Window)
    requires Inv(c, s) && k in s.passes && PassEnabled(c, s, k, ReadPage(k))
    requires window.from <= s.passes[k].counted.value
    requires window == Window(window.from, Proposals(s.chain, window.from, s.passes[k].counted.value), s.now, Last(s, s.passes[k].payout), |s.subs|)
    ensures PassOk(c, s, k, s.passes[k].(window := Some(window)))
  {
    var pass := s.passes[k];
    assert PassOk(c, s, k, pass);
    if pass.payout in s.last {
      assert LastOk(s, pass.payout);
    }
    assert WindowOk(s, pass.(window := Some(window)), window);
  }

  lemma ReadLastKeeps(c: Config, s: State, k: nat)
    requires Inv(c, s) && k in s.passes && PassEnabled(c, s, k, ReadLast(k))
    ensures Inv(c, PassNext(c, s, k, ReadLast(k)))
  {
    assert PassOk(c, s, k, s.passes[k]);
    SetPassKeeps(c, s, k, s.passes[k].(phase := Apply(s.passes[k].phase.id, EffectiveStatus.Removed)));
  }

  lemma AnswerKeeps(c: Config, s: State, k: nat, answer: nat)
    requires Inv(c, s) && k in s.passes && PassEnabled(c, s, k, Answer(k, answer))
    ensures Inv(c, PassNext(c, s, k, Answer(k, answer)))
  {
    assert PassOk(c, s, k, s.passes[k]);
    SetPassKeeps(c, s, k, s.passes[k].(phase := Verify(s.passes[k].phase.sub, answer)));
  }

  lemma VerifyReadKeeps(c: Config, s: State, k: nat)
    requires Inv(c, s) && k in s.passes && PassEnabled(c, s, k, VerifyRead(k))
    ensures Inv(c, VerifyReadNext(s, k))
  {
    var pass := s.passes[k];
    var id := pass.phase.answer;
    if ReadsBack(s, id) && MatchesPayoutTransfer(s.chain[id].proposal, Desc(pass.payout, pass.seen), pass.job.request) {
      VerifiedKeeps(c, s, k);
    } else {
      EndPassKeeps(c, s, k);
    }
  }

  lemma VerifiedKeeps(c: Config, s: State, k: nat)
    requires Inv(c, s) && k in s.passes && PassEnabled(c, s, k, VerifyRead(k)) && s.passes[k].phase.answer < |s.chain|
    requires var pass := s.passes[k];
             MatchesPayoutTransfer(s.chain[pass.phase.answer].proposal, Desc(pass.payout, pass.seen), pass.job.request)
    ensures Inv(c, SetPass(s, k, s.passes[k].(phase := Pin(s.passes[k].phase.sub, s.passes[k].phase.answer))))
  {
    var pass := s.passes[k];
    assert PassOk(c, s, k, pass);
    SetPassKeeps(c, s, k, pass.(phase := Pin(pass.phase.sub, pass.phase.answer)));
  }

  lemma AdoptExpireKeeps(c: Config, s: State, k: nat, ev: Event)
    requires Inv(c, s) && k in s.passes && PassEnabled(c, s, k, ev)
    requires ev.Adopt? || ev.Expire?
    ensures Inv(c, PassNext(c, s, k, ev))
  {
    match ev
    case Adopt(_) => AdoptKeeps(c, s, k);
    case Expire(_) => ExpireKeeps(c, s, k);
  }

  lemma HealRestKeeps(c: Config, s: State, k: nat, ev: Event)
    requires Inv(c, s) && k in s.passes && PassEnabled(c, s, k, ev)
    requires ev.Heal? || ev.Rest?
    ensures Inv(c, PassNext(c, s, k, ev))
  {
    match ev
    case Heal(_) => HealKeeps(c, s, k);
    case Rest(_) => AfterReconcileKeeps(c, s, k, PayoutStatus.Pending);
  }

  lemma StatusReadKeeps(c: Config, s: State, k: nat, ev: Event)
    requires Inv(c, s) && k in s.passes && PassEnabled(c, s, k, ev)
    requires ev.ReadProposal? || ev.ReadLast?
    ensures Inv(c, PassNext(c, s, k, ev))
  {
    match ev
    case ReadProposal(_) => ReadProposalKeeps(c, s, k);
    case ReadLast(_) => ReadLastKeeps(c, s, k);
  }

  lemma SettleStopKeeps(c: Config, s: State, k: nat, ev: Event)
    requires Inv(c, s) && k in s.passes && PassEnabled(c, s, k, ev)
    requires ev.ApplySettle? || ev.Stop?
    ensures Inv(c, PassNext(c, s, k, ev))
  {
    match ev
    case ApplySettle(_) => ApplySettleKeeps(c, s, k);
    case Stop(_) => EndPassKeeps(c, s, k);
  }

  lemma PinStepKeeps(c: Config, s: State, k: nat, ev: Event)
    requires Inv(c, s) && k in s.passes && PassEnabled(c, s, k, ev)
    requires ev.PinLive? || ev.PinAnswer?
    ensures Inv(c, PassNext(c, s, k, ev))
  {
    match ev
    case PinLive(_) => PinLiveKeeps(c, s, k);
    case PinAnswer(_) => PinAnswerKeeps(c, s, k);
  }

  lemma ClaimSubmitKeeps(c: Config, s: State, k: nat, ev: Event)
    requires Inv(c, s) && k in s.passes && PassEnabled(c, s, k, ev)
    requires ev.ClaimRow? || ev.Submit?
    ensures Inv(c, PassNext(c, s, k, ev))
  {
    match ev
    case ClaimRow(_) => ClaimRowKeeps(c, s, k);
    case Submit(_) => SubmitKeeps(c, s, k);
  }

  lemma WindowReadKeeps(c: Config, s: State, k: nat, ev: Event)
    requires Inv(c, s) && k in s.passes && PassEnabled(c, s, k, ev)
    requires ev.ReadCount? || ev.ReadPage?
    ensures Inv(c, PassNext(c, s, k, ev))
  {
    match ev
    case ReadCount(_) => ReadCountKeeps(c, s, k);
    case ReadPage(_) => ReadPageKeeps(c, s, k);
  }

  lemma AnswerStepKeeps(c: Config, s: State, k: nat, ev: Event)
    requires Inv(c, s) && k in s.passes && PassEnabled(c, s, k, ev)
    requires ev.Answer? || ev.VerifyRead?
    ensures Inv(c, PassNext(c, s, k, ev))
  {
    match ev
    case Answer(_, answer) => AnswerKeeps(c, s, k, answer);
    case VerifyRead(_) => VerifyReadKeeps(c, s, k);
  }

  lemma PassStepKeeps(c: Config, s: State, k: nat, ev: Event)
    requires Inv(c, s) && k in s.passes && PassEnabled(c, s, k, ev)
    ensures Inv(c, PassNext(c, s, k, ev))
  {
    if ev.Adopt? || ev.Expire? {
      AdoptExpireKeeps(c, s, k, ev);
    } else if ev.Heal? || ev.Rest? {
      HealRestKeeps(c, s, k, ev);
    } else if ev.ReadProposal? || ev.ReadLast? {
      StatusReadKeeps(c, s, k, ev);
    } else if ev.ApplySettle? || ev.Stop? {
      SettleStopKeeps(c, s, k, ev);
    } else if ev.PinLive? || ev.PinAnswer? {
      PinStepKeeps(c, s, k, ev);
    } else if ev.ClaimRow? || ev.Submit? {
      ClaimSubmitKeeps(c, s, k, ev);
    } else if ev.ReadCount? || ev.ReadPage? {
      WindowReadKeeps(c, s, k, ev);
    } else {
      AnswerStepKeeps(c, s, k, ev);
    }
  }

  lemma BeginKeeps(c: Config, s: State, k: nat, p: nat, job: Job)
    requires Inv(c, s) && k !in s.passes && p in s.rows && s.rows[p].status != PayoutStatus.Paid
    ensures Inv(c, BeginNext(s, k, p, job))
  {
    var requested := if job.Propose? then s.requested + {Request(p, s.rows[p].taskId, job.request)} else s.requested;
    var s1 := s.(requested := requested);
    RequestKeeps(c, s, requested);
    assert RowOk(s1, p);
    if p in s.last {
      assert LastOk(s1, p) && SubOk(s1, s.last[p]);
    }
    var seen := s.rows[p];
    var pass := Pass(p, job, seen, s.now, Resets(s, p), Last(s, p), |s.subs|, FirstPhase(seen, job), None, s.now, None, false);
    SetPassKeeps(c, s1, k, pass);
  }

  lemma RequestKeeps(c: Config, s: State, requested: set<Request>)
    requires Inv(c, s) && s.requested <= requested
    ensures Inv(c, s.(requested := requested))
  {
    var s' := s.(requested := requested);
    SameTables(s, s');
    forall q: nat ensures RowMoved(s, s', q) {
    }
    TableStepKeeps(c, s, s');
  }

  // ---- Steps of the environment ----

  /** The clocks and the request history may grow without touching a table. */
  lemma SameTables(s: State, s': State)
    requires TablesOk(s)
    requires s' == s.(now := s'.now, chainNow := s'.chainNow, requested := s'.requested)
    requires s.now <= s'.now && s.requested <= s'.requested
    ensures TablesOk(s') && Grown(s, s')
  {
    forall q | 0 <= q < |s'.chain| ensures EntryOk(s', q) {
      assert EntryOk(s, q);
    }
    forall j | 0 <= j < |s'.subs| ensures SubOk(s', j) {
      assert SubOk(s, j);
    }
    forall q | q in s'.last ensures LastOk(s', q) {
      assert LastOk(s, q);
    }
    forall q | q in s'.rows ensures RowOk(s', q) {
      assert RowOk(s, q);
    }
  }

  lemma TickKeeps(c: Config, s: State, now: int, chainNow: int)
    requires Inv(c, s) && s.now <= now && s.chainNow <= chainNow
    ensures Inv(c, s.(now := now, chainNow := chainNow))
  {
    var s' := s.(now := now, chainNow := chainNow);
    SameTables(s, s');
    forall q: nat ensures RowMoved(s, s', q) {
    }
    TableStepKeeps(c, s, s');
  }

  lemma CreateKeeps(c: Config, s: State, taskId: nat, who: nat)
    requires Inv(c, s)
    ensures Inv(c, EnvNext(c, s, CreatePayout(taskId, who)))
  {
    var s' := EnvNext(c, s, CreatePayout(taskId, who));
    CreateTables(c, s, s', taskId, who);
    forall k | k in s'.passes ensures PassOk(c, s', k, s'.passes[k]) {
      assert PassOk(c, s, k, s.passes[k]);
      PassCarriesOver(c, s, s', k, s.passes[k]);
    }
  }

  lemma CreateTables(c: Config, s: State, s': State, taskId: nat, who: nat)
    requires TablesOk(s) && s' == EnvNext(c, s, CreatePayout(taskId, who))
    ensures TablesOk(s') && Grown(s, s')
  {
    forall q | 0 <= q < |s'.chain| ensures EntryOk(s', q) {
      assert EntryOk(s, q);
    }
    forall j | 0 <= j < |s'.subs| ensures SubOk(s', j) {
      assert SubOk(s, j);
    }
    forall q | q in s'.last ensures LastOk(s', q) {
      assert LastOk(s, q);
    }
    forall q | q in s'.rows ensures RowOk(s', q) {
      if q == s.nextRow {
        assert q !in s.last;
      } else {
        assert RowOk(s, q);
      }
    }
    assert s.nextRow !in s.paidNotices;
  }

  /** A new slot at the end of the chain, whoever it comes from. */
  lemma LandKeeps(c: Config, s: State, i: nat, rounding: int)
    requires Inv(c, s) && EnvEnabled(c, s, Land(i, rounding))
    ensures Inv(c, EnvNext(c, s, Land(i, rounding)))
  {
    var s' := EnvNext(c, s, Land(i, rounding));
    LandTables(c, s, s', i, rounding);
    forall q: nat ensures RowMoved(s, s', q) {
    }
    TableStepKeeps(c, s, s');
  }

  lemma LandTables(c: Config, s: State, s': State, i: nat, rounding: int)
    requires Inv(c, s) && EnvEnabled(c, s, Land(i, rounding)) && s' == EnvNext(c, s, Land(i, rounding))
    ensures TablesOk(s') && Grown(s, s')
  {
    LandEntries(c, s, s', i, rounding);
    LandRows(c, s, s', i, rounding);
  }

  lemma LandRows(c: Config, s: State, s': State, i: nat, rounding: int)
    requires TablesOk(s) && EnvEnabled(c, s, Land(i, rounding)) && s' == EnvNext(c, s, Land(i, rounding))
    ensures (forall q | q in s'.last :: LastOk(s', q)) && (forall q | q in s'.rows :: RowOk(s', q))
  {
    forall q | q in s'.last ensures LastOk(s', q) {
      assert LastOk(s, q);
    }
    forall q | q in s'.rows ensures RowOk(s', q) {
      assert RowOk(s, q);
    }
  }

  lemma LandEntries(c: Config, s: State, s': State, i: nat, rounding: int)
    requires TablesOk(s) && EnvEnabled(c, s, Land(i, rounding)) && s' == EnvNext(c, s, Land(i, rounding))
    ensures (forall q | 0 <= q < |s'.chain| :: EntryOk(s', q)) && (forall j | 0 <= j < |s'.subs| :: SubOk(s', j))
    ensures forall q | 0 <= q < |s.chain| :: s'.chain[q] == s.chain[q]
  {
    assert forall q | 0 <= q < |s.chain| :: s'.chain[q] == s.chain[q];
    forall q | 0 <= q < |s'.chain| ensures EntryOk(s', q) {
      if q < |s.chain| {
        assert EntryOk(s, q);
      }
    }
    forall j | 0 <= j < |s'.subs| ensures SubOk(s', j) {
      assert SubOk(s, j);
    }
  }

  lemma OutsiderKeeps(c: Config, s: State, description: string, kind: Kind, rounding: int)
    requires Inv(c, s)
    ensures Inv(c, EnvNext(c, s, Outsider(description, kind, rounding)))
  {
    var s' := EnvNext(c, s, Outsider(description, kind, rounding));
    OutsiderTables(c, s, s', description, kind, rounding);
    forall q: nat ensures RowMoved(s, s', q) {
    }
    TableStepKeeps(c, s, s');
  }

  lemma OutsiderTables(c: Config, s: State, s': State, description: string, kind: Kind, rounding: int)
    requires TablesOk(s) && s' == EnvNext(c, s, Outsider(description, kind, rounding))
    ensures TablesOk(s') && Grown(s, s')
  {
    assert forall q | 0 <= q < |s.chain| :: s'.chain[q] == s.chain[q];
    forall q | 0 <= q < |s'.chain| ensures EntryOk(s', q) {
      if q < |s.chain| {
        assert EntryOk(s, q);
      }
    }
    forall j | 0 <= j < |s'.subs| ensures SubOk(s', j) {
      assert SubOk(s, j);
    }
    forall q | q in s'.last ensures LastOk(s', q) {
      assert LastOk(s, q);
    }
    forall q | q in s'.rows ensures RowOk(s', q) {
      assert RowOk(s, q);
    }
  }

  lemma CouncilKeeps(c: Config, s: State, id: nat, status: ProposalStatus)
    requires Inv(c, s) && EnvEnabled(c, s, Council(id, status))
    ensures Inv(c, EnvNext(c, s, Council(id, status)))
  {
    var s' := EnvNext(c, s, Council(id, status));
    CouncilTables(c, s, s', id, status);
    forall q: nat ensures RowMoved(s, s', q) {
    }
    TableStepKeeps(c, s, s');
  }

  lemma CouncilTables(c: Config, s: State, s': State, id: nat, status: ProposalStatus)
    requires TablesOk(s) && EnvEnabled(c, s, Council(id, status)) && s' == EnvNext(c, s, Council(id, status))
    ensures TablesOk(s') && Grown(s, s')
  {
    forall q | 0 <= q < |s'.chain| ensures EntryOk(s', q) {
      assert EntryOk(s, q);
    }
    CouncilRows(c, s, s', id, status);
  }

  lemma CouncilRows(c: Config, s: State, s': State, id: nat, status: ProposalStatus)
    requires TablesOk(s) && EnvEnabled(c, s, Council(id, status)) && s' == EnvNext(c, s, Council(id, status))
    ensures forall j | 0 <= j < |s'.subs| :: SubOk(s', j)
    ensures (forall q | q in s'.last :: LastOk(s', q)) && (forall q | q in s'.rows :: RowOk(s', q))
  {
    forall j | 0 <= j < |s'.subs| ensures SubOk(s', j) {
      assert SubOk(s, j);
    }
    forall q | q in s'.last ensures LastOk(s', q) {
      assert LastOk(s, q);
    }
    forall q | q in s'.rows ensures RowOk(s', q) {
      assert RowOk(s, q);
    }
  }

  lemma ForgetKeeps(c: Config, s: State, who: nat)
    requires Inv(c, s) && EnvEnabled(c, s, Forget(who))
    ensures Inv(c, EnvNext(c, s, Forget(who)))
  {
    var s' := EnvNext(c, s, Forget(who));
    ForgetTables(c, s, s', who);
    forall q: nat ensures RowMoved(s, s', q) {
    }
    TableStepKeeps(c, s, s');
  }

  lemma ForgetTables(c: Config, s: State, s': State, who: nat)
    requires TablesOk(s) && EnvEnabled(c, s, Forget(who)) && s' == EnvNext(c, s, Forget(who))
    ensures TablesOk(s') && Grown(s, s')
  {
    forall q | 0 <= q < |s'.chain| ensures EntryOk(s', q) {
      assert EntryOk(s, q);
    }
    ForgetRows(c, s, s', who);
  }

  lemma ForgetRows(c: Config, s: State, s': State, who: nat)
    requires TablesOk(s) && EnvEnabled(c, s, Forget(who)) && s' == EnvNext(c, s, Forget(who))
    ensures forall j | 0 <= j < |s'.subs| :: SubOk(s', j)
    ensures (forall q | q in s'.last :: LastOk(s', q)) && (forall q | q in s'.rows :: RowOk(s', q))
  {
    forall j | 0 <= j < |s'.subs| ensures SubOk(s', j) {
      assert SubOk(s, j);
    }
    forall q | q in s'.last ensures LastOk(s', q) {
      assert LastOk(s, q);
    }
    forall q | q in s'.rows ensures RowOk(s', q) {
      assert RowOk(s, q);
    }
  }

  lemma EnvStepKeeps(c: Config, s: State, ev: Event)
    requires Inv(c, s) && EnvEnabled(c, s, ev)
    ensures Inv(c, EnvNext(c, s, ev))
  {
    match ev
    case Tick(now, chainNow) => TickKeeps(c, s, now, chainNow);
    case CreatePayout(taskId, who) => CreateKeeps(c, s, taskId, who);
    case Land(i, rounding) => LandKeeps(c, s, i, rounding);
    case Drop(i) => SubStateKeeps(c, s, i, Dropped);
    case Outsider(description, kind, rounding) => OutsiderKeeps(c, s, description, kind, rounding);
    case Council(id, status) => CouncilKeeps(c, s, id, status);
    case Forget(who) => ForgetKeeps(c, s, who);
    case _ =>
  }

  /** Every step keeps the invariant. */
  lemma StepKeeps(c: Config, s: State, ev: Event)
    requires Inv(c, s) && Enabled(c, s, ev)
    ensures Inv(c, Next(c, s, ev))
  {
    if IsEnv(ev) {
      EnvStepKeeps(c, s, ev);
    } else if ev.Begin? {
      BeginKeeps(c, s, ev.pass, ev.payout, ev.job);
    } else {
      PassStepKeeps(c, s, ev.pass, ev);
    }
  }

  lemma {:induction false} RunKeeps(c: Config, states: seq<State>, events: seq<Event>, i: nat)
    requires IsRun(c, states, events) && i < |states|
    ensures Inv(c, states[i])
  {
    if i > 0 {
      RunKeeps(c, states, events, i - 1);
      StepKeeps(c, states[i - 1], events[i - 1]);
    }
  }

  // ---- Every step only adds to the history ----

  lemma AfterReconcileGrows(s: State, s1: State, k: nat, status: PayoutStatus)
    requires k in s1.passes && Grown(s, s1)
    ensures Grown(s, AfterReconcile(s1, k, status))
  {
  }

  lemma PassStepGrows(c: Config, s: State, k: nat, ev: Event)
    requires k in s.passes && PassEnabled(c, s, k, ev)
    ensures Grown(s, PassNext(c, s, k, ev))
  {
    if ev.Adopt? {
      AdoptGrows(c, s, k);
    } else if ev.Expire? {
      ExpireGrows(s, k);
    } else if ev.Heal? {
      HealGrows(s, k);
    } else if ev.ApplySettle? {
      ApplySettleGrows(s, k);
    } else if ev.Submit? {
      SubmitGrows(s, k);
    } else if !ev.ClaimRow? {
      PassesOrRowsGrow(s, PassNext(c, s, k, ev));
    }
  }

  lemma PassesOrRowsGrow(s: State, s': State)
    requires s' == s.(rows := s'.rows, passes := s'.passes)
    ensures Grown(s, s')
  {
  }

  lemma AdoptGrows(c: Config, s: State, k: nat)
    requires k in s.passes && PassEnabled(c, s, k, Adopt(k))
    ensures Grown(s, AdoptNext(c, s, k))
  {
    PassesOrRowsGrow(s, AdoptNext(c, s, k));
  }

  lemma ResetGrows(s: State, p: nat, row: Payout)
    ensures Grown(s, WriteReset(s, p, row))
  {
  }

  lemma ExpireGrows(s: State, k: nat)
    requires k in s.passes
    ensures Grown(s, ExpireNext(s, k))
  {
    var p := s.passes[k].payout;
    if p in s.rows && ExpireGuard(s.rows[p], s.passes[k].seen, s.now) {
      var row := ResetToPending(s.rows[p], s.rows[p].attention, false, s.now);
      ResetGrows(s, p, row);
      AfterReconcileGrows(s, WriteReset(s, p, row), k, PayoutStatus.Pending);
    } else {
      PassesOrRowsGrow(s, ExpireNext(s, k));
    }
  }

  lemma HealGrows(s: State, k: nat)
    requires k in s.passes
    ensures Grown(s, HealNext(s, k))
  {
    var p := s.passes[k].payout;
    if p in s.rows && HealGuard(s.rows[p], s.now) {
      var row := ResetToPending(s.rows[p], false, true, s.now);
      ResetGrows(s, p, row);
      AfterReconcileGrows(s, WriteReset(s, p, row), k, PayoutStatus.Pending);
    } else {
      PassesOrRowsGrow(s, HealNext(s, k));
    }
  }

  lemma ApplySettleGrows(s: State, k: nat)
    requires k in s.passes && s.passes[k].phase.Apply?
    ensures Grown(s, ApplySettleNext(s, k))
  {
    if s.passes[k].payout in s.rows && SettleGuard(s.rows[s.passes[k].payout], s.passes[k].phase.id) {
      SettledGrows(s, k);
    }
  }

  lemma SettledGrows(s: State, k: nat)
    requires k in s.passes && s.passes[k].phase.Apply? && s.passes[k].payout in s.rows
    requires SettleGuard(s.rows[s.passes[k].payout], s.passes[k].phase.id)
    ensures Grown(s, ApplySettleNext(s, k))
  {
    var p := s.passes[k].payout;
    var row := Settled(s.rows[p], ProposalToPayout(s.passes[k].phase.effective), s.now);
    ResetGrows(s, p, row);
    AfterReconcileGrows(s, WriteReset(s, p, row), k, PayoutStatus.Pending);
  }

  lemma SubmitGrows(s: State, k: nat)
    requires k in s.passes && s.passes[k].phase.Claimed? && s.passes[k].phase.sub < |s.subs|
    ensures Grown(s, SubmitNext(s, k))
  {
  }

  lemma EnvStepGrows(c: Config, s: State, ev: Event)
    requires Inv(c, s) && EnvEnabled(c, s, ev)
    ensures Grown(s, EnvNext(c, s, ev))
  {
    match ev
    case Tick(now, chainNow) => SameTables(s, EnvNext(c, s, ev));
    case CreatePayout(taskId, who) => CreateTables(c, s, EnvNext(c, s, ev), taskId, who);
    case Land(i, rounding) => LandTables(c, s, EnvNext(c, s, ev), i, rounding);
    case Drop(i) => SubStateTables(c, s, i, Dropped);
    case Outsider(description, kind, rounding) => OutsiderTables(c, s, EnvNext(c, s, ev), description, kind, rounding);
    case Council(id, status) => CouncilTables(c, s, EnvNext(c, s, ev), id, status);
    case Forget(who) => ForgetTables(c, s, EnvNext(c, s, ev), who);
    case _ =>
  }

  lemma StepGrows(c: Config, s: State, ev: Event)
    requires Inv(c, s) && Enabled(c, s, ev)
    ensures Grown(s, Next(c, s, ev))
  {
    if IsEnv(ev) {
      EnvStepGrows(c, s, ev);
    } else if !ev.Begin? {
      PassStepGrows(c, s, ev.pass, ev);
    }
  }
}
