// What a reconcile and a /pay come to, said from the payout's row, the proposals on
// the chain and the clock alone.
module ReconcilingExact {
  import opened Wrappers
  import opened Decimal
  import opened Dao
  import opened Payouts
  import opened Reconciling
  import opened ReconcilingLaws

  // ---- Proposals as they stand ----

  /** Still open for votes, as far as the bot can tell. */
  predicate Open(x: View, q: Proposal) {
    q.status == ProposalStatus.InProgress && x.now <= q.submittedMs + x.periodMs + EXPIRY_GRACE_MS + q.roundingMs
  }

  /** Voted down, deleted, or past its window. */
  predicate Dead(x: View, q: Proposal) {
    || q.status in {ProposalStatus.Rejected, ProposalStatus.Removed, ProposalStatus.Moved, ProposalStatus.Expired}
    || (q.status == ProposalStatus.InProgress && q.submittedMs + x.periodMs + EXPIRY_GRACE_MS + q.roundingMs < x.now)
  }

  predicate Pays(q: Proposal, p: nat, row: Payout, claim: Claim) {
    && q.description == "multiagency payout #" + Digits(p) + " task #" + Digits(row.taskId)
    && q.kind.Transfer? && q.kind.tokenId == "" && q.kind.receiverId == claim.receiver && q.kind.amount == claim.amount
  }

  /** The newest proposal of the window that pays the claim and is not dead. */
  predicate NewestAlive(x: View, i: nat, p: nat, row: Payout, claim: Claim) {
    && WindowFrom(x) <= i < |x.proposals| && Pays(x.proposals[i], p, row, claim) && !Dead(x, x.proposals[i])
    && forall j | i < j < |x.proposals| :: Pays(x.proposals[j], p, row, claim) ==> Dead(x, x.proposals[j])
  }

  predicate NoneAlive(x: View, p: nat, row: Payout, claim: Claim) {
    forall i | WindowFrom(x) <= i < |x.proposals| :: Pays(x.proposals[i], p, row, claim) ==> Dead(x, x.proposals[i])
  }

  // ---- A reconcile of a pinned row ----

  predicate Says(r: Report, status: PayoutStatus, attention: bool, id: Option<nat>) {
    r.ok && r.status == status && r.attention == attention && r.proposalId == id && !r.held
  }

  /** Nothing was written, and the report claims nothing. */
  predicate LeftAlone(l: Ledger, out: (Ledger, Report)) {
    out.0 == l && !out.1.ok
  }

  function Cleared(row: Payout, attention: bool, now: int): Payout {
    row.(status := PayoutStatus.Pending, proposalId := None, claim := None, attention := attention, updatedAt := now)
  }

  /** An executed proposal pays the row and enqueues its notice; one that failed or is
      open leaves it; a dead one puts it back without pin or claim; one that is gone
      does so only past the grace, and below the counter. */
  lemma PinnedExactly(l: Ledger, x: View, p: nat, id: nat)
    requires PinnedAt(l, p, id) && x.proposalOk && x.policyOk && x.countOk
    ensures var row, out := l.rows[p], Reconciled(l, x, p, l.rows[p]);
            if id >= |x.proposals| then LeftAlone(l, out)
            else
              var q := x.proposals[id];
              && (q.status == ProposalStatus.Approved ==>
                    && out.0 == Ledger(l.rows[p := row.(status := PayoutStatus.Paid, updatedAt := x.now)], l.paidNotices + [p])
                    && Says(out.1, PayoutStatus.Paid, false, Some(id)))
              && (q.status == ProposalStatus.Failed || Open(x, q) ==>
                    out.0 == l && Says(out.1, PayoutStatus.Proposed, q.status == ProposalStatus.Failed, Some(id)))
              && (Dead(x, q) && q.status != ProposalStatus.Removed ==>
                    && out.0 == l.(rows := l.rows[p := Cleared(row, q.status == ProposalStatus.Rejected, x.now)])
                    && Says(out.1, PayoutStatus.Pending, q.status == ProposalStatus.Rejected, None))
              && (q.status == ProposalStatus.Removed && x.now - row.updatedAt > 5 * 60 * 1000 ==>
                    && out.0 == l.(rows := l.rows[p := Cleared(row, true, x.now)])
                    && Says(out.1, PayoutStatus.Pending, true, None))
              && (q.status == ProposalStatus.Removed && x.now - row.updatedAt <= 5 * 60 * 1000 ==> LeftAlone(l, out))
  {
  }

  /** Whatever the window shows, a status that cannot be read changes nothing. */
  lemma UnreadPinIsLeft(l: Ledger, x: View, p: nat, id: nat)
    requires PinnedAt(l, p, id)
    requires !x.proposalOk || (if Gone(x, id) then !x.countOk else !x.policyOk)
    ensures LeftAlone(l, Reconciled(l, x, p, l.rows[p]))
  {
  }

  predicate OpenTwin(x: View, p: nat, row: Payout, claim: Claim, id: nat) {
    exists i :: WindowFrom(x) <= i < |x.proposals| && x.proposals[i].id != id && Open(x, x.proposals[i]) && Pays(x.proposals[i], p, row, claim)
  }

  lemma LiveIs(x: View, p: nat, row: Payout, claim: Claim, i: nat)
    requires WindowFrom(x) <= i < |x.proposals|
    ensures Page(x)[i - WindowFrom(x)] == x.proposals[i]
    ensures LiveIdentity(x, i - WindowFrom(x), PayoutDescription(p, row.taskId), claim) <==> Open(x, x.proposals[i]) && Pays(x.proposals[i], p, row, claim)
  {
  }

  lemma TwinIs(x: View, p: nat, row: Payout, claim: Claim, id: nat)
    ensures LiveTwin(x, PayoutDescription(p, row.taskId), claim, id) <==> OpenTwin(x, p, row, claim, id)
  {
    var description := PayoutDescription(p, row.taskId);
    if LiveTwin(x, description, claim, id) {
      var k :| 0 <= k < |Page(x)| && LiveIdentity(x, k, description, claim) && Page(x)[k].id != id;
      LiveIs(x, p, row, claim, WindowFrom(x) + k);
    }
    if OpenTwin(x, p, row, claim, id) {
      var i :| WindowFrom(x) <= i < |x.proposals| && x.proposals[i].id != id && Open(x, x.proposals[i]) && Pays(x.proposals[i], p, row, claim);
      LiveIs(x, p, row, claim, i);
    }
  }

  /** The report flags a live twin: one more open proposal of the window that pays
      the same. */
  lemma TwinIsFlagged(l: Ledger, x: View, p: nat, id: nat)
    requires PinnedAt(l, p, id) && AllRead(x) && l.rows[p].claim.Some? && id < |x.proposals|
    requires x.proposals[id].status == ProposalStatus.Approved || Open(x, x.proposals[id])
    ensures Reconciled(l, x, p, l.rows[p]).1.duplicates <==> OpenTwin(x, p, l.rows[p], l.rows[p].claim.value, id)
  {
    TwinIs(x, p, l.rows[p], l.rows[p].claim.value, id);
  }


  // ---- A reconcile of a row without a pin ----

  predicate Unpinned(l: Ledger, p: nat) {
    p in l.rows && l.rows[p].status != PayoutStatus.Paid && l.rows[p].proposalId.None?
  }

  lemma EligibleIsAlive(x: View, q: Proposal, p: nat, row: Payout, claim: Claim)
    ensures Eligible(q, PayoutDescription(p, row.taskId), claim, false, x.periodMs, x.now) <==> Pays(q, p, row, claim) && !Dead(x, q)
    ensures Eligible(q, PayoutDescription(p, row.taskId), claim, true, x.periodMs, x.now) <==> Pays(q, p, row, claim) && Open(x, q)
  {
  }

  lemma PageIs(x: View)
    ensures forall i | WindowFrom(x) <= i < |x.proposals| :: Page(x)[i - WindowFrom(x)] == x.proposals[i]
    ensures forall k | 0 <= k < |Page(x)| :: Page(x)[k] == x.proposals[WindowFrom(x) + k]
  {
  }

  lemma FoundIsNewest(x: View, p: nat, row: Payout, claim: Claim) returns (i: nat)
    requires Lookup(x, PayoutDescription(p, row.taskId), claim, false).Some?
    ensures NewestAlive(x, i, p, row, claim) && Lookup(x, PayoutDescription(p, row.taskId), claim, false) == Some(x.proposals[i])
  {
    var page, description := Page(x), PayoutDescription(p, row.taskId);
    var found := Lookup(x, description, claim, false);
    var k :| 0 <= k < |page| && page[k] == found.value && Eligible(page[k], description, claim, false, x.periodMs, x.now)
             && forall j | k < j < |page| :: !Eligible(page[j], description, claim, false, x.periodMs, x.now);
    PageIs(x);
    i := WindowFrom(x) + k;
    EligibleIsAlive(x, page[k], p, row, claim);
    forall j | i < j < |x.proposals| && Pays(x.proposals[j], p, row, claim) ensures Dead(x, x.proposals[j]) {
      EligibleIsAlive(x, page[j - WindowFrom(x)], p, row, claim);
    }
  }

  lemma NoneFoundMeansNone(x: View, p: nat, row: Payout, claim: Claim)
    requires Lookup(x, PayoutDescription(p, row.taskId), claim, false).None?
    ensures NoneAlive(x, p, row, claim)
  {
    PageIs(x);
    forall i | WindowFrom(x) <= i < |x.proposals| && Pays(x.proposals[i], p, row, claim) ensures Dead(x, x.proposals[i]) {
      EligibleIsAlive(x, Page(x)[i - WindowFrom(x)], p, row, claim);
    }
  }

  /** What the scan of a reconcile finds is the newest proposal alive. */
  lemma LookupExactly(x: View, p: nat, row: Payout, claim: Claim)
    ensures var found := Lookup(x, PayoutDescription(p, row.taskId), claim, false);
            && (found.None? <==> NoneAlive(x, p, row, claim))
            && (forall i: nat | NewestAlive(x, i, p, row, claim) :: found == Some(x.proposals[i]))
  {
    if Lookup(x, PayoutDescription(p, row.taskId), claim, false).None? {
      NoneFoundMeansNone(x, p, row, claim);
    } else {
      var k := FoundIsNewest(x, p, row, claim);
      assert forall i: nat | NewestAlive(x, i, p, row, claim) :: i == k;
    }
  }

  /** A claim whose proposal is alive on the chain is pinned to the newest such, and
      paid at once if that was executed. */
  lemma ClaimedIsAdopted(l: Ledger, x: View, p: nat, i: nat)
    requires Unpinned(l, p) && l.rows[p].claim.Some? && AllRead(x) && IdsFit(x)
    requires NewestAlive(x, i, p, l.rows[p], l.rows[p].claim.value)
    ensures var row, out, paid := l.rows[p], Reconciled(l, x, p, l.rows[p]), x.proposals[i].status == ProposalStatus.Approved;
            && out.0 == Ledger(l.rows[p := row.(status := if paid then PayoutStatus.Paid else PayoutStatus.Proposed,
                                                proposalId := Some(i), attention := false, updatedAt := x.now)],
                               if paid then l.paidNotices + [p] else l.paidNotices)
            && Says(out.1, if paid then PayoutStatus.Paid else PayoutStatus.Proposed,
                    x.proposals[i].status == ProposalStatus.Failed, Some(i))
  {
    LookupExactly(x, p, l.rows[p], l.rows[p].claim.value);
  }

  /** Two open proposals are twins of each other. */
  lemma TwoLiveAreTwins(x: View, p: nat, row: Payout, claim: Claim, id: nat)
    requires IdsFit(x) && TwoLive(x, PayoutDescription(p, row.taskId), claim)
    ensures LiveTwin(x, PayoutDescription(p, row.taskId), claim, id)
  {
    PageIs(x);
  }

  lemma AdoptionFlags(l: Ledger, x: View, p: nat, i: nat)
    requires Unpinned(l, p) && l.rows[p].claim.Some? && x.proposalOk && x.policyOk && x.windowOk && i < |x.proposals|
    requires x.proposals[i].status == ProposalStatus.Approved || Open(x, x.proposals[i])
    ensures var row := l.rows[p];
            var description := PayoutDescription(p, row.taskId);
            AdoptFound(l, x, p, row, i).1.duplicates <==> TwoLive(x, description, row.claim.value) || LiveTwin(x, description, row.claim.value, i)
  {
  }

  /** The adoption flags a live twin as well. */
  lemma AdoptedTwinIsFlagged(l: Ledger, x: View, p: nat, i: nat)
    requires Unpinned(l, p) && l.rows[p].claim.Some? && AllRead(x) && IdsFit(x)
    requires NewestAlive(x, i, p, l.rows[p], l.rows[p].claim.value) && x.proposals[i].status != ProposalStatus.Failed
    ensures Reconciled(l, x, p, l.rows[p]).1.duplicates <==> OpenTwin(x, p, l.rows[p], l.rows[p].claim.value, i)
  {
    var row := l.rows[p];
    LookupExactly(x, p, row, row.claim.value);
    AdoptionFlags(l, x, p, i);
    TwinIs(x, p, row, row.claim.value, i);
    if TwoLive(x, PayoutDescription(p, row.taskId), row.claim.value) {
      TwoLiveAreTwins(x, p, row, row.claim.value, i);
    }
  }

  /** Adopted without its status being read, the row is pinned and no more. */
  lemma AdoptedUnread(l: Ledger, x: View, p: nat, i: nat)
    requires Unpinned(l, p) && l.rows[p].claim.Some? && x.windowOk && IdsFit(x) && !(x.proposalOk && x.policyOk)
    requires NewestAlive(x, i, p, l.rows[p], l.rows[p].claim.value)
    ensures var row, out := l.rows[p], Reconciled(l, x, p, l.rows[p]);
            && out.0 == l.(rows := l.rows[p := row.(status := PayoutStatus.Proposed, proposalId := Some(i), attention := false, updatedAt := x.now)])
            && !out.1.ok
  {
    LookupExactly(x, p, l.rows[p], l.rows[p].claim.value);
  }

  /** Without one the row waits, expires or heals by its age; unless the window does
      not reach the first proposal, or could not be read. */
  lemma ClaimedWithoutProposal(l: Ledger, x: View, p: nat)
    requires Unpinned(l, p) && l.rows[p].claim.Some? && (x.windowOk ==> NoneAlive(x, p, l.rows[p], l.rows[p].claim.value))
    ensures var row, out := l.rows[p], Reconciled(l, x, p, l.rows[p]);
            var age := x.now - row.updatedAt;
            if !x.windowOk || |x.proposals| > 1000 then LeftAlone(l, out)
            else if row.status == PayoutStatus.Pending then
              && out.0 == (if age > 48 * 60 * 60 * 1000 then l.(rows := l.rows[p := Cleared(row, row.attention, x.now)]) else l)
              && Says(out.1, PayoutStatus.Pending, row.attention, None)
            else if age > 10 * 60 * 1000 then
              && out.0 == l.(rows := l.rows[p := row.(status := PayoutStatus.Pending, attention := false, updatedAt := x.now)])
              && Says(out.1, PayoutStatus.Pending, false, None)
            else LeftAlone(l, out)
  {
    LookupExactly(x, p, l.rows[p], l.rows[p].claim.value);
  }

  /** A pending row without a claim, and a paid one, are what they are. */
  lemma NothingToReconcile(l: Ledger, x: View, p: nat)
    requires p in l.rows
    requires l.rows[p].status == PayoutStatus.Paid || (l.rows[p].status == PayoutStatus.Pending && l.rows[p].proposalId.None? && l.rows[p].claim.None?)
    ensures var row, out := l.rows[p], Reconciled(l, x, p, l.rows[p]);
            out.0 == l && out.1.ok && out.1.status == row.status && out.1.proposalId == row.proposalId
  {
  }

  // ---- A row that has moved on since it was read ----

  /** The report names the row as it is. */
  predicate Names(r: Report, row: Payout) {
    r.ok && r.status == row.status && r.attention == row.attention && r.proposalId == row.proposalId && !r.held
  }

  /** The proposal is executed, or dead and still there. */
  predicate Changes(x: View, id: nat) {
    && id < |x.proposals| && x.proposals[id].status != ProposalStatus.Removed
    && (x.proposals[id].status == ProposalStatus.Approved || Dead(x, x.proposals[id]))
  }

  /** Nothing is written over a row that another pass has moved on from the pin; what
      is to be written is reported as that row stands. */
  lemma MovedOnFromPin(l: Ledger, x: View, p: nat, seen: Payout, id: nat)
    requires p in l.rows && seen.status == PayoutStatus.Proposed && seen.proposalId == Some(id)
    requires !(l.rows[p].status == PayoutStatus.Proposed && l.rows[p].proposalId == Some(id))
    ensures var out := Reconciled(l, x, p, seen);
            && out.0 == l
            && (x.proposalOk && x.policyOk && Changes(x, id) ==> Names(out.1, l.rows[p]))
  {
  }

  /** The same for a claim that is not the one that was read. */
  lemma MovedOnFromClaim(l: Ledger, x: View, p: nat, seen: Payout, i: nat)
    requires p in l.rows && seen.status != PayoutStatus.Paid && seen.proposalId.None? && seen.claim.Some? && x.windowOk
    requires NewestAlive(x, i, p, seen, seen.claim.value)
    requires l.rows[p].status != seen.status || l.rows[p].proposalId.Some? || l.rows[p].claim != seen.claim
    ensures Reconciled(l, x, p, seen).0 == l && Names(Reconciled(l, x, p, seen).1, l.rows[p])
  {
    LookupExactly(x, p, seen, seen.claim.value);
  }

  /** Over a row that is gone nothing is written. */
  lemma GoneIsLeft(l: Ledger, x: View, p: nat, seen: Payout)
    requires p !in l.rows
    ensures Reconciled(l, x, p, seen).0 == l
  {
  }

  // ---- A /pay ----

  ghost predicate PositiveAmount(amount: string) {
    exists n: nat :: n > 0 && amount == Digits(n)
  }

  lemma PositiveIntegerExactly(amount: string)
    ensures PositiveInteger(amount) <==> PositiveAmount(amount)
  {
    if PositiveInteger(amount) {
      LeadingDigitPositive(amount);
      DigitsOfValue(amount);
    }
    if n: nat :| n > 0 && amount == Digits(n) {
      ValueOfDigits(n);
    }
  }

  /** A /pay that is not configured, has no positive whole amount, or names an account
      that cannot be paid leaves everything as it is and says which. */
  lemma PayChecksFirst(l: Ledger, call: Call)
    ensures !call.configured ==> Pay(l, call) == PayOutcome(l, false, Err(NotConfigured))
    ensures call.configured && !PositiveAmount(call.request.amount) ==> Pay(l, call) == PayOutcome(l, false, Err(BadAmount))
    ensures call.configured && PositiveAmount(call.request.amount) && !call.payable ==>
              Pay(l, call) == PayOutcome(l, false, Err(AccountNotPayable))
  {
    PositiveIntegerExactly(call.request.amount);
  }

  ghost predicate Checked(call: Call) {
    call.configured && PositiveAmount(call.request.amount) && call.payable
  }

  /** A pending row whose claim, if it remembers one, has nothing alive on the chain
      and is the one asked for or past its memory. */
  predicate FreeToClaim(x: View, p: nat, row: Payout, request: Claim) {
    && row.status == PayoutStatus.Pending
    && (row.claim.Some? ==>
          && NoneAlive(x, p, row, row.claim.value)
          && (row.claim.value == request || x.now - row.updatedAt > 48 * 60 * 60 * 1000))
  }

  /** Nothing open on the chain carries the payout's description. */
  predicate NothingOpen(x: View, p: nat, row: Payout) {
    forall i | 0 <= i < |x.proposals| ::
      x.proposals[i].description == "multiagency payout #" + Digits(p) + " task #" + Digits(row.taskId) ==> !Open(x, x.proposals[i])
  }

  lemma LiveLookupExactly(x: View, p: nat, row: Payout, request: Claim)
    requires Complete(x)
    ensures Lookup(x, PayoutDescription(p, row.taskId), request, true).None? && !LiveSameDescription(Page(x), PayoutDescription(p, row.taskId), x.periodMs, x.now)
       <==> NothingOpen(x, p, row)
  {
    PageIs(x);
    var description := PayoutDescription(p, row.taskId);
    forall q: Proposal ensures EffectiveProposalStatus(q, x.periodMs, x.now) == EffectiveStatus.Pending <==> Open(x, q) {
    }
    if NothingOpen(x, p, row) {
      forall k | 0 <= k < |Page(x)| ensures !(Page(x)[k].description == description && Open(x, Page(x)[k])) {
        assert Page(x)[k] == x.proposals[k];
      }
    } else {
      var i :| 0 <= i < |x.proposals| && x.proposals[i].description == description && Open(x, x.proposals[i]);
      assert Page(x)[i] == x.proposals[i];
    }
  }

  /** The scan of a /pay submits exactly over a pending row without a claim in the way,
      off a complete window with nothing open under the description. */
  lemma ScanSubmitsExactly(l: Ledger, call: Call, row: Payout)
    requires call.payout in l.rows && l.rows[call.payout].taskId == row.taskId
    ensures ScanAndClaim(l, call, row.taskId).submitted <==>
              && call.view.windowOk && |call.view.proposals| <= 1000 && call.bondOk && NothingOpen(call.view, call.payout, row)
              && l.rows[call.payout].status == PayoutStatus.Pending && !ConflictingClaim(l.rows[call.payout], call.request)
  {
    if Complete(call.view) {
      LiveLookupExactly(call.view, call.payout, row, call.request);
    }
  }

  /** A /pay submits if and only if it passes its checks, the row is free to claim,
      and a complete window shows nothing open under the payout's description. */
  lemma PaySubmitsExactly(l: Ledger, call: Call)
    requires PendingUnpinned(l, call.payout) && IdsFit(call.view)
    ensures Pay(l, call).submitted <==>
              && Checked(call) && call.payout in l.rows && call.bondOk
              && call.view.windowOk && |call.view.proposals| <= 1000
              && FreeToClaim(call.view, call.payout, l.rows[call.payout], call.request)
              && NothingOpen(call.view, call.payout, l.rows[call.payout])
  {
    PositiveIntegerExactly(call.request.amount);
    var p, x := call.payout, call.view;
    if Checked(call) && p in l.rows && l.rows[p].status != PayoutStatus.Paid {
      var row := l.rows[p];
      if row.status == PayoutStatus.Proposed {
        ScanSubmitsExactly(l, call, row);
      } else {
        PendingPaySubmitsExactly(l, call);
      }
    }
  }

  lemma PendingPaySubmitsExactly(l: Ledger, call: Call)
    requires PendingUnpinned(l, call.payout) && IdsFit(call.view) && Checked(call)
    requires call.payout in l.rows && l.rows[call.payout].status == PayoutStatus.Pending
    ensures Pay(l, call).submitted <==>
              && call.bondOk && call.view.windowOk && |call.view.proposals| <= 1000
              && FreeToClaim(call.view, call.payout, l.rows[call.payout], call.request)
              && NothingOpen(call.view, call.payout, l.rows[call.payout])
  {
    PositiveIntegerExactly(call.request.amount);
    var p, x, row := call.payout, call.view, l.rows[call.payout];
    if row.claim.None? {
      NothingToReconcile(l, x, p);
      ScanSubmitsExactly(l, call, row);
    } else if x.windowOk && !NoneAlive(x, p, row, row.claim.value) {
      AliveIsNotPending(l, x, p);
    } else {
      ClaimedWithoutProposal(l, x, p);
      ScanSubmitsExactly(Reconciled(l, x, p, row).0, call, row);
    }
  }

  /** With something alive a reconcile never reports a claimed row as free. */
  lemma AliveIsNotPending(l: Ledger, x: View, p: nat)
    requires Unpinned(l, p) && l.rows[p].claim.Some? && x.windowOk && IdsFit(x)
    requires !NoneAlive(x, p, l.rows[p], l.rows[p].claim.value)
    ensures !(Reconciled(l, x, p, l.rows[p]).1.ok && Reconciled(l, x, p, l.rows[p]).1.status == PayoutStatus.Pending)
  {
    var row := l.rows[p];
    LookupExactly(x, p, row, row.claim.value);
    FoundIsAlive(x, p, row);
  }

  predicate ReadsBackAs(call: Call, row: Payout) {
    && call.gateway.Answers? && call.gateway.shows.Some?
    && Pays(call.gateway.shows.value, call.payout, row, call.request)
  }

  /** The row as a submit leaves it. */
  function ClaimedRow(call: Call, row: Payout): Payout {
    row.(status := PayoutStatus.Proposed, claim := Some(call.request), attention := false, updatedAt := call.view.now,
         proposalId := if ReadsBackAs(call, row) then Some(call.gateway.id) else None)
  }

  function SubmitAnswer(call: Call, row: Payout): Result<Proposed, Refusal> {
    if call.gateway.Refuses? then Err(SubmitFailed)
    else if ReadsBackAs(call, row) then Ok(Pinned(call.gateway.id))
    else Ok(SubmittedOnly)
  }

  lemma ScanLeaves(l: Ledger, call: Call)
    requires call.payout in l.rows && ScanAndClaim(l, call, l.rows[call.payout].taskId).submitted
    ensures ScanAndClaim(l, call, l.rows[call.payout].taskId) ==
              PayOutcome(l.(rows := l.rows[call.payout := ClaimedRow(call, l.rows[call.payout])]), true, SubmitAnswer(call, l.rows[call.payout]))
  {
  }

  /** What a submit leaves and answers: the row claimed for what was asked, and pinned
      exactly to an answered id that reads back as that. */
  lemma SubmitLeaves(l: Ledger, call: Call)
    requires PendingUnpinned(l, call.payout) && IdsFit(call.view) && Pay(l, call).submitted
    ensures call.payout in l.rows
    ensures Pay(l, call) == PayOutcome(l.(rows := l.rows[call.payout := ClaimedRow(call, l.rows[call.payout])]), true,
                                       SubmitAnswer(call, l.rows[call.payout]))
  {
    PaySubmitsExactly(l, call);
    var p := call.payout;
    StillPending(l, call.view, p);
    var l1 := Reconciled(l, call.view, p, l.rows[p]).0;
    ScanLeaves(l1, call);
    assert l1.rows[p := ClaimedRow(call, l1.rows[p])] == l.rows[p := ClaimedRow(call, l.rows[p])];
  }

  /** The newest proposal of the window that pays the request and is open. */
  predicate NewestOpen(x: View, i: nat, p: nat, row: Payout, request: Claim) {
    && WindowFrom(x) <= i < |x.proposals| && Pays(x.proposals[i], p, row, request) && Open(x, x.proposals[i])
    && forall j | i < j < |x.proposals| :: Pays(x.proposals[j], p, row, request) ==> !Open(x, x.proposals[j])
  }

  lemma OpenIsFound(x: View, i: nat, p: nat, row: Payout, request: Claim)
    requires NewestOpen(x, i, p, row, request)
    ensures Lookup(x, PayoutDescription(p, row.taskId), request, true) == Some(x.proposals[i])
  {
    var description := PayoutDescription(p, row.taskId);
    PageIs(x);
    forall q: Proposal ensures Eligible(q, description, request, true, x.periodMs, x.now) <==> Pays(q, p, row, request) && Open(x, q) {
      EligibleIsAlive(x, q, p, row, request);
    }
    assert Eligible(Page(x)[i - WindowFrom(x)], description, request, true, x.periodMs, x.now);
    var found := Lookup(x, description, request, true);
    var k :| 0 <= k < |Page(x)| && Page(x)[k] == found.value && Eligible(Page(x)[k], description, request, true, x.periodMs, x.now)
             && forall j | k < j < |Page(x)| :: !Eligible(Page(x)[j], description, request, true, x.periodMs, x.now);
    assert x.proposals[WindowFrom(x) + k] == Page(x)[k];
  }

  /** A /pay of a row that is proposed already never submits: it pins a live proposal
      of what was asked to a row without a pin, or names the pin it has. */
  lemma PayOfProposed(l: Ledger, call: Call, i: nat)
    requires Checked(call) && call.view.windowOk && IdsFit(call.view)
    requires call.payout in l.rows && l.rows[call.payout].status == PayoutStatus.Proposed
    requires NewestOpen(call.view, i, call.payout, l.rows[call.payout], call.request)
    ensures var row := l.rows[call.payout];
            Pay(l, call) ==
              if row.proposalId.Some? then PayOutcome(l, false, Ok(Pinned(row.proposalId.value)))
              else if row.claim.Some? && row.claim.value != call.request then PayOutcome(l, false, Err(Conflict))
              else PayOutcome(l.(rows := l.rows[call.payout := row.(claim := Some(call.request), proposalId := Some(i), attention := false,
                                                                    updatedAt := call.view.now)]),
                              false, Ok(Pinned(i)))
  {
    PositiveIntegerExactly(call.request.amount);
    OpenIsFound(call.view, i, call.payout, l.rows[call.payout], call.request);
  }

  /** A pending payout nobody claimed is pinned to an open proposal that pays what is
      asked, instead of submitting another. */
  lemma PayAdoptsOpen(l: Ledger, call: Call, i: nat)
    requires Checked(call) && call.view.windowOk && call.payout in l.rows && l.rows[call.payout].status == PayoutStatus.Pending
    requires l.rows[call.payout].claim.None? && l.rows[call.payout].proposalId.None? && IdsFit(call.view)
    requires NewestOpen(call.view, i, call.payout, l.rows[call.payout], call.request)
    ensures var row := l.rows[call.payout];
            Pay(l, call) == PayOutcome(l.(rows := l.rows[call.payout := row.(status := PayoutStatus.Proposed, claim := Some(call.request),
                                                                             proposalId := Some(i), attention := false, updatedAt := call.view.now)]),
                                       false, Ok(Pinned(i)))
  {
    PositiveIntegerExactly(call.request.amount);
    OpenIsFound(call.view, i, call.payout, l.rows[call.payout], call.request);
  }

  /** A payout whose earlier claim has something alive on the chain gets that instead,
      and the /pay says what became of it. */
  lemma PayOverEarlier(l: Ledger, call: Call, i: nat)
    requires Checked(call) && AllRead(call.view) && IdsFit(call.view) && Unpinned(l, call.payout)
    requires l.rows[call.payout].status == PayoutStatus.Pending && l.rows[call.payout].claim.Some?
    requires NewestAlive(call.view, i, call.payout, l.rows[call.payout], l.rows[call.payout].claim.value)
    ensures var status := call.view.proposals[i].status;
            Pay(l, call) == PayOutcome(Reconciled(l, call.view, call.payout, l.rows[call.payout]).0, false,
                                       Err(if status == ProposalStatus.Approved then EarlierPaid
                                           else if status == ProposalStatus.Failed then EarlierFailed else EarlierLive))
  {
    PositiveIntegerExactly(call.request.amount);
    ClaimedIsAdopted(l, call.view, call.payout, i);
  }

  /** An open proposal of the window carries the payout's description. */
  predicate OpenUnderName(x: View, p: nat, row: Payout) {
    exists i :: WindowFrom(x) <= i < |x.proposals| && Open(x, x.proposals[i])
                && x.proposals[i].description == "multiagency payout #" + Digits(p) + " task #" + Digits(row.taskId)
  }

  predicate NoneOpenPays(x: View, p: nat, row: Payout, request: Claim) {
    forall i | WindowFrom(x) <= i < |x.proposals| :: !(Pays(x.proposals[i], p, row, request) && Open(x, x.proposals[i]))
  }

  lemma NoneOpenIsFound(x: View, p: nat, row: Payout, request: Claim)
    requires NoneOpenPays(x, p, row, request)
    ensures Lookup(x, PayoutDescription(p, row.taskId), request, true).None?
  {
    PageIs(x);
    forall q: Proposal ensures Eligible(q, PayoutDescription(p, row.taskId), request, true, x.periodMs, x.now) <==> Pays(q, p, row, request) && Open(x, q) {
      EligibleIsAlive(x, q, p, row, request);
    }
  }

  lemma OpenUnderNameIs(x: View, p: nat, row: Payout)
    ensures LiveSameDescription(Page(x), PayoutDescription(p, row.taskId), x.periodMs, x.now) <==> OpenUnderName(x, p, row)
  {
    PageIs(x);
    if OpenUnderName(x, p, row) {
      var i :| WindowFrom(x) <= i < |x.proposals| && Open(x, x.proposals[i])
               && x.proposals[i].description == "multiagency payout #" + Digits(p) + " task #" + Digits(row.taskId);
      assert Page(x)[i - WindowFrom(x)] == x.proposals[i];
    }
  }

  /** With nothing open that pays what is asked, what the window shows decides: it
      could not be read, something else is open under the description, it does not
      reach the first proposal; or the payout is being proposed already. */
  lemma PayStopsAtTheChain(l: Ledger, call: Call)
    requires Checked(call) && call.payout in l.rows
    requires || l.rows[call.payout].status == PayoutStatus.Proposed
             || (l.rows[call.payout].status == PayoutStatus.Pending && l.rows[call.payout].claim.None? && l.rows[call.payout].proposalId.None?)
    requires NoneOpenPays(call.view, call.payout, l.rows[call.payout], call.request)
    ensures var row, x := l.rows[call.payout], call.view;
            if !x.windowOk then Pay(l, call) == PayOutcome(l, false, Err(Unreadable))
            else if OpenUnderName(x, call.payout, row) then Pay(l, call) == PayOutcome(l, false, Err(LiveMismatch))
            else if |x.proposals| > 1000 then Pay(l, call) == PayOutcome(l, false, Err(TooManyProposals))
            else row.status == PayoutStatus.Proposed ==> Pay(l, call) == PayOutcome(l, false, Err(AlreadyProposing))
  {
    PositiveIntegerExactly(call.request.amount);
    NoneOpenIsFound(call.view, call.payout, l.rows[call.payout], call.request);
    OpenUnderNameIs(call.view, call.payout, l.rows[call.payout]);
  }

  /** A claim that remembers something else than what is asked is in the way until its
      memory has expired; and a bond that cannot be read leaves the row claimed. */
  lemma PayStopsAtTheRow(l: Ledger, call: Call)
    requires Checked(call) && PendingUnpinned(l, call.payout) && call.payout in l.rows && l.rows[call.payout].status == PayoutStatus.Pending
    requires call.view.windowOk && |call.view.proposals| <= 1000 && NothingOpen(call.view, call.payout, l.rows[call.payout])
    requires l.rows[call.payout].claim.Some? ==> NoneAlive(call.view, call.payout, l.rows[call.payout], l.rows[call.payout].claim.value)
    ensures var row := l.rows[call.payout];
            if row.claim.Some? && row.claim.value != call.request && call.view.now - row.updatedAt <= 48 * 60 * 60 * 1000
            then Pay(l, call) == PayOutcome(l, false, Err(Conflict))
            else !call.bondOk ==>
              Pay(l, call) == PayOutcome(l.(rows := l.rows[call.payout := row.(status := PayoutStatus.Proposed, claim := Some(call.request),
                                                                              attention := false, updatedAt := call.view.now)]),
                                         false, Err(Unreadable))
  {
    var p, x, row := call.payout, call.view, l.rows[call.payout];
    PositiveIntegerExactly(call.request.amount);
    LiveLookupExactly(x, p, row, call.request);
    if row.claim.Some? {
      ClaimedWithoutProposal(l, x, p);
    }
  }

  /** There is nothing to pay for a payout that is gone or paid. */
  lemma NothingToPay(l: Ledger, call: Call)
    requires Checked(call)
    ensures call.payout !in l.rows ==> Pay(l, call) == PayOutcome(l, false, Err(NotFound))
    ensures call.payout in l.rows && l.rows[call.payout].status == PayoutStatus.Paid ==> Pay(l, call) == PayOutcome(l, false, Err(NothingToPropose))
  {
    PositiveIntegerExactly(call.request.amount);
  }
}
