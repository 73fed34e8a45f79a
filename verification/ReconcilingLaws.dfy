// What one uninterrupted reconcile and one uninterrupted /pay come to.
module ReconcilingLaws {
  import opened Wrappers
  import opened Dao
  import opened Payouts
  import opened Reconciling

  predicate AllRead(x: View) {
    x.windowOk && x.proposalOk && x.countOk && x.policyOk
  }

  /** The same chain at the same moment, whatever reads succeed. */
  predicate SameMoment(x: View, y: View) {
    x.proposals == y.proposals && x.periodMs == y.periodMs && x.now == y.now
  }

  /** What the row stores is what the report says. */
  predicate Reports(l: Ledger, p: nat, r: Report) {
    p in l.rows && l.rows[p].status == r.status && l.rows[p].proposalId == r.proposalId
  }

  /** The scan hands over proposals under the ids they have on the chain. */
  predicate IdsFit(x: View) {
    forall i | 0 <= i < |x.proposals| :: x.proposals[i].id == i
  }

  predicate PendingUnpinned(l: Ledger, p: nat) {
    p in l.rows && l.rows[p].status == PayoutStatus.Pending ==> l.rows[p].proposalId.None?
  }

  /** The ledger is at rest: no reconcile that runs at this moment writes. */
  predicate AtRest(l: Ledger, x: View, p: nat) {
    p in l.rows && Reconciled(l, x, p, l.rows[p]).0 == l
  }

  // ---- A pinned row ----

  predicate PinnedAt(l: Ledger, p: nat, id: nat) {
    p in l.rows && l.rows[p].status == PayoutStatus.Proposed && l.rows[p].proposalId == Some(id)
  }

  lemma SettleReports(l: Ledger, x: View, p: nat, seen: Payout, id: nat, dup: bool)
    requires PinnedAt(l, p, id) && SettlePin(l, x, p, seen, id, PayoutStatus.Proposed, dup).1.ok
    ensures Reports(SettlePin(l, x, p, seen, id, PayoutStatus.Proposed, dup).0, p,
                    SettlePin(l, x, p, seen, id, PayoutStatus.Proposed, dup).1)
  {
  }

  lemma SettleComesToRest(l: Ledger, x: View, y: View, p: nat, seen: Payout, id: nat, dup: bool)
    requires PinnedAt(l, p, id) && SameMoment(x, y)
    requires SettlePin(l, x, p, seen, id, PayoutStatus.Proposed, dup).1.ok
    ensures AtRest(SettlePin(l, x, p, seen, id, PayoutStatus.Proposed, dup).0, y, p)
  {
  }

  // ---- The whole of a reconcile ----

  /** The row as an adoption leaves it. */
  function Adopted(l: Ledger, x: View, p: nat, id: nat): Ledger
    requires p in l.rows && l.rows[p].claim.Some?
  {
    l.(rows := l.rows[p := MarkProposed(l.rows[p], Some(id), l.rows[p].claim.value, x.now)])
  }

  function FoundIn(x: View, p: nat, row: Payout): Option<Proposal>
    requires row.claim.Some?
  {
    Lookup(x, PayoutDescription(p, row.taskId), row.claim.value, false)
  }

  lemma AdoptSettles(l: Ledger, x: View, p: nat, id: nat)
    requires p in l.rows && l.rows[p].claim.Some? && l.rows[p].proposalId.None?
    ensures exists dup :: AdoptFound(l, x, p, l.rows[p], id) ==
              SettlePin(Adopted(l, x, p, id), x, p, l.rows[p], id, PayoutStatus.Proposed, dup)
  {
    var dup := TwoLive(x, PayoutDescription(p, l.rows[p].taskId), l.rows[p].claim.value);
    assert AdoptFound(l, x, p, l.rows[p], id) == SettlePin(Adopted(l, x, p, id), x, p, l.rows[p], id, PayoutStatus.Proposed, dup);
  }

  lemma AdoptReports(l: Ledger, x: View, p: nat, id: nat)
    requires p in l.rows && l.rows[p].claim.Some? && l.rows[p].proposalId.None?
    requires AdoptFound(l, x, p, l.rows[p], id).1.ok
    ensures Reports(AdoptFound(l, x, p, l.rows[p], id).0, p, AdoptFound(l, x, p, l.rows[p], id).1)
  {
    AdoptSettles(l, x, p, id);
    var dup :| AdoptFound(l, x, p, l.rows[p], id) ==
      SettlePin(Adopted(l, x, p, id), x, p, l.rows[p], id, PayoutStatus.Proposed, dup);
    SettleReports(Adopted(l, x, p, id), x, p, l.rows[p], id, dup);
  }

  /** An ok report of a reconcile that read the row itself names exactly the status
      and the pin the row now stores. */
  lemma OkReportIsExact(l: Ledger, x: View, p: nat)
    requires p in l.rows && PendingUnpinned(l, p) && Reconciled(l, x, p, l.rows[p]).1.ok
    ensures Reports(Reconciled(l, x, p, l.rows[p]).0, p, Reconciled(l, x, p, l.rows[p]).1)
  {
    var row := l.rows[p];
    if row.status != PayoutStatus.Paid {
      if row.proposalId.Some? {
        SettleReports(l, x, p, row, row.proposalId.value, false);
      } else {
        if row.claim.Some? && FoundIn(x, p, row).Some? {
          if x.windowOk {
            AdoptReports(l, x, p, FoundIn(x, p, row).value.id);
          }
        }
      }
    }
  }

  // ---- At rest ----

  lemma AdoptComesToRest(l: Ledger, x: View, y: View, p: nat, id: nat)
    requires p in l.rows && l.rows[p].claim.Some? && l.rows[p].proposalId.None? && SameMoment(x, y)
    requires AdoptFound(l, x, p, l.rows[p], id).1.ok
    ensures AtRest(AdoptFound(l, x, p, l.rows[p], id).0, y, p)
  {
    AdoptSettles(l, x, p, id);
    var dup :| AdoptFound(l, x, p, l.rows[p], id) ==
      SettlePin(Adopted(l, x, p, id), x, p, l.rows[p], id, PayoutStatus.Proposed, dup);
    SettleComesToRest(Adopted(l, x, p, id), x, y, p, l.rows[p], id, dup);
  }

  lemma FoundIsThere(x: View, p: nat, row: Payout)
    requires row.claim.Some? && IdsFit(x) && FoundIn(x, p, row).Some?
    ensures var id := FoundIn(x, p, row).value.id;
            id < |x.proposals| && x.proposals[id].status != ProposalStatus.Removed
  {
    var page := Page(x);
    var i :| 0 <= i < |page| && page[i] == FoundIn(x, p, row).value
             && Eligible(page[i], PayoutDescription(p, row.taskId), row.claim.value, false, x.periodMs, x.now);
    assert page[i] == x.proposals[WindowFrom(x) + i];
  }

  /** With every read answered, what the window showed to adopt is still there. */
  lemma AdoptSucceeds(l: Ledger, x: View, p: nat)
    requires p in l.rows && l.rows[p].claim.Some? && l.rows[p].proposalId.None? && IdsFit(x) && AllRead(x)
    requires FoundIn(x, p, l.rows[p]).Some?
    ensures AdoptFound(l, x, p, l.rows[p], FoundIn(x, p, l.rows[p]).value.id).1.ok
  {
    var id := FoundIn(x, p, l.rows[p]).value.id;
    FoundIsThere(x, p, l.rows[p]);
    AdoptSettles(l, x, p, id);
    var dup :| AdoptFound(l, x, p, l.rows[p], id) ==
      SettlePin(Adopted(l, x, p, id), x, p, l.rows[p], id, PayoutStatus.Proposed, dup);
  }

  lemma PinnedComesToRest(l: Ledger, x: View, y: View, p: nat, id: nat)
    requires PinnedAt(l, p, id) && SameMoment(x, y)
    requires AllRead(x) || SettlePin(l, x, p, l.rows[p], id, PayoutStatus.Proposed, false).1.ok
    ensures AtRest(SettlePin(l, x, p, l.rows[p], id, PayoutStatus.Proposed, false).0, y, p)
  {
    if SettlePin(l, x, p, l.rows[p], id, PayoutStatus.Proposed, false).1.ok {
      SettleComesToRest(l, x, y, p, l.rows[p], id, false);
    }
  }

  lemma ClaimedComesToRest(l: Ledger, x: View, y: View, p: nat)
    requires p in l.rows && l.rows[p].claim.Some? && l.rows[p].proposalId.None? && l.rows[p].status != PayoutStatus.Paid
    requires SameMoment(x, y) && IdsFit(x) && x.windowOk
    requires AllRead(x) || Reconciled(l, x, p, l.rows[p]).1.ok
    ensures AtRest(Reconciled(l, x, p, l.rows[p]).0, y, p)
  {
    var row := l.rows[p];
    if FoundIn(x, p, row).Some? {
      if AllRead(x) {
        AdoptSucceeds(l, x, p);
      }
      AdoptComesToRest(l, x, y, p, FoundIn(x, p, row).value.id);
    }
  }

  /** Against a frozen chain and clock a second reconcile writes nothing, whatever it
      reads, when no read of the first failed or the first reports ok all the same. */
  lemma SecondReconcileWritesNothing(l: Ledger, x: View, y: View, p: nat)
    requires p in l.rows && PendingUnpinned(l, p) && SameMoment(x, y) && IdsFit(x)
    requires AllRead(x) || Reconciled(l, x, p, l.rows[p]).1.ok
    ensures AtRest(Reconciled(l, x, p, l.rows[p]).0, y, p)
  {
    var row := l.rows[p];
    if row.status != PayoutStatus.Paid && row.proposalId.Some? {
      PinnedComesToRest(l, x, y, p, row.proposalId.value);
    } else if row.status != PayoutStatus.Paid && row.claim.Some? && x.windowOk {
      ClaimedComesToRest(l, x, y, p);
    }
  }

  /** With the same reads in both a second reconcile writes nothing, whichever fail. */
  lemma SameReadsComeToRest(l: Ledger, x: View, p: nat)
    requires p in l.rows && PendingUnpinned(l, p) && IdsFit(x)
    ensures AtRest(Reconciled(l, x, p, l.rows[p]).0, x, p)
  {
    var row := l.rows[p];
    if AllRead(x) || Reconciled(l, x, p, row).1.ok {
      SecondReconcileWritesNothing(l, x, x, p);
    } else if row.status != PayoutStatus.Paid && row.proposalId.None? && row.claim.Some? && x.windowOk && FoundIn(x, p, row).Some? {
      FoundIsThere(x, p, row);
    }
  }

  // ---- A /pay ----

  /** A /pay calls the gateway only over a row that was pending, with no other
      claim in the way but one past its memory, off a complete window that shows
      nothing live under the payout's description; and then the row is claimed for
      exactly what was asked, pinned to nothing but a proposal that reads back as it. */
  lemma PaySubmitsOnlyItsOwnClaim(l: Ledger, call: Call)
    requires PendingUnpinned(l, call.payout) && IdsFit(call.view) && Pay(l, call).submitted
    ensures var p, out := call.payout, Pay(l, call).ledger;
            && p in l.rows && l.rows[p].status == PayoutStatus.Pending
            && (ConflictingClaim(l.rows[p], call.request) ==> call.view.now - l.rows[p].updatedAt > CLAIM_MEMORY_TTL_MS)
            && Complete(call.view)
            && (forall i | 0 <= i < |Page(call.view)| && Page(call.view)[i].description == PayoutDescription(p, l.rows[p].taskId) ::
                  EffectiveProposalStatus(Page(call.view)[i], call.view.periodMs, call.view.now) != EffectiveStatus.Pending)
            && p in out.rows && out.rows[p].status == PayoutStatus.Proposed && out.rows[p].claim == Some(call.request)
            && (out.rows[p].proposalId.Some? ==>
                  && call.gateway.Answers? && out.rows[p].proposalId == Some(call.gateway.id) && call.gateway.shows.Some?
                  && MatchesPayoutTransfer(call.gateway.shows.value, PayoutDescription(p, l.rows[p].taskId), call.request))
  {
    var p := call.payout;
    StillPending(l, call.view, p);
    ClaimSubmits(Reconciled(l, call.view, p, l.rows[p]).0, call, l.rows[p].taskId);
  }

  lemma FoundIsAlive(x: View, p: nat, row: Payout)
    requires row.claim.Some? && IdsFit(x) && FoundIn(x, p, row).Some?
    ensures var id := FoundIn(x, p, row).value.id;
            !Gone(x, id) && !ProposalToPayout(EffectiveProposalStatus(x.proposals[id], x.periodMs, x.now)).reset
  {
    FoundIsThere(x, p, row);
    ResetMeansShut(FoundIn(x, p, row).value, x.periodMs, x.now);
    EligibleUnlessShut(FoundIn(x, p, row).value, PayoutDescription(p, row.taskId), row.claim.value, x.periodMs, x.now);
  }

  /** A reconcile of a pending row that reports pending has done nothing, or
      cleared a claim past its memory. */
  lemma StillPending(l: Ledger, x: View, p: nat)
    requires p in l.rows && l.rows[p].status == PayoutStatus.Pending && l.rows[p].proposalId.None? && IdsFit(x)
    requires Reconciled(l, x, p, l.rows[p]).1.ok && Reconciled(l, x, p, l.rows[p]).1.status == PayoutStatus.Pending
    ensures var row, l1 := l.rows[p], Reconciled(l, x, p, l.rows[p]).0;
            || l1 == l
            || (x.now - row.updatedAt > CLAIM_MEMORY_TTL_MS && l1 == l.(rows := l.rows[p := ResetToPending(row, row.attention, false, x.now)]))
  {
    var row := l.rows[p];
    if row.claim.Some? && x.windowOk && FoundIn(x, p, row).Some? {
      var id := FoundIn(x, p, row).value.id;
      FoundIsAlive(x, p, row);
      AdoptSettles(l, x, p, id);
      var dup :| AdoptFound(l, x, p, row, id) == SettlePin(Adopted(l, x, p, id), x, p, row, id, PayoutStatus.Proposed, dup);
    }
  }

  lemma ClaimSubmits(l: Ledger, call: Call, taskId: nat)
    requires ScanAndClaim(l, call, taskId).submitted
    ensures var p, out := call.payout, ScanAndClaim(l, call, taskId).ledger;
            && p in l.rows && l.rows[p].status == PayoutStatus.Pending && !ConflictingClaim(l.rows[p], call.request)
            && Complete(call.view)
            && p in out.rows && out.rows[p].status == PayoutStatus.Proposed && out.rows[p].claim == Some(call.request)
            && (out.rows[p].proposalId.Some? ==>
                  && call.gateway.Answers? && out.rows[p].proposalId == Some(call.gateway.id) && call.gateway.shows.Some?
                  && MatchesPayoutTransfer(call.gateway.shows.value, PayoutDescription(p, taskId), call.request))
  {
  }

  /** Whoever runs /pay next, with whatever it reads, does not submit again: it
      takes a reset of the row in between. */
  lemma NextPayDoesNotSubmit(l: Ledger, call: Call, next: Call)
    requires Pay(l, call).submitted && next.payout == call.payout
    ensures !Pay(Pay(l, call).ledger, next).submitted
  {
    var l1 := if l.rows[call.payout].status == PayoutStatus.Pending
              then Reconciled(l, call.view, call.payout, l.rows[call.payout]).0 else l;
    ClaimSubmits(l1, call, l.rows[call.payout].taskId);
    if ScanAndClaim(Pay(l, call).ledger, next, Pay(l, call).ledger.rows[call.payout].taskId).submitted {
      ClaimSubmits(Pay(l, call).ledger, next, Pay(l, call).ledger.rows[call.payout].taskId);
    }
  }

  /** A /pay that refuses without having claimed leaves what its reconcile left. */
  lemma RefusalLeavesTheRow(l: Ledger, call: Call)
    requires var out := Pay(l, call); out.result.Err? && !out.submitted && call.bondOk
    ensures var p := call.payout;
            || Pay(l, call).ledger == l
            || (p in l.rows && l.rows[p].status == PayoutStatus.Pending
                && Pay(l, call).ledger == Reconciled(l, call.view, p, l.rows[p]).0)
  {
  }

  /** Any id a /pay names is the one its row is pinned to. */
  lemma PayNamesThePin(l: Ledger, call: Call, id: nat)
    requires PendingUnpinned(l, call.payout) && IdsFit(call.view) && Pay(l, call).result == Ok(Pinned(id))
    ensures var p, out := call.payout, Pay(l, call).ledger;
            p in out.rows && out.rows[p].proposalId == Some(id)
  {
    var p := call.payout;
    if l.rows[p].status == PayoutStatus.Pending {
      StillPending(l, call.view, p);
      ScanNamesThePin(Reconciled(l, call.view, p, l.rows[p]).0, call, l.rows[p].taskId, id);
    } else {
      ScanNamesThePin(l, call, l.rows[p].taskId, id);
    }
  }

  lemma ScanNamesThePin(l: Ledger, call: Call, taskId: nat, id: nat)
    requires ScanAndClaim(l, call, taskId).result == Ok(Pinned(id))
    ensures var out := ScanAndClaim(l, call, taskId).ledger;
            call.payout in out.rows && out.rows[call.payout].proposalId == Some(id)
  {
  }
}
