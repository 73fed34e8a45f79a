// src/core/models/payout.ts and the settlement rules of src/core/service.ts that
// read no more than one payout row and one proposal: the row writers, the guards
// every locked compare-and-set re-checks, and the identity rule of the scan.
module Payouts {
  import opened Wrappers
  import opened Dao

  const ABANDONED_CLAIM_GRACE_MS: int := 10 * 60 * 1000
  const CLAIM_MEMORY_TTL_MS: int := 48 * 60 * 60 * 1000
  const REMOVED_CONFIRM_GRACE_MS: int := 5 * 60 * 1000
  const WINDOW: nat := 1000

  datatype PayoutStatus = Pending | Proposed | Paid

  /** The receiver and amount a payout is claimed for; stored and cleared together. */
  datatype Claim = Claim(receiver: string, amount: string)

  datatype Payout = Payout(
    taskId: nat,
    contributorId: nat,
    status: PayoutStatus,
    claim: Option<Claim>,
    proposalId: Option<nat>,
    attention: bool,
    updatedAt: int)

  // ---- Row writers ----

  function NewPayout(taskId: nat, contributorId: nat, now: int): Payout {
    Payout(taskId, contributorId, PayoutStatus.Pending, None, None, false, now)
  }

  function MarkProposed(row: Payout, proposalId: Option<nat>, claim: Claim, now: int): Payout {
    row.(status := PayoutStatus.Proposed, proposalId := proposalId, claim := Some(claim), attention := false, updatedAt := now)
  }

  function MarkPaid(row: Payout, now: int): Payout {
    row.(status := PayoutStatus.Paid, updatedAt := now)
  }

  function ResetToPending(row: Payout, attention: bool, keepClaim: bool, now: int): Payout {
    row.(status := PayoutStatus.Pending, proposalId := None, claim := if keepClaim then row.claim else None,
         attention := attention, updatedAt := now)
  }

  // ---- The guards re-checked on the locked row ----

  predicate AdoptGuard(row: Payout, seen: Payout) {
    row.status == seen.status && row.proposalId.None? && row.claim == seen.claim
  }

  predicate ExpireGuard(row: Payout, seen: Payout, now: int) {
    && row.status == PayoutStatus.Pending && row.proposalId.None? && row.claim == seen.claim
    && now - row.updatedAt > CLAIM_MEMORY_TTL_MS
  }

  predicate HealGuard(row: Payout, now: int) {
    row.status == PayoutStatus.Proposed && row.proposalId.None? && now - row.updatedAt > ABANDONED_CLAIM_GRACE_MS
  }

  predicate SettleGuard(row: Payout, proposalId: nat) {
    row.status == PayoutStatus.Proposed && row.proposalId == Some(proposalId)
  }

  predicate PinGuard(row: Payout) {
    row.status == PayoutStatus.Proposed && row.proposalId.None?
  }

  /** assertNoConflictingClaim: an unresolved claim for something else is in the way. */
  predicate ConflictingClaim(row: Payout, request: Claim) {
    row.claim.Some? && row.claim.value != request
  }

  // ---- The settlement rule ----

  datatype Mapped = Mapped(status: PayoutStatus, reset: bool, attention: bool)

  function ProposalToPayout(effective: EffectiveStatus): Mapped {
    match effective
    case Executed => Mapped(PayoutStatus.Paid, false, false)
    case Failed => Mapped(PayoutStatus.Proposed, false, true)
    case Rejected => Mapped(PayoutStatus.Pending, true, true)
    case Removed => Mapped(PayoutStatus.Pending, true, true)
    case Expired => Mapped(PayoutStatus.Pending, true, false)
    case Moved => Mapped(PayoutStatus.Pending, true, false)
    case Pending => Mapped(PayoutStatus.Proposed, false, false)
  }

  /** The rule resets a payout exactly when the bot reads its proposal as dead. */
  lemma ResetMeansShut(p: Proposal, periodMs: nat, nowMs: int)
    ensures ProposalToPayout(EffectiveProposalStatus(p, periodMs, nowMs)).reset <==> Shut(p, periodMs, nowMs)
  {
  }

  /** The row after a transition the chain justifies. */
  function Settled(row: Payout, mapped: Mapped, now: int): Payout {
    if mapped.reset then ResetToPending(row, mapped.attention, false, now) else MarkPaid(row, now)
  }

  // ---- Identity and scan ----

  /** The proposal pays exactly this receiver and this amount, in the native
      token, under exactly this description. */
  predicate MatchesPayoutTransfer(p: Proposal, description: string, claim: Claim) {
    p.description == description && p.kind == Transfer("", claim.receiver, claim.amount)
  }

  predicate Eligible(p: Proposal, description: string, claim: Claim, liveOnly: bool, periodMs: nat, at: int) {
    && MatchesPayoutTransfer(p, description, claim)
    && var s := EffectiveProposalStatus(p, periodMs, at);
       if liveOnly then s == EffectiveStatus.Pending
       else s in {EffectiveStatus.Pending, EffectiveStatus.Executed, EffectiveStatus.Failed}
  }

  /** The newest proposal of the page that is safe to pin. */
  function Adoptable(page: seq<Proposal>, description: string, claim: Claim, liveOnly: bool, periodMs: nat, at: int): (r: Option<Proposal>)
    ensures r.Some? ==> exists i :: (
      && 0 <= i < |page| && page[i] == r.value
      && Eligible(page[i], description, claim, liveOnly, periodMs, at)
      && forall j | i < j < |page| :: !Eligible(page[j], description, claim, liveOnly, periodMs, at))
    ensures r.None? ==> forall i | 0 <= i < |page| :: !Eligible(page[i], description, claim, liveOnly, periodMs, at)
  {
    if page == [] then None
    else
      var newest := page[|page| - 1];
      if Eligible(newest, description, claim, liveOnly, periodMs, at) then Some(newest)
      else Adoptable(page[..|page| - 1], description, claim, liveOnly, periodMs, at)
  }

  /** Some still-approvable proposal carries the description, whatever it pays. */
  predicate LiveSameDescription(page: seq<Proposal>, description: string, periodMs: nat, at: int) {
    exists i :: 0 <= i < |page| && page[i].description == description
                && EffectiveProposalStatus(page[i], periodMs, at) == EffectiveStatus.Pending
  }

  /** A reconcile adopts exactly what it would not call dead. */
  lemma EligibleUnlessShut(p: Proposal, description: string, claim: Claim, periodMs: nat, at: int)
    ensures Eligible(p, description, claim, false, periodMs, at)
       <==> MatchesPayoutTransfer(p, description, claim) && !Shut(p, periodMs, at)
    ensures Eligible(p, description, claim, true, periodMs, at) ==> Eligible(p, description, claim, false, periodMs, at)
  {
  }
}
