// src/near/dao.ts: the proposals of the treasury DAO, how the bot reads their
// status, and the description that ties a proposal to a payout.
module Dao {
  import opened Decimal

  /** A proposal's status on the chain. A lapsed proposal stays InProgress until
      somebody finalizes it; a removed one is deleted from storage, so `Removed`
      here marks an id that no longer reads back. */
  datatype ProposalStatus = InProgress | Approved | Rejected | Removed | Expired | Moved | Failed

  datatype Kind = Transfer(tokenId: string, receiverId: string, amount: string) | OtherKind

  /** `roundingMs` is the fixed error of converting this proposal's nanosecond
      window to milliseconds in floating point. */
  datatype Proposal = Proposal(
    id: nat,
    description: string,
    kind: Kind,
    status: ProposalStatus,
    submittedMs: int,
    roundingMs: int)

  datatype EffectiveStatus = Executed | Failed | Rejected | Removed | Moved | Expired | Pending

  // How far past the on-chain window the bot waits before it calls a proposal expired.
  const EXPIRY_GRACE_MS: int := 5 * 60 * 1000

  function EffectiveProposalStatus(p: Proposal, periodMs: nat, nowMs: int): EffectiveStatus {
    match p.status
    case Approved => EffectiveStatus.Executed
    case Failed => EffectiveStatus.Failed
    case Rejected => EffectiveStatus.Rejected
    case Removed => EffectiveStatus.Removed
    case Moved => EffectiveStatus.Moved
    case Expired => EffectiveStatus.Expired
    case InProgress =>
      if p.submittedMs + periodMs + EXPIRY_GRACE_MS + p.roundingMs < nowMs
      then EffectiveStatus.Expired else EffectiveStatus.Pending
  }

  /** The bot reads the proposal as dead: it will neither adopt nor keep it. */
  predicate Shut(p: Proposal, periodMs: nat, nowMs: int) {
    EffectiveProposalStatus(p, periodMs, nowMs) in
      {EffectiveStatus.Rejected, EffectiveStatus.Removed, EffectiveStatus.Moved, EffectiveStatus.Expired}
  }

  /** What the DAO itself allows: votes count only inside the window, a failed
      transfer can be finalized again, and an executed proposal is final. */
  predicate MayBecome(p: Proposal, status: ProposalStatus, periodMs: nat, chainNowMs: int) {
    match p.status
    case InProgress =>
      && status != ProposalStatus.InProgress
      && (status in {ProposalStatus.Approved, ProposalStatus.Failed} ==> chainNowMs <= p.submittedMs + periodMs)
    case Failed => status in {ProposalStatus.Approved, ProposalStatus.Failed, ProposalStatus.Removed}
    case Rejected => status == ProposalStatus.Removed
    case Expired => status == ProposalStatus.Removed
    case Moved => status == ProposalStatus.Removed
    case Approved => false
    case Removed => false
  }

  /** A proposal the bot calls dead can never be executed on the chain any more,
      while the bot's clock leads the chain's by no more than the grace allows. */
  lemma ShutIsForGood(p: Proposal, status: ProposalStatus, periodMs: nat, nowMs: int, chainNowMs: int, leadMs: int)
    requires Shut(p, periodMs, nowMs) && MayBecome(p, status, periodMs, chainNowMs)
    requires nowMs <= chainNowMs + leadMs && leadMs <= EXPIRY_GRACE_MS + p.roundingMs
    ensures status != ProposalStatus.Approved && status != ProposalStatus.Failed
    ensures Shut(p.(status := status), periodMs, nowMs)
  {
  }

  const DESCRIPTION_HEAD := "multiagency payout #"
  const DESCRIPTION_MIDDLE := " task #"

  function PayoutDescription(payoutId: nat, taskId: nat): string {
    DESCRIPTION_HEAD + Digits(payoutId) + DESCRIPTION_MIDDLE + Digits(taskId)
  }

  /** Equal descriptions name the same payout and the same task, so no proposal
      can belong to two payouts. */
  lemma DescriptionInjective(p: nat, t: nat, p': nat, t': nat)
    requires PayoutDescription(p, t) == PayoutDescription(p', t')
    ensures p == p' && t == t'
  {
    NumeralEndsAtSpace(Digits(p), Digits(t), Digits(p'), Digits(t'));
    DigitsInjective(p, p');
    DigitsInjective(t, t');
  }

  lemma NumeralEndsAtSpace(a: string, b: string, a': string, b': string)
    requires AllDigits(a) && AllDigits(a')
    requires DESCRIPTION_HEAD + a + DESCRIPTION_MIDDLE + b == DESCRIPTION_HEAD + a' + DESCRIPTION_MIDDLE + b'
    ensures a == a' && b == b'
  {
    var n := |DESCRIPTION_HEAD|;
    var s := DESCRIPTION_HEAD + a + DESCRIPTION_MIDDLE + b;
    var s' := DESCRIPTION_HEAD + a' + DESCRIPTION_MIDDLE + b';
    assert s[n + |a|] == ' ' && s'[n + |a'|] == ' ';
    assert forall i | 0 <= i < |a| :: s[n + i] == a[i];
    assert forall i | 0 <= i < |a'| :: s'[n + i] == a'[i];
    assert |a| == |a'|;
    assert a == s[n..n + |a|] == a';
    assert b == s[n + |a| + |DESCRIPTION_MIDDLE|..] == b';
  }
}
