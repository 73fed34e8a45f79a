// One reconcile and one /pay of a payout from start to end, as the imperative code
// runs them when nothing interrupts it: reconcilePrimary, lockedPayoutApply and
// proposePayout of src/core/service.ts over the payout table.
module Reconciling {
  import opened Wrappers
  import opened Decimal
  import opened Dao
  import opened Payouts

  /** The payout table and the paid notices enqueued with its writes. */
  datatype Ledger = Ledger(rows: map<nat, Payout>, paidNotices: seq<nat>)

  /** What the DAO and the clock show during the call, and which reads succeed:
      the memoized window, the status read, the counter and the policy. */
  datatype View = View(
    proposals: seq<Proposal>,
    periodMs: nat,
    now: int,
    windowOk: bool,
    proposalOk: bool,
    countOk: bool,
    policyOk: bool)

  /** ProposalChainState: what a reconcile tells its caller. */
  datatype Report = Report(
    ok: bool,
    status: PayoutStatus,
    attention: bool,
    held: bool,
    proposalId: Option<nat>,
    duplicates: bool)

  /** What a locked compare-and-set came to; `Lost` carries the row it read. */
  datatype Cas = Applied | Vanished | Lost(row: Payout)

  function CommittedState(row: Payout): Report {
    Report(true, row.status, row.attention, false, row.proposalId, false)
  }

  function Unsure(seen: Payout, held: bool): Report {
    Report(false, seen.status, false, held, None, false)
  }

  // ---- The window ----

  function WindowFrom(x: View): nat {
    if |x.proposals| > WINDOW then |x.proposals| - WINDOW else 0
  }

  function Page(x: View): seq<Proposal> {
    x.proposals[WindowFrom(x)..]
  }

  predicate Complete(x: View) {
    WindowFrom(x) == 0
  }

  predicate LiveIdentity(x: View, i: nat, description: string, claim: Claim)
    requires i < |Page(x)|
  {
    Eligible(Page(x)[i], description, claim, true, x.periodMs, x.now)
  }

  /** Two live proposals of the window carry the payout's full identity. */
  predicate TwoLive(x: View, description: string, claim: Claim) {
    exists i, j | 0 <= i < j < |Page(x)| :: LiveIdentity(x, i, description, claim) && LiveIdentity(x, j, description, claim)
  }

  /** A live proposal of the window carries it beside the one with this id. */
  predicate LiveTwin(x: View, description: string, claim: Claim, id: nat) {
    exists i | 0 <= i < |Page(x)| :: LiveIdentity(x, i, description, claim) && Page(x)[i].id != id
  }

  function Lookup(x: View, description: string, claim: Claim, liveOnly: bool): Option<Proposal> {
    Adoptable(Page(x), description, claim, liveOnly, x.periodMs, x.now)
  }

  function Gone(x: View, id: nat): bool {
    id >= |x.proposals| || x.proposals[id].status == ProposalStatus.Removed
  }

  // ---- What a reconcile does ----

  function LockedWrite(l: Ledger, p: nat, guard: Payout -> bool, write: Payout -> Payout, notice: bool): (Ledger, Cas) {
    if p !in l.rows then (l, Vanished)
    else if !guard(l.rows[p]) then (l, Lost(l.rows[p]))
    else (Ledger(l.rows[p := write(l.rows[p])], if notice then l.paidNotices + [p] else l.paidNotices), Applied)
  }

  /** The report of a write: the row vanished, somebody else moved it on, or it
      happened and `done` says what it came to. */
  function Told(seen: Payout, cas: Cas, done: Report): Report {
    match cas
    case Vanished => Unsure(seen, false)
    case Lost(row) => CommittedState(row)
    case Applied => done
  }

  function Reconciled(l: Ledger, x: View, p: nat, seen: Payout): (Ledger, Report) {
    if seen.status == PayoutStatus.Paid then (l, Report(true, PayoutStatus.Paid, false, false, seen.proposalId, false))
    else if seen.proposalId.Some? then SettlePin(l, x, p, seen, seen.proposalId.value, seen.status, false)
    else if seen.claim.None? then Unclaimed(l, x, p, seen)
    else if !x.windowOk then (l, Unsure(seen, false))
    else
      var found := Lookup(x, PayoutDescription(p, seen.taskId), seen.claim.value, false);
      if found.Some? then AdoptFound(l, x, p, seen, found.value.id)
      else if !Complete(x) then (l, Unsure(seen, true))
      else if seen.status == PayoutStatus.Pending && x.now - seen.updatedAt > CLAIM_MEMORY_TTL_MS then ExpireMemory(l, x, p, seen)
      else Unclaimed(l, x, p, seen)
  }

  function AdoptFound(l: Ledger, x: View, p: nat, seen: Payout, id: nat): (Ledger, Report)
    requires seen.claim.Some?
  {
    var (l1, cas) := LockedWrite(l, p, (row: Payout) => AdoptGuard(row, seen),
                                 (row: Payout) => MarkProposed(row, Some(id), seen.claim.value, x.now), false);
    if cas != Applied then (l1, Told(seen, cas, Unsure(seen, false)))
    else SettlePin(l1, x, p, seen, id, PayoutStatus.Proposed, TwoLive(x, PayoutDescription(p, seen.taskId), seen.claim.value))
  }

  function ExpireMemory(l: Ledger, x: View, p: nat, seen: Payout): (Ledger, Report) {
    var (l1, cas) := LockedWrite(l, p, (row: Payout) => ExpireGuard(row, seen, x.now),
                                 (row: Payout) => ResetToPending(row, row.attention, false, x.now), false);
    (l1, Told(seen, cas, Report(true, PayoutStatus.Pending, seen.attention, false, None, false)))
  }

  /** No proposal of the row's claim is on the chain, or it has no claim. */
  function Unclaimed(l: Ledger, x: View, p: nat, seen: Payout): (Ledger, Report) {
    if seen.status != PayoutStatus.Proposed then (l, Report(true, seen.status, seen.attention, false, None, false))
    else if x.now - seen.updatedAt > ABANDONED_CLAIM_GRACE_MS then
      var (l1, cas) := LockedWrite(l, p, (row: Payout) => HealGuard(row, x.now), (row: Payout) => ResetToPending(row, false, true, x.now), false);
      (l1, Told(seen, cas, Report(true, PayoutStatus.Pending, false, false, None, false)))
    else (l, Unsure(seen, true))
  }

  function SettlePin(l: Ledger, x: View, p: nat, seen: Payout, id: nat, rowStatus: PayoutStatus, duplicates: bool): (Ledger, Report) {
    if !x.proposalOk then (l, Unsure(seen, false))
    else if Gone(x, id) then
      if !x.countOk || id >= |x.proposals| || x.now - seen.updatedAt <= REMOVED_CONFIRM_GRACE_MS then (l, Unsure(seen, false))
      else Settle(l, x, p, seen, id, EffectiveStatus.Removed, rowStatus, duplicates)
    else if !x.policyOk then (l, Unsure(seen, false))
    else Settle(l, x, p, seen, id, EffectiveProposalStatus(x.proposals[id], x.periodMs, x.now), rowStatus, duplicates)
  }

  predicate TwinBeside(x: View, p: nat, seen: Payout, id: nat, effective: EffectiveStatus) {
    && effective in {EffectiveStatus.Pending, EffectiveStatus.Executed} && seen.claim.Some? && x.windowOk
    && LiveTwin(x, PayoutDescription(p, seen.taskId), seen.claim.value, id)
  }

  function Settle(l: Ledger, x: View, p: nat, seen: Payout, id: nat, effective: EffectiveStatus, rowStatus: PayoutStatus, duplicates: bool): (Ledger, Report) {
    var mapped := ProposalToPayout(effective);
    var flag := duplicates || TwinBeside(x, p, seen, id, effective);
    var report := Report(true, mapped.status, mapped.attention, false, if mapped.reset then None else Some(id), flag);
    if mapped.reset || mapped.status != rowStatus then
      var (l1, cas) := LockedWrite(l, p, (row: Payout) => SettleGuard(row, id), (row: Payout) => Settled(row, mapped, x.now), !mapped.reset);
      (l1, Told(seen, cas, report))
    else (l, report)
  }

  // ---- What a /pay does ----

  datatype Refusal =
    | NotConfigured | BadAmount | AccountNotPayable | NotFound | NothingToPropose | Unverified | EarlierPaid
    | EarlierLive | EarlierFailed | AlreadySettled | LiveMismatch | TooManyProposals | Conflict | AlreadyProposing | SubmitFailed | Unreadable

  datatype Proposed = Pinned(id: nat) | SubmittedOnly

  /** What the gateway answers to a submit, and what a verifying read of the
      answered id shows (None: the read failed or found nothing). */
  datatype Gateway = Refuses | Answers(id: nat, shows: Option<Proposal>)

  /** The pattern ^[1-9]\d*$ */
  predicate PositiveInteger(amount: string) {
    amount != "" && amount[0] != '0' && AllDigits(amount)
  }

  function PayRefusal(report: Report): Option<Refusal> {
    if !report.ok then Some(Unverified)
    else match report.status
      case Paid => Some(EarlierPaid)
      case Proposed => Some(if report.attention then EarlierFailed else EarlierLive)
      case Pending => None
  }

  datatype PayOutcome = PayOutcome(ledger: Ledger, submitted: bool, result: Result<Proposed, Refusal>)

  function Refused(l: Ledger, why: Refusal): PayOutcome {
    PayOutcome(l, false, Err(why))
  }

  /** Everything a /pay is given: which checks pass, the reads, and the gateway. */
  datatype Call = Call(
    payout: nat,
    request: Claim,
    configured: bool,
    payable: bool,
    view: View,
    bondOk: bool,
    gateway: Gateway)

  function Pay(l: Ledger, call: Call): PayOutcome {
    var p := call.payout;
    if !call.configured then Refused(l, NotConfigured)
    else if !PositiveInteger(call.request.amount) then Refused(l, BadAmount)
    else if !call.payable then Refused(l, AccountNotPayable)
    else if p !in l.rows then Refused(l, NotFound)
    else if l.rows[p].status == PayoutStatus.Paid then Refused(l, NothingToPropose)
    else if l.rows[p].status == PayoutStatus.Pending then
      var (l1, report) := Reconciled(l, call.view, p, l.rows[p]);
      var no := PayRefusal(report);
      if no.Some? then Refused(l1, no.value) else ScanAndClaim(l1, call, l.rows[p].taskId)
    else ScanAndClaim(l, call, l.rows[p].taskId)
  }

  function ScanAndClaim(l: Ledger, call: Call, taskId: nat): PayOutcome {
    var x, description := call.view, PayoutDescription(call.payout, taskId);
    if !x.windowOk then Refused(l, Unreadable)
    else
      var adoptable := Lookup(x, description, call.request, true);
      if adoptable.Some? then AdoptLive(l, call, adoptable.value.id)
      else if LiveSameDescription(Page(x), description, x.periodMs, x.now) then Refused(l, LiveMismatch)
      else if !Complete(x) then Refused(l, TooManyProposals)
      else ClaimAndSubmit(l, call, description)
  }

  function AdoptLive(l: Ledger, call: Call, id: nat): PayOutcome {
    var p := call.payout;
    if p !in l.rows || l.rows[p].status == PayoutStatus.Paid then Refused(l, AlreadySettled)
    else if l.rows[p].proposalId.Some? then PayOutcome(l, false, Ok(Pinned(l.rows[p].proposalId.value)))
    else if ConflictingClaim(l.rows[p], call.request) then Refused(l, Conflict)
    else PayOutcome(l.(rows := l.rows[p := MarkProposed(l.rows[p], Some(id), call.request, call.view.now)]), false, Ok(Pinned(id)))
  }

  function ClaimAndSubmit(l: Ledger, call: Call, description: string): PayOutcome {
    var p := call.payout;
    if p !in l.rows then Refused(l, NotFound)
    else if l.rows[p].status == PayoutStatus.Proposed then Refused(l, AlreadyProposing)
    else if l.rows[p].status != PayoutStatus.Pending then Refused(l, NothingToPropose)
    else if ConflictingClaim(l.rows[p], call.request) then Refused(l, Conflict)
    else
      var claimed := l.(rows := l.rows[p := MarkProposed(l.rows[p], None, call.request, call.view.now)]);
      if !call.bondOk then Refused(claimed, Unreadable)
      else match call.gateway
        case Refuses => PayOutcome(claimed, true, Err(SubmitFailed))
        case Answers(id, shows) =>
          if shows.Some? && MatchesPayoutTransfer(shows.value, description, call.request)
          then PayOutcome(LockedWrite(claimed, p, (row: Payout) => PinGuard(row),
                                      (row: Payout) => MarkProposed(row, Some(id), call.request, call.view.now), false).0,
                          true, Ok(Pinned(id)))
          else PayOutcome(claimed, true, Ok(SubmittedOnly))
  }

  // ---- The payout table ----

  class PayoutTable {
    var rows: map<nat, Payout>
    var paidNotices: seq<nat>

    ghost function Contents(): Ledger
      reads this
    {
      Ledger(rows, paidNotices)
    }

    constructor ()
      ensures Contents() == Ledger(map[], [])
    {
      rows := map[];
      paidNotices := [];
    }

    /** The one locked compare-and-set every settlement write goes through. */
    method LockedApply(p: nat, guard: Payout -> bool, write: Payout -> Payout, notice: bool) returns (cas: Cas)
      modifies this
      ensures (Contents(), cas) == LockedWrite(old(Contents()), p, guard, write, notice)
    {
      if p !in rows {
        return Vanished;
      }
      var row := rows[p];
      if !guard(row) {
        return Lost(row);
      }
      rows := rows[p := write(row)];
      if notice {
        paidNotices := paidNotices + [p];
      }
      return Applied;
    }

    method Reconcile(x: View, p: nat, seen: Payout) returns (report: Report)
      modifies this
      ensures (Contents(), report) == Reconciled(old(Contents()), x, p, seen)
    {
      if seen.status == PayoutStatus.Paid {
        return Report(true, PayoutStatus.Paid, false, false, seen.proposalId, false);
      }
      var proposalId := seen.proposalId;
      var duplicateLive := false;
      var rowStatus := seen.status;
      if proposalId == None && seen.claim.Some? {
        if !x.windowOk {
          return Unsure(seen, false);
        }
        var description := PayoutDescription(p, seen.taskId);
        duplicateLive := TwoLive(x, description, seen.claim.value);
        var found := Lookup(x, description, seen.claim.value, false);
        if found.Some? {
          var cas := LockedApply(p, (row: Payout) => AdoptGuard(row, seen),
                                 (row: Payout) => MarkProposed(row, Some(found.value.id), seen.claim.value, x.now), false);
          if cas != Applied {
            return Told(seen, cas, Unsure(seen, false));
          }
          proposalId := Some(found.value.id);
          rowStatus := PayoutStatus.Proposed;
        }
        if proposalId == None && !Complete(x) {
          return Unsure(seen, true);
        }
        if proposalId == None && seen.status == PayoutStatus.Pending && x.now - seen.updatedAt > CLAIM_MEMORY_TTL_MS {
          var cas := LockedApply(p, (row: Payout) => ExpireGuard(row, seen, x.now),
                                 (row: Payout) => ResetToPending(row, row.attention, false, x.now), false);
          return Told(seen, cas, Report(true, PayoutStatus.Pending, seen.attention, false, None, false));
        }
      }
      if proposalId == None {
        if seen.status != PayoutStatus.Proposed {
          return Report(true, seen.status, seen.attention, false, None, false);
        }
        if x.now - seen.updatedAt > ABANDONED_CLAIM_GRACE_MS {
          var cas := LockedApply(p, (row: Payout) => HealGuard(row, x.now),
                                 (row: Payout) => ResetToPending(row, false, true, x.now), false);
          return Told(seen, cas, Report(true, PayoutStatus.Pending, false, false, None, false));
        }
        return Unsure(seen, true);
      }
      report := FollowPin(x, p, seen, proposalId.value, rowStatus, duplicateLive);
    }

    /** The second half of a reconcile: the row is pinned, now or already. */
    method FollowPin(x: View, p: nat, seen: Payout, id: nat, rowStatus: PayoutStatus, duplicates: bool) returns (report: Report)
      modifies this
      ensures (Contents(), report) == SettlePin(old(Contents()), x, p, seen, id, rowStatus, duplicates)
    {
      if !x.proposalOk {
        return Unsure(seen, false);
      }
      var effective;
      if Gone(x, id) {
        if !x.countOk || id >= |x.proposals| || x.now - seen.updatedAt <= REMOVED_CONFIRM_GRACE_MS {
          return Unsure(seen, false);
        }
        effective := EffectiveStatus.Removed;
      } else {
        if !x.policyOk {
          return Unsure(seen, false);
        }
        effective := EffectiveProposalStatus(x.proposals[id], x.periodMs, x.now);
      }
      var duplicateLive := duplicates;
      if !duplicateLive && TwinBeside(x, p, seen, id, effective) {
        duplicateLive := true;
      }
      var mapped := ProposalToPayout(effective);
      report := Report(true, mapped.status, mapped.attention, false, if mapped.reset then None else Some(id), duplicateLive);
      if mapped.reset || mapped.status != rowStatus {
        var cas := LockedApply(p, (row: Payout) => SettleGuard(row, id),
                               (row: Payout) => Settled(row, mapped, x.now), !mapped.reset);
        report := Told(seen, cas, report);
      }
    }

    method ProposePayout(call: Call) returns (submitted: bool, result: Result<Proposed, Refusal>)
      modifies this
      ensures PayOutcome(Contents(), submitted, result) == Pay(old(Contents()), call)
    {
      if !call.configured {
        return false, Err(NotConfigured);
      }
      if !PositiveInteger(call.request.amount) {
        return false, Err(BadAmount);
      }
      if !call.payable {
        return false, Err(AccountNotPayable);
      }
      var p := call.payout;
      if p !in rows {
        return false, Err(NotFound);
      }
      var target := rows[p];
      if target.status == PayoutStatus.Paid {
        return false, Err(NothingToPropose);
      }
      if target.status == PayoutStatus.Pending {
        var report := Reconcile(call.view, p, target);
        var no := PayRefusal(report);
        if no.Some? {
          return false, Err(no.value);
        }
      }
      submitted, result := ProposeAfresh(call, target.taskId);
    }

    /** The scan, the claim, the submit and the pin of a /pay. */
    method ProposeAfresh(call: Call, taskId: nat) returns (submitted: bool, result: Result<Proposed, Refusal>)
      modifies this
      ensures PayOutcome(Contents(), submitted, result) == ScanAndClaim(old(Contents()), call, taskId)
    {
      var p, x := call.payout, call.view;
      var description := PayoutDescription(p, taskId);
      if !x.windowOk {
        return false, Err(Unreadable);
      }
      var adoptable := Lookup(x, description, call.request, true);
      if adoptable.Some? {
        if p !in rows || rows[p].status == PayoutStatus.Paid {
          return false, Err(AlreadySettled);
        }
        if rows[p].proposalId.Some? {
          return false, Ok(Pinned(rows[p].proposalId.value));
        }
        if ConflictingClaim(rows[p], call.request) {
          return false, Err(Conflict);
        }
        rows := rows[p := MarkProposed(rows[p], Some(adoptable.value.id), call.request, x.now)];
        return false, Ok(Pinned(adoptable.value.id));
      }
      if LiveSameDescription(Page(x), description, x.periodMs, x.now) {
        return false, Err(LiveMismatch);
      }
      if !Complete(x) {
        return false, Err(TooManyProposals);
      }
      if p !in rows {
        return false, Err(NotFound);
      }
      if rows[p].status == PayoutStatus.Proposed {
        return false, Err(AlreadyProposing);
      }
      if rows[p].status != PayoutStatus.Pending {
        return false, Err(NothingToPropose);
      }
      if ConflictingClaim(rows[p], call.request) {
        return false, Err(Conflict);
      }
      rows := rows[p := MarkProposed(rows[p], None, call.request, x.now)];
      if !call.bondOk {
        return false, Err(Unreadable);
      }
      if call.gateway.Refuses? {
        return true, Err(SubmitFailed);
      }
      var shows := call.gateway.shows;
      if shows.None? || !MatchesPayoutTransfer(shows.value, description, call.request) {
        return true, Ok(SubmittedOnly);
      }
      var id := call.gateway.id;
      var _ := LockedApply(p, (row: Payout) => PinGuard(row),
                           (row: Payout) => MarkProposed(row, Some(id), call.request, x.now), false);
      return true, Ok(Pinned(id));
    }
  }
}
