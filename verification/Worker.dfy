// src/bot/worker.ts: one worker drains the queue, one paced send at a time.
module Worker {
  import opened Wrappers
  import opened Queue

  /** What one delivery attempt comes to. */
  datatype Outcome = Delivered | Flood(waitMs: nat) | Migrated(to: string) | Permanent | Transient

  /** What the sender does on its n-th call. */
  type Sender = nat -> Outcome

  datatype Send = Send(id: nat, chat: string, at: int, outcome: Outcome)

  /** The queue, the clock, when the last send was paced, and every send so far. */
  datatype Mail = Mail(table: Table, clock: int, lastSentAt: int, sends: seq<Send>)

  const BATCH: nat := 100
  const MAX_ATTEMPTS: nat := 6
  const BACKOFF_BASE_MS: nat := 5_000
  const BACKOFF_CAP_MS: nat := 300_000

  function PowerOfTwo(n: nat): nat {
    if n == 0 then 1 else 2 * PowerOfTwo(n - 1)
  }

  function BackoffMs(attempt: nat): nat
    requires attempt >= 1
  {
    var ms := BACKOFF_BASE_MS * PowerOfTwo(attempt - 1);
    if ms < BACKOFF_CAP_MS then ms else BACKOFF_CAP_MS
  }

  // ---- One send ----

  /** The clock after waiting for the slot. */
  function SlotAt(m: Mail, intervalMs: nat): int {
    if m.clock - m.lastSentAt < intervalMs then m.lastSentAt + intervalMs else m.clock
  }

  function Paced(m: Mail, intervalMs: nat): Mail {
    var at := SlotAt(m, intervalMs);
    m.(clock := at, lastSentAt := at)
  }

  /** The queue after an attempt at the row as it was claimed. */
  function Settle(t: Table, id: nat, row: Note, outcome: Outcome, now: int): Table {
    match outcome
    case Delivered => MarkSent(t, id, now)
    case Flood(_) => t
    case Migrated(to) => RedirectQueuedChat(t, row.chat, to, now)
    case Permanent => MarkFailed(t, id, now)
    case Transient =>
      if row.attempts + 1 >= MAX_ATTEMPTS then MarkFailed(t, id, now)
      else MarkRetry(t, id, now + BackoffMs(row.attempts + 1), now)
  }

  /** Pace, check that the row is still queued, deliver and record. */
  function Attempt(m: Mail, id: nat, row: Note, sender: Sender, intervalMs: nat): Mail {
    var p := Paced(m, intervalMs);
    if !IsQueued(p.table, id) then p
    else
      var outcome := sender(|p.sends|);
      var s := p.(table := Settle(p.table, id, row, outcome, p.clock), sends := p.sends + [Send(id, row.chat, p.clock, outcome)]);
      if outcome.Flood? then s.(clock := p.clock + outcome.waitMs, lastSentAt := p.clock + outcome.waitMs) else s
  }

  /** The chat a redirect sent the row's backlog to, if that is what happened. */
  function RedirectedTo(m: Mail, m': Mail): set<string> {
    if |m'.sends| > |m.sends| && m'.sends[|m'.sends| - 1].outcome.Migrated? then {m'.sends[|m'.sends| - 1].outcome.to} else {}
  }

  /** The claimed rows in turn; chats that got a redirect this pass are skipped. */
  function ProcessFrom(m: Mail, due: seq<nat>, claimed: map<nat, Note>, redirected: set<string>, sender: Sender, intervalMs: nat): Mail
    requires forall id | id in due :: id in claimed
    decreases due
  {
    if due == [] then m
    else if claimed[due[0]].chat in redirected then ProcessFrom(m, due[1..], claimed, redirected, sender, intervalMs)
    else
      var m1 := Attempt(m, due[0], claimed[due[0]], sender, intervalMs);
      ProcessFrom(m1, due[1..], claimed, redirected + RedirectedTo(m, m1), sender, intervalMs)
  }

  function ProcessDue(m: Mail, until: Until, limit: nat, sender: Sender, intervalMs: nat): Mail {
    ClaimedRowsExist(m.table, until, limit);
    ProcessFrom(m, ClaimDue(m.table, until, limit), m.table.rows, {}, sender, intervalMs)
  }

  lemma ClaimedRowsExist(t: Table, until: Until, limit: nat)
    ensures forall id | id in ClaimDue(t, until, limit) :: id in t.rows && Claimable(t, id, until)
    ensures forall i, j | 0 <= i < j < |ClaimDue(t, until, limit)| :: ClaimDue(t, until, limit)[i] < ClaimDue(t, until, limit)[j]
  {
    var all := ClaimableBelow(t, until, t.nextId);
    forall id | id in ClaimDue(t, until, limit) ensures id in all {
    }
  }

  /** Passes until one claims nothing. */
  function Drain(m: Mail, passes: nat, sender: Sender, intervalMs: nat): Mail
    decreases passes
  {
    if passes == 0 || ClaimDue(m.table, FarFuture, BATCH) == [] then m
    else Drain(ProcessDue(m, FarFuture, BATCH, sender, intervalMs), passes - 1, sender, intervalMs)
  }

  // ---- The worker ----

  class Courier {
    const queue: Notifications
    const sender: Sender
    const intervalMs: nat
    var clock: int
    var lastSentAt: int
    var sends: seq<Send>

    ghost function Contents(): Mail
      reads this, queue
    {
      Mail(queue.Contents(), clock, lastSentAt, sends)
    }

    constructor (queue: Notifications, sender: Sender, intervalMs: nat, now: int)
      ensures this.queue == queue && this.sender == sender && this.intervalMs == intervalMs
      ensures Contents() == Mail(queue.Contents(), now, 0, [])
    {
      this.queue := queue;
      this.sender := sender;
      this.intervalMs := intervalMs;
      clock, lastSentAt, sends := now, 0, [];
    }

    method PaceSend()
      modifies this
      ensures Contents() == Paced(old(Contents()), intervalMs)
    {
      var since := clock - lastSentAt;
      if since < intervalMs {
        clock := clock + (intervalMs - since);
      }
      lastSentAt := clock;
    }

    /** Delivers one claimed row, if it is still queued, and records what came of it. */
    method DeliverOne(id: nat, row: Note) returns (redirect: Option<string>)
      modifies this, queue
      ensures Contents() == Attempt(old(Contents()), id, row, sender, intervalMs)
      ensures RedirectedTo(old(Contents()), Contents()) == if redirect.Some? then {redirect.value} else {}
    {
      PaceSend();
      if id !in queue.rows || queue.rows[id].status != Queued {
        return None;
      }
      var outcome := sender(|sends|);
      sends := sends + [Send(id, row.chat, clock, outcome)];
      var nextAttempt := row.attempts + 1;
      match outcome {
        case Delivered => queue.Sent(id, clock);
        case Flood(waitMs) =>
          clock := clock + waitMs;
          lastSentAt := clock;
        case Migrated(to) =>
          queue.Redirect(row.chat, to, clock);
          return Some(to);
        case Permanent => queue.Failed(id, clock);
        case Transient =>
          if nextAttempt >= MAX_ATTEMPTS {
            queue.Failed(id, clock);
          } else {
            queue.Retry(id, clock + BackoffMs(nextAttempt), clock);
          }
      }
      return None;
    }

    method ProcessDueRows(until: Until, limit: nat) returns (attempted: nat)
      modifies this, queue
      ensures Contents() == ProcessDue(old(Contents()), until, limit, sender, intervalMs)
      ensures attempted == |ClaimDue(old(Contents()).table, until, limit)|
    {
      var claimed := queue.rows;
      var due := queue.Claim(until, limit);
      ClaimedRowsExist(queue.Contents(), until, limit);
      var redirectedTo: set<string> := {};
      for i := 0 to |due|
        invariant ProcessFrom(Contents(), due[i..], claimed, redirectedTo, sender, intervalMs) ==
                  ProcessFrom(old(Contents()), due, claimed, {}, sender, intervalMs)
      {
        assert due[i..][0] == due[i] && due[i..][1..] == due[i + 1..];
        var row := claimed[due[i]];
        if row.chat !in redirectedTo {
          var redirect := DeliverOne(due[i], row);
          if redirect.Some? {
            redirectedTo := redirectedTo + {redirect.value};
          }
          assert redirectedTo + {} == redirectedTo;
        }
      }
      attempted := |due|;
    }

    method DrainNotifications(maxPasses: nat) returns (total: nat)
      modifies this, queue
      ensures Contents() == Drain(old(Contents()), maxPasses, sender, intervalMs)
    {
      total := 0;
      var pass := 0;
      while pass < maxPasses
        invariant pass <= maxPasses
        invariant Drain(Contents(), maxPasses - pass, sender, intervalMs) == Drain(old(Contents()), maxPasses, sender, intervalMs)
      {
        ghost var before := Contents();
        DrainOnce(before, maxPasses - pass, sender, intervalMs);
        var attempted := ProcessDueRows(FarFuture, BATCH);
        if attempted == 0 {
          return;
        }
        total := total + attempted;
        pass := pass + 1;
      }
    }
  }

  lemma DrainOnce(m: Mail, passes: nat, sender: Sender, intervalMs: nat)
    requires passes > 0
    ensures ClaimDue(m.table, FarFuture, BATCH) != [] ==>
              Drain(m, passes, sender, intervalMs) == Drain(ProcessDue(m, FarFuture, BATCH, sender, intervalMs), passes - 1, sender, intervalMs)
    ensures ClaimDue(m.table, FarFuture, BATCH) == [] ==> Drain(m, passes, sender, intervalMs) == m
  {
  }

}
