// What the worker does to the whole queue: attempts are bounded and counted exactly,
// sends are paced, and draining comes to an end with every row sent once or given up.
module WorkerLaws {
  import opened Wrappers
  import opened Queue
  import opened Worker

  // ---- A measure ----

  /** The attempts a row still has before the worker gives it up. */
  function Left(row: Note): nat {
    if row.status == Queued && row.attempts < MAX_ATTEMPTS then MAX_ATTEMPTS - row.attempts else 0
  }

  function LeftBelow(rows: map<nat, Note>, n: nat): nat {
    if n == 0 then 0 else LeftBelow(rows, n - 1) + if n - 1 in rows then Left(rows[n - 1]) else 0
  }

  predicate Counted(outcome: Outcome) {
    !outcome.Flood? && !outcome.Migrated?
  }

  /** How often the sender will still flood or migrate before its call `last`. */
  function Disturbances(sender: Sender, from: nat, last: nat): nat
    decreases last - from
  {
    if from >= last then 0 else Disturbances(sender, from + 1, last) + if Counted(sender(from)) then 0 else 1
  }

  /** From call `last` on the sender neither floods nor migrates. */
  ghost predicate CalmFrom(sender: Sender, last: nat) {
    forall n: nat | n >= last :: Counted(sender(n))
  }

  function Measure(m: Mail, sender: Sender, last: nat): nat {
    Disturbances(sender, |m.sends|, last) + LeftBelow(m.table.rows, m.table.nextId)
  }

  // ---- The invariant ----

  /** A row that is still queued has attempts left, and none has more than six. */
  ghost predicate AttemptsOk(t: Table) {
    && Fits(t)
    && forall id | id in t.rows :: t.rows[id].attempts <= MAX_ATTEMPTS && (t.rows[id].status == Queued ==> t.rows[id].attempts < MAX_ATTEMPTS)
  }

  /** Consecutive sends are at least the interval apart. */
  ghost predicate PacedOk(m: Mail, intervalMs: nat) {
    && (forall i | 0 <= i < |m.sends| - 1 :: m.sends[i + 1].at - m.sends[i].at >= intervalMs)
    && (m.sends != [] ==> m.sends[|m.sends| - 1].at <= m.lastSentAt)
  }

  function Hits(sends: seq<Send>, id: nat): nat {
    if sends == [] then 0
    else Hits(sends[..|sends| - 1], id) + if sends[|sends| - 1].id == id && sends[|sends| - 1].outcome == Delivered then 1 else 0
  }

  function Tries(sends: seq<Send>, id: nat): nat {
    if sends == [] then 0
    else Tries(sends[..|sends| - 1], id) + if sends[|sends| - 1].id == id && Counted(sends[|sends| - 1].outcome) then 1 else 0
  }

  function Refusals(sends: seq<Send>, id: nat): nat {
    if sends == [] then 0
    else Refusals(sends[..|sends| - 1], id) + if sends[|sends| - 1].id == id && sends[|sends| - 1].outcome == Permanent then 1 else 0
  }

  /** Against the queue `base` the sends began with: the rows are the same ones, an
      attempt is counted for each send of a row but for floods and redirects, a row
      is sent exactly when it was delivered, once, and given up exactly when a send of it
      failed for good or its attempts ran out, and finished rows are left alone. */
  ghost predicate TallyOk(base: Table, m: Mail) {
    && m.table.rows.Keys == base.rows.Keys && m.table.nextId == base.nextId
    && forall id | id in base.rows :: RowTally(base.rows[id], m.table.rows[id], m.sends, id)
  }

  ghost predicate RowTally(row: Note, now: Note, sends: seq<Send>, id: nat) {
    && now.attempts == row.attempts + Tries(sends, id)
    && now.key == row.key && now.subject == row.subject && now.content == row.content
    && (row.status != Queued ==> now == row && Hits(sends, id) == 0)
    && (row.status == Queued ==> Hits(sends, id) == if now.status == Sent then 1 else 0)
    && (row.status == Queued ==> (now.status == Failed <==> Refusals(sends, id) > 0 || (now.attempts >= MAX_ATTEMPTS && now.status != Sent)))
    && (now.status == Sent && row.status == Queued ==> Refusals(sends, id) == 0)
  }

  // ---- One send ----

  lemma AddSend(sends: seq<Send>, s: Send, id: nat)
    ensures Hits(sends + [s], id) == Hits(sends, id) + if s.id == id && s.outcome == Delivered then 1 else 0
    ensures Tries(sends + [s], id) == Tries(sends, id) + if s.id == id && Counted(s.outcome) then 1 else 0
    ensures Refusals(sends + [s], id) == Refusals(sends, id) + if s.id == id && s.outcome == Permanent then 1 else 0
  {
    assert (sends + [s])[..|sends|] == sends;
  }

  /** The claimed row as it is now, but perhaps for its chat. */
  ghost predicate StillThat(t: Table, id: nat, row: Note) {
    id in t.rows && (t.rows[id].status == Queued ==> t.rows[id].attempts == row.attempts)
  }

  lemma SettleKeepsAttempts(t: Table, id: nat, row: Note, outcome: Outcome, now: int)
    requires AttemptsOk(t) && IsQueued(t, id) && StillThat(t, id, row)
    ensures AttemptsOk(Settle(t, id, row, outcome, now))
  {
  }

  /** Floods and redirects take nothing from any row's budget; every other outcome
      takes exactly one attempt from its own row. */
  lemma SettleCounts(t: Table, id: nat, row: Note, outcome: Outcome, now: int)
    requires AttemptsOk(t) && IsQueued(t, id) && StillThat(t, id, row)
    ensures var t' := Settle(t, id, row, outcome, now);
            && t'.rows.Keys == t.rows.Keys && t'.nextId == t.nextId
            && (forall j | j in t.rows :: t'.rows[j].attempts == t.rows[j].attempts + if j == id && Counted(outcome) then 1 else 0)
            && (forall j | j in t.rows && j != id :: t'.rows[j].status == t.rows[j].status && (Counted(outcome) ==> t'.rows[j] == t.rows[j]))
            && (t'.rows[id].status == Sent <==> outcome == Delivered)
            && (t'.rows[id].status == Failed <==> outcome == Permanent || (outcome == Transient && t.rows[id].attempts + 1 >= MAX_ATTEMPTS))
            && (!Counted(outcome) ==> t'.rows[id].status == Queued)
            && (forall j | j in t.rows && t.rows[j].status != Queued :: t'.rows[j] == t.rows[j])
            && (forall j | j in t.rows :: t'.rows[j].key == t.rows[j].key && t'.rows[j].subject == t.rows[j].subject && t'.rows[j].content == t.rows[j].content)
  {
  }

  lemma {:induction false} LeftSame(a: map<nat, Note>, b: map<nat, Note>, n: nat)
    requires a.Keys == b.Keys && forall j | j in a && j < n :: Left(a[j]) == Left(b[j])
    ensures LeftBelow(a, n) == LeftBelow(b, n)
  {
    if n > 0 {
      LeftSame(a, b, n - 1);
    }
  }

  lemma {:induction false} LeftLess(a: map<nat, Note>, b: map<nat, Note>, id: nat, n: nat)
    requires a.Keys == b.Keys && id in a && id < n
    requires forall j | j in a && j != id :: Left(a[j]) == Left(b[j])
    requires Left(b[id]) < Left(a[id])
    ensures LeftBelow(b, n) < LeftBelow(a, n)
  {
    if id == n - 1 {
      LeftSame(a, b, n - 1);
    } else {
      LeftLess(a, b, id, n - 1);
    }
  }

  /** Every send uses up something: a disturbance of the sender's or an attempt. */
  lemma AttemptUsesUp(m: Mail, id: nat, row: Note, sender: Sender, intervalMs: nat, last: nat)
    requires AttemptsOk(m.table) && IsQueued(m.table, id) && StillThat(m.table, id, row) && CalmFrom(sender, last)
    ensures Measure(Attempt(m, id, row, sender, intervalMs), sender, last) < Measure(m, sender, last)
  {
    var outcome := sender(|m.sends|);
    var now := SlotAt(m, intervalMs);
    var t' := Settle(m.table, id, row, outcome, now);
    SettleCounts(m.table, id, row, outcome, now);
    if Counted(outcome) {
      LeftLess(m.table.rows, t'.rows, id, m.table.nextId);
    } else {
      LeftSame(m.table.rows, t'.rows, m.table.nextId);
      assert |m.sends| < last;
    }
  }

  // ---- What a send keeps ----

  ghost predicate Good(base: Table, m: Mail, intervalMs: nat) {
    AttemptsOk(m.table) && PacedOk(m, intervalMs) && TallyOk(base, m)
  }

  lemma AttemptKeeps(base: Table, m: Mail, id: nat, row: Note, sender: Sender, intervalMs: nat)
    requires Good(base, m, intervalMs) && StillThat(m.table, id, row)
    ensures Good(base, Attempt(m, id, row, sender, intervalMs), intervalMs)
  {
    if IsQueued(m.table, id) {
      var outcome := sender(|m.sends|);
      var now := SlotAt(m, intervalMs);
      SettleKeepsAttempts(m.table, id, row, outcome, now);
      TallyKeeps(base, m, id, row, outcome, now);
      PacingKeeps(m, id, row, sender, intervalMs);
    }
  }

  lemma PacingKeeps(m: Mail, id: nat, row: Note, sender: Sender, intervalMs: nat)
    requires PacedOk(m, intervalMs) && IsQueued(m.table, id)
    ensures PacedOk(Attempt(m, id, row, sender, intervalMs), intervalMs)
  {
  }

  lemma TallyKeeps(base: Table, m: Mail, id: nat, row: Note, outcome: Outcome, now: int)
    requires AttemptsOk(m.table) && TallyOk(base, m) && IsQueued(m.table, id) && StillThat(m.table, id, row)
    ensures TallyOk(base, m.(table := Settle(m.table, id, row, outcome, now), sends := m.sends + [Send(id, row.chat, now, outcome)]))
  {
    SettleCounts(m.table, id, row, outcome, now);
    var t' := Settle(m.table, id, row, outcome, now);
    forall j | j in base.rows ensures RowTally(base.rows[j], t'.rows[j], m.sends + [Send(id, row.chat, now, outcome)], j) {
      AddSend(m.sends, Send(id, row.chat, now, outcome), j);
      assert RowTally(base.rows[j], m.table.rows[j], m.sends, j);
    }
  }

  lemma OthersStillThat(m: Mail, id: nat, row: Note, sender: Sender, intervalMs: nat, j: nat, other: Note)
    requires AttemptsOk(m.table) && StillThat(m.table, id, row) && StillThat(m.table, j, other) && j != id
    ensures StillThat(Attempt(m, id, row, sender, intervalMs).table, j, other)
    ensures IsQueued(m.table, j) ==> IsQueued(Attempt(m, id, row, sender, intervalMs).table, j)
  {
    if IsQueued(m.table, id) {
      SettleCounts(m.table, id, row, sender(|m.sends|), SlotAt(m, intervalMs));
    }
  }

  // ---- A pass ----

  ghost predicate ClaimsHold(m: Mail, due: seq<nat>, claimed: map<nat, Note>) {
    && (forall i, j | 0 <= i < j < |due| :: due[i] < due[j])
    && (forall i | 0 <= i < |due| :: due[i] in claimed && StillThat(m.table, due[i], claimed[due[i]]))
  }

  lemma RestStillHolds(m: Mail, due: seq<nat>, claimed: map<nat, Note>, sender: Sender, intervalMs: nat)
    requires due != [] && AttemptsOk(m.table) && ClaimsHold(m, due, claimed)
    ensures ClaimsHold(m, due[1..], claimed)
    ensures ClaimsHold(Attempt(m, due[0], claimed[due[0]], sender, intervalMs), due[1..], claimed)
  {
    forall i | 0 <= i < |due[1..]|
      ensures StillThat(Attempt(m, due[0], claimed[due[0]], sender, intervalMs).table, due[1..][i], claimed[due[1..][i]])
    {
      OthersStillThat(m, due[0], claimed[due[0]], sender, intervalMs, due[1..][i], claimed[due[1..][i]]);
    }
  }

  lemma {:induction false} PassKeeps(base: Table, m: Mail, due: seq<nat>, claimed: map<nat, Note>, redirected: set<string>,
                                     sender: Sender, intervalMs: nat, last: nat)
    requires Good(base, m, intervalMs) && ClaimsHold(m, due, claimed) && CalmFrom(sender, last)
    ensures var m' := ProcessFrom(m, due, claimed, redirected, sender, intervalMs);
            Good(base, m', intervalMs) && Measure(m', sender, last) <= Measure(m, sender, last)
    decreases due
  {
    if due != [] {
      RestStillHolds(m, due, claimed, sender, intervalMs);
      if claimed[due[0]].chat in redirected {
        PassKeeps(base, m, due[1..], claimed, redirected, sender, intervalMs, last);
      } else {
        var m1 := Attempt(m, due[0], claimed[due[0]], sender, intervalMs);
        AttemptKeeps(base, m, due[0], claimed[due[0]], sender, intervalMs);
        if IsQueued(m.table, due[0]) {
          AttemptUsesUp(m, due[0], claimed[due[0]], sender, intervalMs, last);
        }
        PassKeeps(base, m1, due[1..], claimed, redirected + RedirectedTo(m, m1), sender, intervalMs, last);
      }
    }
  }

  /** A pass that claims anything uses something up. */
  lemma PassUsesUp(base: Table, m: Mail, sender: Sender, intervalMs: nat, last: nat)
    requires Good(base, m, intervalMs) && CalmFrom(sender, last)
    ensures var m' := ProcessDue(m, FarFuture, BATCH, sender, intervalMs);
            && Good(base, m', intervalMs)
            && (ClaimDue(m.table, FarFuture, BATCH) != [] ==> Measure(m', sender, last) < Measure(m, sender, last))
  {
    var due, claimed := ClaimDue(m.table, FarFuture, BATCH), m.table.rows;
    ClaimedRowsExist(m.table, FarFuture, BATCH);
    assert forall i | 0 <= i < |due| :: due[i] in due;
    PassKeeps(base, m, due, claimed, {}, sender, intervalMs, last);
    if due != [] {
      var m1 := Attempt(m, due[0], claimed[due[0]], sender, intervalMs);
      AttemptKeeps(base, m, due[0], claimed[due[0]], sender, intervalMs);
      AttemptUsesUp(m, due[0], claimed[due[0]], sender, intervalMs, last);
      RestStillHolds(m, due, claimed, sender, intervalMs);
      PassKeeps(base, m1, due[1..], claimed, {} + RedirectedTo(m, m1), sender, intervalMs, last);
    }
  }

  // ---- Draining ----

  /** While a row is queued, some row can be claimed: the earliest queued one. */
  lemma {:induction false} EarliestIsClaimable(t: Table, id: nat) returns (first: nat)
    requires IsQueued(t, id)
    ensures first <= id && Claimable(t, first, FarFuture)
    decreases id
  {
    if p: nat :| p < id && IsQueued(t, p) {
      first := EarliestIsClaimable(t, p);
    } else {
      first := id;
      forall p: nat | p < id && p in t.rows ensures t.rows[p].status != Queued {
        assert !IsQueued(t, p);
      }
    }
  }

  lemma QueuedMeansClaimed(t: Table, id: nat)
    requires Fits(t) && IsQueued(t, id)
    ensures ClaimDue(t, FarFuture, BATCH) != []
  {
    var first := EarliestIsClaimable(t, id);
    assert first in ClaimableBelow(t, FarFuture, t.nextId);
  }

  lemma NothingClaimedNothingQueued(t: Table)
    requires Fits(t) && ClaimDue(t, FarFuture, BATCH) == []
    ensures forall id | id in t.rows :: t.rows[id].status != Queued
  {
    forall id | id in t.rows ensures t.rows[id].status != Queued {
      if IsQueued(t, id) {
        QueuedMeansClaimed(t, id);
      }
    }
  }

  lemma {:induction false} DrainKeeps(base: Table, m: Mail, passes: nat, sender: Sender, intervalMs: nat, last: nat)
    requires Good(base, m, intervalMs) && CalmFrom(sender, last)
    ensures Good(base, Drain(m, passes, sender, intervalMs), intervalMs)
    decreases passes
  {
    if passes > 0 {
      DrainOnce(m, passes, sender, intervalMs);
      if ClaimDue(m.table, FarFuture, BATCH) != [] {
        PassUsesUp(base, m, sender, intervalMs, last);
        DrainKeeps(base, ProcessDue(m, FarFuture, BATCH, sender, intervalMs), passes - 1, sender, intervalMs, last);
      }
    }
  }

  /** As many passes as there are disturbances and attempts claim everything. */
  lemma {:induction false} DrainEnds(base: Table, m: Mail, passes: nat, sender: Sender, intervalMs: nat, last: nat)
    requires Good(base, m, intervalMs) && CalmFrom(sender, last) && passes >= Measure(m, sender, last)
    ensures ClaimDue(Drain(m, passes, sender, intervalMs).table, FarFuture, BATCH) == []
    decreases passes
  {
    PassUsesUp(base, m, sender, intervalMs, last);
    if passes > 0 {
      DrainOnce(m, passes, sender, intervalMs);
      if ClaimDue(m.table, FarFuture, BATCH) != [] {
        DrainEnds(base, ProcessDue(m, FarFuture, BATCH, sender, intervalMs), passes - 1, sender, intervalMs, last);
      }
    }
  }

  /** For any sender that floods and migrates finitely often, draining a queue with
      attempts left comes to an end within as many passes as there are disturbances
      and attempts: nothing is queued, every row that was queued has been delivered
      exactly once or given up, given up exactly when a send of it failed for good or
      its six attempts ran out, no row was tried more than six times, each try is
      counted once, floods and redirects never, and all sends were paced. */
  lemma DrainEmptiesTheQueue(t: Table, clock: int, passes: nat, sender: Sender, intervalMs: nat, last: nat)
    requires AttemptsOk(t) && CalmFrom(sender, last)
    requires passes >= Disturbances(sender, 0, last) + LeftBelow(t.rows, t.nextId)
    ensures var m := Drain(Mail(t, clock, 0, []), passes, sender, intervalMs);
            && m.table.rows.Keys == t.rows.Keys
            && (forall id | id in t.rows ::
                  && m.table.rows[id].status != Queued
                  && m.table.rows[id].attempts == t.rows[id].attempts + Tries(m.sends, id) <= MAX_ATTEMPTS
                  && (t.rows[id].status == Queued ==> Hits(m.sends, id) == if m.table.rows[id].status == Sent then 1 else 0)
                  && (t.rows[id].status == Queued ==>
                        (m.table.rows[id].status == Failed <==>
                           Refusals(m.sends, id) > 0 || (t.rows[id].attempts + Tries(m.sends, id) == MAX_ATTEMPTS && Hits(m.sends, id) == 0)))
                  && (t.rows[id].status != Queued ==> m.table.rows[id] == t.rows[id] && Hits(m.sends, id) == 0))
            && (forall i | 0 <= i < |m.sends| - 1 :: m.sends[i + 1].at - m.sends[i].at >= intervalMs)
  {
    var start := Mail(t, clock, 0, []);
    assert TallyOk(t, start);
    DrainKeeps(t, start, passes, sender, intervalMs, last);
    DrainEnds(t, start, passes, sender, intervalMs, last);
    NothingClaimedNothingQueued(Drain(start, passes, sender, intervalMs).table);
    var m := Drain(start, passes, sender, intervalMs);
    forall id | id in t.rows ensures RowTally(t.rows[id], m.table.rows[id], m.sends, id) {
    }
  }
}
