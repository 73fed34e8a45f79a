// What one delivery attempt leaves and what one pass sends, outcome by outcome.
module WorkerExact {
  import opened Wrappers
  import opened Queue
  import opened Worker
  import opened WorkerLaws

  // ---- One attempt ----

  /** How long a row waits after its n-th failure: 5, 10, 20, 40 and 80 seconds. */
  const WAITS: seq<int> := [5_000, 10_000, 20_000, 40_000, 80_000]

  lemma BackoffIs(n: nat)
    requires n < 5
    ensures BackoffMs(n + 1) == WAITS[n] <= 300_000
  {
    assert PowerOfTwo(0) == 1 && PowerOfTwo(1) == 2 && PowerOfTwo(2) == 4 && PowerOfTwo(3) == 8 && PowerOfTwo(4) == 16;
  }

  /** The queue with one row rewritten. */
  predicate OnlyRow(t: Table, t': Table, id: nat, row: Note) {
    id in t.rows && t' == t.(rows := t.rows[id := row])
  }

  /** A delivered row is sent; a permanent failure gives it up at once; a transient one
      has it wait for its next attempt, and gives it up after the sixth; a flood leaves
      the queue as it is. */
  lemma SettleExactly(t: Table, id: nat, row: Note, outcome: Outcome, now: int)
    requires IsQueued(t, id) && t.rows[id].attempts == row.attempts
    ensures var t', was := Settle(t, id, row, outcome, now), t.rows[id];
            && (outcome == Delivered ==> OnlyRow(t, t', id, was.(status := Sent, attempts := was.attempts + 1, updatedAt := now)))
            && (outcome == Permanent ==> OnlyRow(t, t', id, was.(status := Failed, attempts := was.attempts + 1, updatedAt := now)))
            && (outcome == Transient && was.attempts + 1 < 6 ==>
                  OnlyRow(t, t', id, was.(attempts := was.attempts + 1, nextAttemptAt := now + WAITS[was.attempts], updatedAt := now)))
            && (outcome == Transient && was.attempts + 1 >= 6 ==>
                  OnlyRow(t, t', id, was.(status := Failed, attempts := was.attempts + 1, updatedAt := now)))
            && (outcome.Flood? ==> t' == t)
  {
    if row.attempts < 5 {
      BackoffIs(row.attempts);
    }
  }

  /** A migration takes every queued row of the chat along, and nothing else. */
  lemma MigrationExactly(t: Table, id: nat, row: Note, to: string, now: int)
    ensures var t' := Settle(t, id, row, Migrated(to), now);
            && t'.nextId == t.nextId && t'.rows.Keys == t.rows.Keys
            && forall j | j in t.rows ::
                 t'.rows[j] == if t.rows[j].status == Queued && t.rows[j].chat == row.chat
                               then t.rows[j].(chat := to, updatedAt := now) else t.rows[j]
  {
  }

  /** When the slot for the next send comes: now, or once the interval has passed. */
  function Slot(m: Mail, intervalMs: nat): int {
    if m.lastSentAt + intervalMs <= m.clock then m.clock else m.lastSentAt + intervalMs
  }

  /** A queued row is sent once, to the chat it was claimed for, when its slot has
      come; a flood puts the clock and the slot on by what it asks for. */
  lemma AttemptExactly(m: Mail, id: nat, row: Note, sender: Sender, intervalMs: nat)
    ensures var m', at, outcome := Attempt(m, id, row, sender, intervalMs), Slot(m, intervalMs), sender(|m.sends|);
            if !IsQueued(m.table, id) then m' == m.(clock := at, lastSentAt := at)
            else
              && m'.table == Settle(m.table, id, row, outcome, at)
              && m'.sends == m.sends + [Send(id, row.chat, at, outcome)]
              && m'.clock == m'.lastSentAt == at + if outcome.Flood? then outcome.waitMs else 0
  {
  }

  /** So after a flood the next send is the wait and the interval away. */
  lemma FloodIsWaitedOut(m: Mail, id: nat, row: Note, sender: Sender, intervalMs: nat)
    requires IsQueued(m.table, id) && sender(|m.sends|).Flood?
    ensures Slot(Attempt(m, id, row, sender, intervalMs), intervalMs) == Slot(m, intervalMs) + sender(|m.sends|).waitMs + intervalMs
  {
    AttemptExactly(m, id, row, sender, intervalMs);
  }

  /** A queued row is never pruned; a finished one is when it is older than asked. */
  lemma PrunedExactly(t: Table, before: int, id: nat)
    ensures var t' := PruneFinished(t, before);
            && (id in t'.rows <==> id in t.rows && (t.rows[id].status == Queued || t.rows[id].updatedAt >= before))
            && (id in t'.rows ==> t'.rows[id] == t.rows[id]) && t'.nextId == t.nextId
  {
  }

  /** An erasure takes every row to the contributor's chat or about them, sent or not. */
  lemma DeletedExactly(t: Table, chat: string, who: nat, id: nat)
    ensures var t' := DeleteForContributor(t, chat, who);
            && (id in t'.rows <==> id in t.rows && !(t.rows[id].chat == chat || t.rows[id].subject == Some(who)))
            && (id in t'.rows ==> t'.rows[id] == t.rows[id]) && t'.nextId == t.nextId
  {
  }

  // ---- One pass ----

  /** At most as many rows are claimed as asked for: due heads of their chats, and all
      of those unless there are more, and then the oldest. */
  lemma ClaimDueExactly(t: Table, until: Until, limit: nat, id: nat)
    requires Fits(t)
    ensures var due := ClaimDue(t, until, limit);
            && |due| <= limit
            && (id in due ==> Claimable(t, id, until))
            && (Claimable(t, id, until) && id !in due ==> |due| == limit && forall i | 0 <= i < |due| :: due[i] < id)
  {
    var all := ClaimableBelow(t, until, t.nextId);
    if |all| > limit {
      forall j | 0 <= j < limit ensures all[j] in ClaimDue(t, until, limit) {
        assert ClaimDue(t, until, limit)[j] == all[j];
      }
    }
    assert Claimable(t, id, until) ==> id in all;
  }

  /** The sends of `m'` beyond those of `m`. */
  function NewSends(m: Mail, m': Mail): seq<Send>
    requires |m.sends| <= |m'.sends|
  {
    m'.sends[|m.sends|..]
  }

  ghost predicate NoMigration(sender: Sender) {
    forall n: nat :: !sender(n).Migrated?
  }

  ghost predicate AllQueued(t: Table, due: seq<nat>) {
    && (forall i, j | 0 <= i < j < |due| :: due[i] < due[j])
    && (forall i | 0 <= i < |due| :: IsQueued(t, due[i]))
  }

  lemma RestStaysQueued(m: Mail, due: seq<nat>, row: Note, sender: Sender, intervalMs: nat)
    requires due != [] && AllQueued(m.table, due) && !sender(|m.sends|).Migrated?
    ensures AllQueued(Attempt(m, due[0], row, sender, intervalMs).table, due[1..])
  {
    assert forall i | 0 <= i < |due[1..]| :: due[1..][i] == due[i + 1] != due[0];
  }

  /** Without migrations a pass sends every row it claimed, in order, once. */
  lemma {:induction false} PassSendsAll(m: Mail, due: seq<nat>, claimed: map<nat, Note>, sender: Sender, intervalMs: nat)
    requires AllQueued(m.table, due) && NoMigration(sender) && forall id | id in due :: id in claimed
    ensures var m' := ProcessFrom(m, due, claimed, {}, sender, intervalMs);
            && m.sends <= m'.sends && |NewSends(m, m')| == |due|
            && forall i | 0 <= i < |due| :: NewSends(m, m')[i].id == due[i] && NewSends(m, m')[i].chat == claimed[due[i]].chat
    decreases due
  {
    if due != [] {
      var m1 := Attempt(m, due[0], claimed[due[0]], sender, intervalMs);
      AttemptExactly(m, due[0], claimed[due[0]], sender, intervalMs);
      RestStaysQueued(m, due, claimed[due[0]], sender, intervalMs);
      assert {} + RedirectedTo(m, m1) == {};
      PassSendsAll(m1, due[1..], claimed, sender, intervalMs);
      var m' := ProcessFrom(m, due, claimed, {}, sender, intervalMs);
      assert m' == ProcessFrom(m1, due[1..], claimed, {}, sender, intervalMs);
    }
  }

  lemma ProcessDueSendsAll(m: Mail, until: Until, limit: nat, sender: Sender, intervalMs: nat)
    requires NoMigration(sender)
    ensures var m', due := ProcessDue(m, until, limit, sender, intervalMs), ClaimDue(m.table, until, limit);
            && m.sends <= m'.sends && |NewSends(m, m')| == |due|
            && forall i | 0 <= i < |due| :: NewSends(m, m')[i].id == due[i]
  {
    ClaimedRowsExist(m.table, until, limit);
    var due := ClaimDue(m.table, until, limit);
    forall i | 0 <= i < |due| ensures IsQueued(m.table, due[i]) {
      assert due[i] in due;
    }
    PassSendsAll(m, due, m.table.rows, sender, intervalMs);
  }

  /** Nothing goes to these chats, nor to one that gets a redirect on the way. */
  ghost predicate Skips(m: Mail, m': Mail, redirected: set<string>) {
    && m.sends <= m'.sends
    && (forall i | |m.sends| <= i < |m'.sends| :: m'.sends[i].chat !in redirected)
    && (forall i, j | |m.sends| <= i < j < |m'.sends| && m'.sends[i].outcome.Migrated? :: m'.sends[j].chat != m'.sends[i].outcome.to)
  }

  lemma SkipsOn(m: Mail, m1: Mail, m': Mail, redirected: set<string>)
    requires |m1.sends| == |m.sends| + 1 && m.sends <= m1.sends && m1.sends[|m.sends|].chat !in redirected
    requires Skips(m1, m', redirected + RedirectedTo(m, m1))
    ensures Skips(m, m', redirected)
  {
    assert forall i | 0 <= i < |m1.sends| :: m'.sends[i] == m1.sends[i];
  }

  /** A pass sends nothing to a chat that has got a redirect in it. */
  lemma {:induction false} PassSkipsRedirected(m: Mail, due: seq<nat>, claimed: map<nat, Note>, redirected: set<string>, sender: Sender, intervalMs: nat)
    requires forall id | id in due :: id in claimed
    ensures Skips(m, ProcessFrom(m, due, claimed, redirected, sender, intervalMs), redirected)
    decreases due
  {
    if due != [] {
      var row := claimed[due[0]];
      if row.chat in redirected {
        PassSkipsRedirected(m, due[1..], claimed, redirected, sender, intervalMs);
      } else {
        var m1 := Attempt(m, due[0], row, sender, intervalMs);
        AttemptExactly(m, due[0], row, sender, intervalMs);
        PassSkipsRedirected(m1, due[1..], claimed, redirected + RedirectedTo(m, m1), sender, intervalMs);
        if IsQueued(m.table, due[0]) {
          SkipsOn(m, m1, ProcessFrom(m, due, claimed, redirected, sender, intervalMs), redirected);
        } else {
          assert redirected + RedirectedTo(m, m1) == redirected;
        }
      }
    }
  }
}
