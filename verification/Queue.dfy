// src/core/models/notification.ts: the outbound queue. One row is one message the
// bot pushes; the earliest queued row of a chat is the only one that can be claimed.
module Queue {
  import opened Wrappers

  datatype NoteStatus = Queued | Sent | Failed

  /** What a producer hands over; the rendered content stands for itself. */
  datatype NewNote = NewNote(key: string, chat: string, subject: Option<nat>, content: string)

  datatype Note = Note(
    key: string,
    chat: string,
    subject: Option<nat>,
    content: string,
    status: NoteStatus,
    attempts: nat,
    nextAttemptAt: int,
    updatedAt: int)

  /** The table by id; ids grow. */
  datatype Table = Table(rows: map<nat, Note>, nextId: nat)

  /** The moment a claim is made for; FarFuture makes every backoff elapsed. */
  datatype Until = Moment(at: int) | FarFuture

  const ENQUEUE_CHUNK: nat := 500

  // ---- Adding ----

  predicate HasKey(t: Table, key: string) {
    exists id :: id in t.rows && t.rows[id].key == key
  }

  /** A second row with the same key is not added. */
  function Enqueue(t: Table, n: NewNote, now: int): Table {
    if HasKey(t, n.key) then t
    else Table(t.rows[t.nextId := Note(n.key, n.chat, n.subject, n.content, Queued, 0, now, now)], t.nextId + 1)
  }

  function EnqueueAll(t: Table, notes: seq<NewNote>, now: int): Table {
    if notes == [] then t
    else Enqueue(EnqueueAll(t, notes[..|notes| - 1], now), notes[|notes| - 1], now)
  }

  // ---- Claiming ----

  predicate IsQueued(t: Table, id: nat) {
    id in t.rows && t.rows[id].status == Queued
  }

  predicate IsDue(row: Note, until: Until) {
    until.FarFuture? || row.nextAttemptAt <= until.at
  }

  /** No earlier row of the same chat is still queued. */
  predicate IsHead(t: Table, id: nat)
    requires id in t.rows
  {
    forall p: nat | p < id && p in t.rows && t.rows[p].chat == t.rows[id].chat :: t.rows[p].status != Queued
  }

  predicate Claimable(t: Table, id: nat, until: Until) {
    IsQueued(t, id) && IsDue(t.rows[id], until) && IsHead(t, id)
  }

  /** The claimable ids below `n`, oldest first. */
  function ClaimableBelow(t: Table, until: Until, n: nat): (r: seq<nat>)
    ensures forall id: nat :: id in r <==> id < n && Claimable(t, id, until)
    ensures forall i, j | 0 <= i < j < |r| :: r[i] < r[j]
  {
    if n == 0 then []
    else
      var rest := ClaimableBelow(t, until, n - 1);
      assert forall i | 0 <= i < |rest| :: rest[i] in rest;
      if Claimable(t, n - 1, until) then rest + [n - 1] else rest
  }

  /** The rows delivered next, as they are when they are claimed. */
  function ClaimDue(t: Table, until: Until, limit: nat): seq<nat> {
    var all := ClaimableBelow(t, until, t.nextId);
    if |all| <= limit then all else all[..limit]
  }

  // ---- Delivery outcomes ----

  function SetRow(t: Table, id: nat, row: Note): Table {
    t.(rows := t.rows[id := row])
  }

  function MarkSent(t: Table, id: nat, now: int): Table {
    if id in t.rows then SetRow(t, id, t.rows[id].(status := Sent, attempts := t.rows[id].attempts + 1, updatedAt := now)) else t
  }

  function MarkRetry(t: Table, id: nat, nextAttemptAt: int, now: int): Table {
    if id in t.rows
    then SetRow(t, id, t.rows[id].(attempts := t.rows[id].attempts + 1, nextAttemptAt := nextAttemptAt, updatedAt := now))
    else t
  }

  function MarkFailed(t: Table, id: nat, now: int): Table {
    if id in t.rows then SetRow(t, id, t.rows[id].(status := Failed, attempts := t.rows[id].attempts + 1, updatedAt := now)) else t
  }

  /** Every queued row of the old chat goes to the new one; finished rows stay. */
  function RedirectRow(row: Note, from: string, to: string, now: int): Note {
    if row.chat == from && row.status == Queued then row.(chat := to, updatedAt := now) else row
  }

  function RedirectQueuedChat(t: Table, from: string, to: string, now: int): Table {
    t.(rows := map id | id in t.rows :: RedirectRow(t.rows[id], from, to, now))
  }

  function PruneFinished(t: Table, before: int): Table {
    t.(rows := map id | id in t.rows && !(t.rows[id].status != Queued && t.rows[id].updatedAt < before) :: t.rows[id])
  }

  /** Every row addressed to the chat or about the contributor, whatever its status. */
  function DeleteForContributor(t: Table, chat: string, who: nat): Table {
    t.(rows := map id | id in t.rows && t.rows[id].chat != chat && t.rows[id].subject != Some(who) :: t.rows[id])
  }

  // ---- What the operations keep ----

  ghost predicate Fits(t: Table) {
    && (forall id | id in t.rows :: id < t.nextId)
    && (forall i, j | i in t.rows && j in t.rows && t.rows[i].key == t.rows[j].key :: i == j)
  }

  lemma EnqueueFits(t: Table, n: NewNote, now: int)
    requires Fits(t)
    ensures Fits(Enqueue(t, n, now)) && HasKey(Enqueue(t, n, now), n.key)
    ensures forall id | id in t.rows :: id in Enqueue(t, n, now).rows && Enqueue(t, n, now).rows[id] == t.rows[id]
  {
    if !HasKey(t, n.key) {
      assert t.nextId in Enqueue(t, n, now).rows;
    }
  }

  ghost predicate MadeFrom(row: Note, notes: seq<NewNote>, k: nat)
    requires k < |notes|
  {
    && notes[k].key == row.key && notes[k].chat == row.chat && notes[k].subject == row.subject && notes[k].content == row.content
    && forall j | 0 <= j < k :: notes[j].key != row.key
  }

  /** Due at once, and what the first of the batch with its key says. */
  ghost predicate NewRow(t: Table, row: Note, notes: seq<NewNote>, now: int) {
    && row.status == Queued && row.attempts == 0 && row.nextAttemptAt == row.updatedAt == now && !HasKey(t, row.key)
    && exists k: nat :: k < |notes| && MadeFrom(row, notes, k)
  }

  /** What was there is kept, every key is there once, and each key of the batch that
      was not there has one queued row: a repeat in the batch adds nothing. */
  ghost predicate FannedOut(t: Table, t': Table, notes: seq<NewNote>, now: int) {
    && Fits(t') && t.nextId <= t'.nextId
    && (forall id | id in t.rows :: id in t'.rows && t'.rows[id] == t.rows[id])
    && (forall k | 0 <= k < |notes| :: HasKey(t', notes[k].key))
    && (forall id: nat | t.nextId <= id < t'.nextId :: id in t'.rows && NewRow(t, t'.rows[id], notes, now))
    && (forall id | id in t'.rows :: id in t.rows || t.nextId <= id)
  }

  lemma {:induction false} FanOutAddsEachKeyOnce(t: Table, notes: seq<NewNote>, now: int)
    requires Fits(t)
    ensures FannedOut(t, EnqueueAll(t, notes, now), notes, now)
  {
    if notes != [] {
      FanOutAddsEachKeyOnce(t, notes[..|notes| - 1], now);
      FanOutOneMore(t, EnqueueAll(t, notes[..|notes| - 1], now), notes, now);
    }
  }

  lemma FanOutOneMore(t: Table, t1: Table, notes: seq<NewNote>, now: int)
    requires Fits(t) && notes != [] && FannedOut(t, t1, notes[..|notes| - 1], now)
    ensures FannedOut(t, Enqueue(t1, notes[|notes| - 1], now), notes, now)
  {
    var n := notes[|notes| - 1];
    var t' := Enqueue(t1, n, now);
    EnqueueFits(t1, n, now);
    forall k | 0 <= k < |notes| ensures HasKey(t', notes[k].key) {
      KeyStaysOrComes(t1, t', notes, now, k);
    }
    forall id: nat | t.nextId <= id < t'.nextId ensures id in t'.rows && NewRow(t, t'.rows[id], notes, now) {
      RowIsFromBatch(t, t1, t', notes, now, id);
    }
  }

  lemma KeyStaysOrComes(t1: Table, t': Table, notes: seq<NewNote>, now: int, k: nat)
    requires k < |notes| && Fits(t1) && t' == Enqueue(t1, notes[|notes| - 1], now)
    requires k < |notes| - 1 ==> HasKey(t1, notes[k].key)
    ensures HasKey(t', notes[k].key)
  {
    EnqueueFits(t1, notes[|notes| - 1], now);
    if k < |notes| - 1 {
      var id :| id in t1.rows && t1.rows[id].key == notes[k].key;
      assert id in t'.rows;
    }
  }

  lemma RowIsFromBatch(t: Table, t1: Table, t': Table, notes: seq<NewNote>, now: int, id: nat)
    requires Fits(t) && notes != [] && FannedOut(t, t1, notes[..|notes| - 1], now)
    requires t' == Enqueue(t1, notes[|notes| - 1], now) && t.nextId <= id < t'.nextId
    ensures id in t'.rows && NewRow(t, t'.rows[id], notes, now)
  {
    var before := notes[..|notes| - 1];
    if id < t1.nextId {
      assert NewRow(t, t1.rows[id], before, now);
      var k: nat :| k < |before| && MadeFrom(t1.rows[id], before, k);
      assert MadeFrom(t'.rows[id], notes, k);
    } else {
      assert forall j | 0 <= j < |before| :: before[j].key != notes[|notes| - 1].key;
      assert MadeFrom(t'.rows[id], notes, |notes| - 1);
    }
  }

  // ---- The table ----

  class Notifications {
    var rows: map<nat, Note>
    var nextId: nat

    ghost function Contents(): Table
      reads this
    {
      Table(rows, nextId)
    }

    constructor ()
      ensures Contents() == Table(map[], 0)
    {
      rows, nextId := map[], 0;
    }

    method EnqueueOne(n: NewNote, now: int) returns (added: bool)
      modifies this
      ensures Contents() == Enqueue(old(Contents()), n, now)
      ensures added <==> !HasKey(old(Contents()), n.key)
    {
      added := !exists id :: id in rows && rows[id].key == n.key;
      if added {
        rows := rows[nextId := Note(n.key, n.chat, n.subject, n.content, Queued, 0, now, now)];
        nextId := nextId + 1;
      }
    }

    /** Adds a batch in chunks; the chunks make no difference to what is added, and
        the count is the number of rows that are new. */
    method EnqueueMany(notes: seq<NewNote>, now: int) returns (inserted: nat)
      modifies this
      ensures Contents() == EnqueueAll(old(Contents()), notes, now)
      ensures nextId == old(nextId) + inserted
    {
      inserted := 0;
      var from := 0;
      while from < |notes|
        invariant 0 <= from <= |notes|
        invariant Contents() == EnqueueAll(old(Contents()), notes[..from], now)
        invariant nextId == old(nextId) + inserted
      {
        var to := if from + ENQUEUE_CHUNK <= |notes| then from + ENQUEUE_CHUNK else |notes|;
        while from < to
          invariant from <= to <= |notes|
          invariant Contents() == EnqueueAll(old(Contents()), notes[..from], now)
          invariant nextId == old(nextId) + inserted
        {
          assert notes[..from + 1][..from] == notes[..from];
          var added := EnqueueOne(notes[from], now);
          inserted := inserted + if added then 1 else 0;
          from := from + 1;
        }
      }
      assert notes[..from] == notes;
    }

    method Claim(until: Until, limit: nat) returns (ids: seq<nat>)
      ensures ids == ClaimDue(Contents(), until, limit)
    {
      ids := ClaimDue(Table(rows, nextId), until, limit);
    }

    method Sent(id: nat, now: int)
      modifies this
      ensures Contents() == MarkSent(old(Contents()), id, now)
    {
      if id in rows {
        rows := rows[id := rows[id].(status := NoteStatus.Sent, attempts := rows[id].attempts + 1, updatedAt := now)];
      }
    }

    method Retry(id: nat, nextAttemptAt: int, now: int)
      modifies this
      ensures Contents() == MarkRetry(old(Contents()), id, nextAttemptAt, now)
    {
      if id in rows {
        rows := rows[id := rows[id].(attempts := rows[id].attempts + 1, nextAttemptAt := nextAttemptAt, updatedAt := now)];
      }
    }

    method Failed(id: nat, now: int)
      modifies this
      ensures Contents() == MarkFailed(old(Contents()), id, now)
    {
      if id in rows {
        rows := rows[id := rows[id].(status := NoteStatus.Failed, attempts := rows[id].attempts + 1, updatedAt := now)];
      }
    }

    method Redirect(from: string, to: string, now: int)
      modifies this
      ensures Contents() == RedirectQueuedChat(old(Contents()), from, to, now)
    {
      rows := map id | id in rows :: RedirectRow(rows[id], from, to, now);
    }
  }
}
