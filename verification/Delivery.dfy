// The worker among its neighbours: producers enqueue, erasures delete, rows are
// pruned, chats move and the process may die between any two of its steps.
module Delivery {
  import opened Wrappers
  import opened Queue
  import opened Worker

  /** Where the worker is with the first claimed row that is left: about to take it,
      past the check that it is still queued, or past the send and not yet past the
      write that records it. */
  datatype Stage = Taking | Checked | Recording(outcome: Outcome)

  datatype Pass = Idle | Working(due: seq<nat>, claimed: map<nat, Note>, redirected: set<string>, stage: Stage)

  /** A message that reached the chat it was addressed to. */
  datatype Arrival = Arrived(id: nat, chat: string)

  datatype Post = Post(table: Table, pass: Pass, arrived: seq<Arrival>)

  datatype Event =
    | Added(note: NewNote, now: int)
    | Erased(chat: string, who: nat)
    | Pruned(before: int)
    | Moved(from: string, to: string, now: int)
    | Claim(until: Until, limit: nat)
    | Take
    | Dispatch(outcome: Outcome)
    | Record(now: int)
    | Crash

  predicate Init(p: Post) {
    p == Post(Table(map[], 0), Idle, [])
  }

  predicate Enabled(p: Post, ev: Event) {
    match ev
    case Claim(_, _) => p.pass.Idle?
    case Take => p.pass.Working? && p.pass.stage.Taking?
    case Dispatch(_) => p.pass.Working? && p.pass.stage.Checked? && p.pass.due != [] && p.pass.due[0] in p.pass.claimed
    case Record(_) => p.pass.Working? && p.pass.stage.Recording? && p.pass.due != [] && p.pass.due[0] in p.pass.claimed
    case _ => true
  }

  /** The row is skipped, or checked after the pause. */
  function TakeNext(p: Post): Post
    requires p.pass.Working?
  {
    var w := p.pass;
    if w.due == [] then p.(pass := Idle)
    else if w.due[0] in w.claimed && w.claimed[w.due[0]].chat in w.redirected then p.(pass := w.(due := w.due[1..]))
    else if !IsQueued(p.table, w.due[0]) then p.(pass := w.(due := w.due[1..]))
    else p.(pass := w.(stage := Checked))
  }

  function DispatchNext(p: Post, outcome: Outcome): Post
    requires Enabled(p, Dispatch(outcome))
  {
    var w := p.pass;
    Post(p.table, w.(stage := Recording(outcome)),
         if outcome == Delivered then p.arrived + [Arrived(w.due[0], w.claimed[w.due[0]].chat)] else p.arrived)
  }

  function RecordNext(p: Post, now: int): Post
    requires Enabled(p, Record(now))
  {
    var w := p.pass;
    var outcome := w.stage.outcome;
    p.(table := Settle(p.table, w.due[0], w.claimed[w.due[0]], outcome, now),
       pass := w.(due := w.due[1..], stage := Taking,
                  redirected := if outcome.Migrated? then w.redirected + {outcome.to} else w.redirected))
  }

  function Next(p: Post, ev: Event): Post
    requires Enabled(p, ev)
  {
    match ev
    case Added(note, now) => p.(table := Enqueue(p.table, note, now))
    case Erased(chat, who) => p.(table := DeleteForContributor(p.table, chat, who))
    case Pruned(before) => p.(table := PruneFinished(p.table, before))
    case Moved(from, to, now) => p.(table := RedirectQueuedChat(p.table, from, to, now))
    case Claim(until, limit) => p.(pass := Working(ClaimDue(p.table, until, limit), p.table.rows, {}, Taking))
    case Take => TakeNext(p)
    case Dispatch(outcome) => DispatchNext(p, outcome)
    case Record(now) => RecordNext(p, now)
    case Crash => p.(pass := Idle)
  }

  predicate IsRun(states: seq<Post>, events: seq<Event>) {
    && |states| == |events| + 1 && Init(states[0])
    && forall n | 0 <= n < |events| :: Enabled(states[n], events[n]) && states[n + 1] == Next(states[n], events[n])
  }

  // ---- What a pass knows ----

  ghost predicate RowsFit(p: Post) {
    forall id | id in p.table.rows :: id < p.table.nextId
  }

  /** Claimed rows are of different chats, in order, and known to the table's ids. */
  ghost predicate ClaimsFit(p: Post) {
    p.pass.Working? ==>
      var w := p.pass;
      && (forall i | 0 <= i < |w.due| :: w.due[i] in w.claimed && w.due[i] < p.table.nextId)
      && (forall i, j | 0 <= i < j < |w.due| :: w.claimed[w.due[i]].chat != w.claimed[w.due[j]].chat)
      && (!w.stage.Taking? ==> w.due != [])
  }

  /** The worker still means to send the claimed row: it has passed its check, or it
      is queued, its chat got no redirect, and its turn is yet to come. */
  predicate ToBeSent(p: Post, i: nat) {
    && p.pass.Working? && i < |p.pass.due| && p.pass.due[i] in p.pass.claimed
    && p.pass.claimed[p.pass.due[i]].chat !in p.pass.redirected
    && if i == 0 && !p.pass.stage.Taking? then p.pass.stage.Checked? else IsQueued(p.table, p.pass.due[i])
  }

  /** Every row still to be sent is the earliest of its chat. */
  ghost predicate ClaimsAreHeads(p: Post) {
    forall i: nat, q: nat | ToBeSent(p, i) && IsQueued(p.table, q) && p.table.rows[q].chat == p.pass.claimed[p.pass.due[i]].chat ::
      p.pass.due[i] <= q
  }

  ghost predicate StageFits(p: Post) {
    p.pass.Working? && p.pass.stage.Checked? && p.pass.due != [] && p.pass.due[0] in p.pass.claimed ==>
      p.pass.claimed[p.pass.due[0]].chat !in p.pass.redirected
  }

  ghost predicate Orderly(p: Post) {
    RowsFit(p) && ClaimsFit(p) && ClaimsAreHeads(p) && StageFits(p)
  }

  /** Two rows claimed in one pass are of different chats. */
  lemma HeadsDiffer(t: Table, until: Until, limit: nat)
    ensures var due := ClaimDue(t, until, limit);
            && (forall i | 0 <= i < |due| :: due[i] in t.rows && Claimable(t, due[i], until))
            && (forall i, j | 0 <= i < j < |due| :: t.rows[due[i]].chat != t.rows[due[j]].chat)
  {
    var due := ClaimDue(t, until, limit);
    ClaimedRowsExist(t, until, limit);
    forall i | 0 <= i < |due| ensures due[i] in t.rows && Claimable(t, due[i], until) {
      assert due[i] in due;
    }
    forall i, j | 0 <= i < j < |due| ensures t.rows[due[i]].chat != t.rows[due[j]].chat {
      assert due[i] < due[j];
    }
  }

  lemma ClaimKeepsOrder(p: Post, until: Until, limit: nat)
    requires Orderly(p) && p.pass.Idle?
    ensures Orderly(Next(p, Claim(until, limit)))
  {
    HeadsDiffer(p.table, until, limit);
  }

  /** A step that adds only later rows and queues nothing anew keeps the order. */
  lemma TableKeepsOrder(p: Post, t': Table)
    requires Orderly(p) && p.table.nextId <= t'.nextId && (forall id | id in t'.rows :: id < t'.nextId)
    requires forall q: nat | IsQueued(t', q) :: q >= p.table.nextId || (IsQueued(p.table, q) && t'.rows[q].chat == p.table.rows[q].chat)
    ensures Orderly(p.(table := t'))
  {
  }

  /** When the first claimed row is done with, the others are what they were. */
  lemma RestIsSent(p: Post, p': Post)
    requires p.pass.Working? && p.pass.due != [] && p'.pass.Working? && p'.pass.due == p.pass.due[1..]
    requires p'.pass.claimed == p.pass.claimed && p'.pass.stage.Taking? && p.pass.redirected <= p'.pass.redirected
    requires forall q: nat | IsQueued(p'.table, q) :: IsQueued(p.table, q)
    ensures forall i: nat | ToBeSent(p', i) :: ToBeSent(p, i + 1) && p'.pass.due[i] == p.pass.due[i + 1]
  {
  }

  lemma TakeKeepsOrder(p: Post)
    requires Orderly(p) && Enabled(p, Take)
    ensures Orderly(TakeNext(p))
  {
    var p' := TakeNext(p);
    if p.pass.due != [] && p'.pass.due == p.pass.due[1..] {
      RestIsSent(p, p');
    } else {
      assert forall i: nat | ToBeSent(p', i) :: ToBeSent(p, i);
    }
  }

  lemma RecordKeepsOrder(p: Post, now: int)
    requires Orderly(p) && Enabled(p, Record(now))
    ensures Orderly(RecordNext(p, now))
  {
    var w := p.pass;
    var t' := Settle(p.table, w.due[0], w.claimed[w.due[0]], w.stage.outcome, now);
    if w.stage.outcome.Migrated? {
      MoveRedirectsQueued(p.table, w.claimed[w.due[0]].chat, w.stage.outcome.to, now);
    } else {
      assert forall q: nat | IsQueued(t', q) :: IsQueued(p.table, q) && t'.rows[q].chat == p.table.rows[q].chat;
    }
    RestIsSent(p, RecordNext(p, now));
  }

  /** The `i`-th claimed row is still to be sent to the chat that `q`, queued before it,
      moves to. */
  predicate MovesBefore(p: Post, from: string, to: string, i: nat, q: nat) {
    && ToBeSent(p, i) && p.pass.claimed[p.pass.due[i]].chat == to
    && IsQueued(p.table, q) && p.table.rows[q].chat == from && q < p.pass.due[i]
  }

  /** No row queued for the chat that moves comes before one still to be sent to the
      chat it moves to. */
  ghost predicate MoveFits(p: Post, from: string, to: string) {
    forall i: nat, q: nat :: !MovesBefore(p, from, to, i, q)
  }

  /** A chat move keeps the order if and only if it fits. */
  lemma MoveKeepsOrderExactly(p: Post, from: string, to: string, now: int)
    requires Orderly(p)
    ensures Orderly(Next(p, Moved(from, to, now))) <==> MoveFits(p, from, to)
  {
    var p' := Next(p, Moved(from, to, now));
    MoveRedirectsQueued(p.table, from, to, now);
    if i: nat, q: nat :| MovesBefore(p, from, to, i, q) {
      UnfitMoveBreaks(p, from, to, now, i, q);
    } else {
      forall i: nat, q: nat | ToBeSent(p', i) && IsQueued(p'.table, q) && p'.table.rows[q].chat == p'.pass.claimed[p'.pass.due[i]].chat
        ensures p'.pass.due[i] <= q
      {
        assert ToBeSent(p, i) && !MovesBefore(p, from, to, i, q);
      }
    }
  }

  lemma MoveRedirectsQueued(t: Table, from: string, to: string, now: int)
    ensures var t' := RedirectQueuedChat(t, from, to, now);
            && t'.nextId == t.nextId
            && (forall q: nat :: IsQueued(t', q) <==> IsQueued(t, q))
            && (forall q: nat | IsQueued(t, q) :: t'.rows[q].chat == if t.rows[q].chat == from then to else t.rows[q].chat)
  {
  }

  lemma UnfitMoveBreaks(p: Post, from: string, to: string, now: int, i: nat, q: nat)
    requires MovesBefore(p, from, to, i, q)
    ensures !ClaimsAreHeads(Next(p, Moved(from, to, now)))
  {
    var p' := Next(p, Moved(from, to, now));
    assert ToBeSent(p', i) && IsQueued(p'.table, q);
  }

  /** A step that is no chat move, or one that fits. */
  ghost predicate Fits(p: Post, ev: Event) {
    ev.Moved? ==> MoveFits(p, ev.from, ev.to)
  }

  /** Every step keeps the order but a chat move that does not fit. */
  lemma StepKeepsOrder(p: Post, ev: Event)
    requires Orderly(p) && Enabled(p, ev) && Fits(p, ev)
    ensures Orderly(Next(p, ev))
  {
    match ev
    case Added(note, now) => TableKeepsOrder(p, Enqueue(p.table, note, now));
    case Erased(chat, who) => TableKeepsOrder(p, DeleteForContributor(p.table, chat, who));
    case Pruned(before) => TableKeepsOrder(p, PruneFinished(p.table, before));
    case Moved(from, to, now) => MoveKeepsOrderExactly(p, from, to, now);
    case Claim(until, limit) => ClaimKeepsOrder(p, until, limit);
    case Take => TakeKeepsOrder(p);
    case Dispatch(_) =>
    case Record(now) => RecordKeepsOrder(p, now);
    case Crash =>
  }

  lemma {:induction false} RunIsOrderly(states: seq<Post>, events: seq<Event>, n: nat)
    requires IsRun(states, events) && n < |states|
    requires forall k | 0 <= k < |events| :: Fits(states[k], events[k])
    ensures Orderly(states[n])
  {
    if n > 0 {
      RunIsOrderly(states, events, n - 1);
      StepKeepsOrder(states[n - 1], events[n - 1]);
    }
  }

  /** With redirects by the worker itself, chat moves that fit, and erasures, crashes
      and new rows at any moment, no row is sent while an earlier row of its chat is
      queued. A move between two passes always fits. */
  lemma NoOvertaking(states: seq<Post>, events: seq<Event>, n: nat, q: nat)
    requires IsRun(states, events) && n < |events| && events[n].Dispatch?
    requires forall k | 0 <= k < |events| && !states[k].pass.Idle? :: Fits(states[k], events[k])
    ensures !Overtakes(states[n], q)
  {
    assert forall k | 0 <= k < |events| :: Fits(states[k], events[k]);
    RunIsOrderly(states, events, n);
  }

  // ---- A move that does not fit ----

  // Row 0 of chat A waits for its moment, row 1 of chat B is claimed, and A becomes B.
  const NOTE_A: NewNote := NewNote("a", "A", None, "")
  const NOTE_B: NewNote := NewNote("b", "B", None, "")
  const ROW_A: Note := Note("a", "A", None, "", Queued, 0, 10, 10)
  const ROW_B: Note := Note("b", "B", None, "", Queued, 0, 0, 0)
  const BOTH: map<nat, Note> := map[0 := ROW_A, 1 := ROW_B]
  const MOVED: map<nat, Note> := map[0 := ROW_A.(chat := "B", updatedAt := 5), 1 := ROW_B]

  /** One step more. */
  lemma Further(states: seq<Post>, events: seq<Event>, ev: Event, p: Post) returns (states': seq<Post>, events': seq<Event>)
    requires IsRun(states, events) && Enabled(states[|events|], ev) && p == Next(states[|events|], ev)
    ensures states' == states + [p] && events' == events + [ev] && IsRun(states', events')
  {
    states', events' := states + [p], events + [ev];
    forall n | 0 <= n < |events'|
      ensures Enabled(states'[n], events'[n]) && states'[n + 1] == Next(states'[n], events'[n])
    {
      assert n < |events| ==> states'[n] == states[n] && states'[n + 1] == states[n + 1] && events'[n] == events[n];
    }
  }

  lemma OnlyTheSecondIsDue(t: Table)
    requires t == Table(BOTH, 2)
    ensures ClaimDue(t, Moment(5), 100) == [1]
  {
    assert ClaimableBelow(t, Moment(5), 1) == [];
  }

  lemma BothAreQueued() returns (states: seq<Post>, events: seq<Event>)
    ensures IsRun(states, events) && |events| == 2 && states[2] == Post(Table(BOTH, 2), Idle, [])
  {
    var p := Post(Table(map[], 0), Idle, []);
    assert IsRun([p], []);
    states, events := Further([p], [], Added(NOTE_A, 10), Post(Table(map[0 := ROW_A], 1), Idle, []));
    states, events := Further(states, events, Added(NOTE_B, 0), Post(Table(BOTH, 2), Idle, []));
  }

  lemma TheSecondIsClaimed() returns (states: seq<Post>, events: seq<Event>)
    ensures IsRun(states, events) && |events| == 3
    ensures states[3] == Post(Table(BOTH, 2), Working([1], BOTH, {}, Taking), [])
  {
    states, events := BothAreQueued();
    OnlyTheSecondIsDue(Table(BOTH, 2));
    states, events := Further(states, events, Claim(Moment(5), 100), Post(Table(BOTH, 2), Working([1], BOTH, {}, Taking), []));
  }

  lemma ThenTheChatMoves() returns (states: seq<Post>, events: seq<Event>)
    ensures IsRun(states, events) && |events| == 5
    ensures states[5] == Post(Table(MOVED, 2), Working([1], BOTH, {}, Checked), [])
  {
    states, events := TheSecondIsClaimed();
    states, events := Further(states, events, Moved("A", "B", 5), Post(Table(MOVED, 2), Working([1], BOTH, {}, Taking), []));
    states, events := Further(states, events, Take, Post(Table(MOVED, 2), Working([1], BOTH, {}, Checked), []));
  }

  /** The claimed row is to be sent while `q` is queued before it in its chat. */
  ghost predicate Overtakes(p: Post, q: nat) {
    && p.pass.Working? && p.pass.due != [] && p.pass.due[0] in p.pass.claimed && IsQueued(p.table, q)
    && p.table.rows[q].chat == p.pass.claimed[p.pass.due[0]].chat && q < p.pass.due[0]
  }

  /** A chat moved behind the worker's back does let a row overtake an earlier one. */
  lemma MoveLetsOvertake() returns (states: seq<Post>, events: seq<Event>)
    ensures IsRun(states, events) && |events| == 6 && events[5].Dispatch?
    ensures Overtakes(states[5], 0)
  {
    states, events := ThenTheChatMoves();
    states, events := Further(states, events, Dispatch(Transient), Next(states[5], Dispatch(Transient)));
  }

  // Nor is it only that run: after any move that does not fit the worker can come to
  // send a row while an earlier one of its chat is queued.

  /** Row `q` is queued in the chat that the `i`-th claimed row is still to be sent to. */
  predicate Before(p: Post, i: nat, q: nat) {
    && ToBeSent(p, i) && p.pass.due[i] in p.pass.claimed && !p.pass.stage.Recording?
    && IsQueued(p.table, q) && p.table.rows[q].chat == p.pass.claimed[p.pass.due[i]].chat && q < p.pass.due[i]
  }

  /** The run goes on from the other. */
  predicate GoesOn(events: seq<Event>, events': seq<Event>) {
    |events| <= |events'| && events'[..|events|] == events
  }

  /** The first claimed row is passed over, or floods. */
  lemma FirstPasses(states: seq<Post>, events: seq<Event>, i: nat, q: nat) returns (states': seq<Post>, events': seq<Event>)
    requires IsRun(states, events) && i > 0 && Before(states[|events|], i, q) && ClaimsFit(states[|events|])
    ensures IsRun(states', events') && GoesOn(events, events')
    ensures Before(states'[|events'|], i - 1, q) && ClaimsFit(states'[|events'|])
  {
    var p := states[|events|];
    states', events' := states, events;
    if p.pass.stage.Taking? {
      states', events' := Further(states', events', Take, Next(p, Take));
      p := states'[|events'|];
    }
    if p.pass.stage.Checked? {
      states', events' := Further(states', events', Dispatch(Flood(0)), Next(p, Dispatch(Flood(0))));
      p := states'[|events'|];
      states', events' := Further(states', events', Record(0), Next(p, Record(0)));
    }
  }

  lemma {:induction false} ComesToOvertake(states: seq<Post>, events: seq<Event>, i: nat, q: nat) returns (states': seq<Post>, events': seq<Event>)
    requires IsRun(states, events) && Before(states[|events|], i, q) && ClaimsFit(states[|events|])
    ensures IsRun(states', events') && GoesOn(events, events')
    ensures Overtakes(states'[|events'|], q) && states'[|events'|].pass.stage.Checked?
    decreases i
  {
    if i > 0 {
      states', events' := FirstPasses(states, events, i, q);
      states', events' := ComesToOvertake(states', events', i - 1, q);
    } else {
      states', events' := states, events;
      if states[|events|].pass.stage.Taking? {
        states', events' := Further(states, events, Take, Next(states[|events|], Take));
      }
    }
  }

  /** Every move that does not fit, at a moment when no send waits for its record, can
      be followed by a send that overtakes. */
  lemma UnfitMoveOvertakes(states: seq<Post>, events: seq<Event>, from: string, to: string, now: int)
    returns (states': seq<Post>, events': seq<Event>, q: nat)
    requires IsRun(states, events) && !MoveFits(states[|events|], from, to) && ClaimsFit(states[|events|])
    requires !states[|events|].pass.stage.Recording?
    ensures IsRun(states', events') && GoesOn(events + [Moved(from, to, now)], events')
    ensures Overtakes(states'[|events'|], q) && states'[|events'|].pass.stage.Checked?
  {
    var p := states[|events|];
    var i: nat, r: nat :| MovesBefore(p, from, to, i, r);
    q := r;
    MoveRedirectsQueued(p.table, from, to, now);
    states', events' := Further(states, events, Moved(from, to, now), Next(p, Moved(from, to, now)));
    states', events' := ComesToOvertake(states', events', i, q);
  }

  // ---- Per-chat order of what arrived ----

  predicate Redirects(ev: Event) {
    ev.Moved? || (ev.Dispatch? && ev.outcome.Migrated?)
  }

  /** Whatever is still queued, or claimed, for a chat comes after all that arrived there. */
  ghost predicate ArrivalsFirst(p: Post) {
    && (forall k | 0 <= k < |p.arrived| :: p.arrived[k].id < p.table.nextId)
    && (forall k, q | 0 <= k < |p.arrived| && IsQueued(p.table, q) && p.table.rows[q].chat == p.arrived[k].chat :: p.arrived[k].id <= q)
    && (p.pass.Working? ==>
          && p.pass.redirected == {} && !(p.pass.stage.Recording? && p.pass.stage.outcome.Migrated?)
          && forall k, i | 0 <= k < |p.arrived| && 0 <= i < |p.pass.due| && p.pass.due[i] in p.pass.claimed
               && p.pass.claimed[p.pass.due[i]].chat == p.arrived[k].chat :: p.arrived[k].id <= p.pass.due[i])
    && (forall j, k | 0 <= j < k < |p.arrived| && p.arrived[j].chat == p.arrived[k].chat :: p.arrived[j].id <= p.arrived[k].id)
  }

  lemma DispatchKeepsFirst(p: Post, outcome: Outcome)
    requires Orderly(p) && ArrivalsFirst(p) && Enabled(p, Dispatch(outcome)) && !outcome.Migrated?
    ensures ArrivalsFirst(DispatchNext(p, outcome))
  {
  }

  lemma RecordKeepsFirst(p: Post, now: int)
    requires Orderly(p) && ArrivalsFirst(p) && Enabled(p, Record(now))
    ensures ArrivalsFirst(RecordNext(p, now))
  {
    var w := p.pass;
    var t' := Settle(p.table, w.due[0], w.claimed[w.due[0]], w.stage.outcome, now);
    assert forall q: nat | IsQueued(t', q) :: IsQueued(p.table, q) && t'.rows[q].chat == p.table.rows[q].chat;
  }

  lemma TableKeepsFirst(p: Post, t': Table)
    requires ArrivalsFirst(p) && p.table.nextId <= t'.nextId
    requires forall q: nat | IsQueued(t', q) :: q >= p.table.nextId || (IsQueued(p.table, q) && t'.rows[q].chat == p.table.rows[q].chat)
    ensures ArrivalsFirst(p.(table := t'))
  {
  }

  lemma ClaimKeepsFirst(p: Post, until: Until, limit: nat)
    requires ArrivalsFirst(p) && p.pass.Idle?
    ensures ArrivalsFirst(Next(p, Claim(until, limit)))
  {
    HeadsDiffer(p.table, until, limit);
  }

  lemma StepKeepsFirst(p: Post, ev: Event)
    requires Orderly(p) && ArrivalsFirst(p) && Enabled(p, ev) && !Redirects(ev)
    ensures ArrivalsFirst(Next(p, ev))
  {
    match ev
    case Added(note, now) => TableKeepsFirst(p, Enqueue(p.table, note, now));
    case Erased(chat, who) => TableKeepsFirst(p, DeleteForContributor(p.table, chat, who));
    case Pruned(before) => TableKeepsFirst(p, PruneFinished(p.table, before));
    case Claim(until, limit) => ClaimKeepsFirst(p, until, limit);
    case Take =>
    case Dispatch(outcome) => DispatchKeepsFirst(p, outcome);
    case Record(now) => RecordKeepsFirst(p, now);
    case Crash =>
  }

  lemma {:induction false} RunArrivesInOrder(states: seq<Post>, events: seq<Event>, n: nat)
    requires IsRun(states, events) && n < |states| && forall k | 0 <= k < |events| :: !Redirects(events[k])
    ensures ArrivalsFirst(states[n])
  {
    if n > 0 {
      RunArrivesInOrder(states, events, n - 1);
      RunIsOrderly(states, events, n - 1);
      StepKeepsFirst(states[n - 1], events[n - 1]);
    }
  }

  /** Without chat moves, what arrives in one chat arrives in the order of the rows,
      whatever is added, erased or pruned and wherever the process dies; a crash
      between a send and its record can only repeat a row. */
  lemma ArrivesInOrder(states: seq<Post>, events: seq<Event>, n: nat, j: nat, k: nat)
    requires IsRun(states, events) && n < |states| && forall m | 0 <= m < |events| :: !Redirects(events[m])
    requires j < k < |states[n].arrived| && states[n].arrived[j].chat == states[n].arrived[k].chat
    ensures states[n].arrived[j].id <= states[n].arrived[k].id
  {
    RunArrivesInOrder(states, events, n);
  }

  // ---- Erasure ----

  /** The row is gone for good and is not the one already past its check. */
  ghost predicate GoneUnchecked(p: Post, id: nat) {
    && id < p.table.nextId && id !in p.table.rows
    && !(p.pass.Working? && p.pass.stage.Checked? && p.pass.due != [] && p.pass.due[0] == id)
  }

  lemma {:induction false} GoneIsGone(states: seq<Post>, events: seq<Event>, i: nat, n: nat, id: nat)
    requires IsRun(states, events) && i <= n < |states| && GoneUnchecked(states[i], id)
    ensures GoneUnchecked(states[n], id)
  {
    if i < n {
      GoneIsGone(states, events, i, n - 1, id);
    }
  }

  lemma {:induction false} RunRowsFit(states: seq<Post>, events: seq<Event>, n: nat)
    requires IsRun(states, events) && n < |states|
    ensures RowsFit(states[n])
  {
    if n > 0 {
      RunRowsFit(states, events, n - 1);
    }
  }

  /** A row an erasure deleted is never sent afterwards, unless the worker had
      already checked it and was about to send it. */
  lemma ErasedIsNotSent(states: seq<Post>, events: seq<Event>, i: nat, n: nat, id: nat)
    requires IsRun(states, events) && i < n < |events| && events[i].Erased?
    requires id in states[i].table.rows && id !in states[i + 1].table.rows
    requires !(states[i].pass.Working? && states[i].pass.stage.Checked? && states[i].pass.due != [] && states[i].pass.due[0] == id)
    ensures events[n].Dispatch? ==> states[n].pass.due[0] != id
  {
    RunRowsFit(states, events, i);
    GoneIsGone(states, events, i + 1, n, id);
  }
}
