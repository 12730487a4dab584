/** The books over a whole life: every message at or below a room's position has exactly one
    outcome, or had been read past by the shared cursor. */
module PollerBooks {
  import opened Text
  import opened WakeRule
  import opened LoopGuard
  import opened PollerModel
  import opened PollerTrace
  import opened PollerHistory
  import opened PollerAccounts

  // ---- A room's call, in terms of its log ----

  lemma {:induction false} BehindSplits(log: seq<Message>, pos: nat)
    requires Rising(log)
    ensures forall j :: 0 <= j < |log| ==> (log[j].id <= pos <==> j < Behind(log, pos))
    decreases |log|
  {
    if log != [] && log[|log| - 1].id > pos {
      BehindSplits(log[..|log| - 1], pos);
    }
  }

  /** This poller read the shared cursor of a room at or past this id. */
  ghost predicate ReadPast(t: Trace, key: string, id: nat)
  {
    exists k :: 0 <= k < |t| && t[k].CursorRead? && t[k].room == key && id <= t[k].cursor
  }

  /** A stretch of the log was passed: it starts right behind the position or behind a cursor
      that was read on the way. */
  ghost predicate LogPassed(w: World, key: string, from: nat, to: nat, st: Memory, t: Trace, st': Memory, t': Trace)
  {
    var log := w.log(key);
    && t <= t'
    && PassedUpTo(key, log, from, to, st, t, st', t')
    && (forall j :: 0 <= j < from ==> log[j].id <= PosOf(st, key) || ReadPast(t', key, log[j].id))
    && (from < to ==> PosOf(st, key) < log[from].id)
  }

  lemma NoneInLog(w: World, key: string, st: Memory, t: Trace, t': Trace)
    requires t <= t' && (forall k :: |t| <= k < |t'| ==> !t'[k].Passed?)
    ensures LogPassed(w, key, 0, 0, st, t, st, t')
  {
    assert Ids(w.log(key), 0, 0) == [];
    PassesNone(t, t', key);
  }

  lemma {:induction false} PassesNone(t: Trace, t': Trace, key: string)
    requires t <= t' && forall k :: |t| <= k < |t'| ==> !t'[k].Passed?
    ensures Passes(t', key) == Passes(t, key)
    decreases |t'|
  {
    if |t'| == |t| {
      assert t' == t;
    } else {
      PassesNone(t, t'[..|t'| - 1], key);
    }
  }

  /** A front part of a batch is a stretch of the log. */
  lemma BatchInLog(w: World, key: string, visible: nat, pos: nat, n: nat, st: Memory, t: Trace, st': Memory, t': Trace)
    requires var msgs := Batch(w.log(key), visible, pos); PassedUpTo(key, msgs, 0, n, st, t, st', t')
    ensures var from := Behind(w.log(key), pos);
            PassedUpTo(key, w.log(key), from, from + n, st, t, st', t')
  {
    var log := w.log(key);
    var from := Behind(log, pos);
    var msgs := Batch(log, visible, pos);
    assert Ids(msgs, 0, n) == Ids(log, from, from + n);
  }

  /** Starting to count a little earlier, where nothing was passed yet. */
  lemma CountFrom(key: string, log: seq<Message>, from: nat, to: nat, st: Memory, t0: Trace, t: Trace, st': Memory, t': Trace)
    requires PassedUpTo(key, log, from, to, st, t, st', t')
    requires t0 <= t && (forall k :: |t0| <= k < |t| ==> !t[k].Passed?)
    ensures PassedUpTo(key, log, from, to, st, t0, st', t')
  {
    PassesNone(t0, t, key);
  }

  lemma BatchAhead(log: seq<Message>, visible: nat, pos: nat)
    requires Rising(log)
    ensures var msgs := Batch(log, visible, pos);
            Rising(msgs) && forall j :: 0 <= j < |msgs| ==> pos < msgs[j].id
  {
    BehindSplits(log, pos);
  }

  /** The sweep over a batch of the log. */
  lemma BatchPassed(w: World, handle: Handler, room: RoomId, pos: nat, visible: nat, s: Sweep, st: Memory, t: Trace, r: Round)
    returns (n: nat)
    requires Modest(handle) && s.pos == pos && r == SweepBatch(w, handle, room, Batch(w.log(room.key), visible, pos), 0, s, st, t)
    ensures PassedUpTo(room.key, Batch(w.log(room.key), visible, pos), 0, n, st, t, r.st, r.t)
  {
    BatchAhead(w.log(room.key), visible, pos);
    n := SweepPasses(w, handle, room, Batch(w.log(room.key), visible, pos), 0, s, st, t);
  }

  lemma PassedInLog(w: World, key: string, pos: nat, visible: nat, n: nat, st: Memory, t0: Trace, t: Trace, st': Memory, t': Trace)
    returns (from: nat, to: nat)
    requires PosOf(st, key) <= pos && (pos == PosOf(st, key) || ReadPast(t, key, pos))
    requires t0 <= t && (forall k :: |t0| <= k < |t| ==> !t[k].Passed?)
    requires PassedUpTo(key, Batch(w.log(key), visible, pos), 0, n, st, t, st', t')
    ensures LogPassed(w, key, from, to, st, t0, st', t')
  {
    from, to := Behind(w.log(key), pos), Behind(w.log(key), pos) + n;
    BatchInLog(w, key, visible, pos, n, st, t, st', t');
    CountFrom(key, w.log(key), from, to, st, t0, t, st', t');
    ReadUpTo(w, key, pos, st, t, t');
    BehindSplits(w.log(key), pos);
  }

  /** What lies before a position taken from the shared cursor had been read past. */
  lemma ReadUpTo(w: World, key: string, pos: nat, st: Memory, t: Trace, t': Trace)
    requires pos == PosOf(st, key) || ReadPast(t, key, pos)
    requires t <= t'
    ensures forall j :: 0 <= j < Behind(w.log(key), pos) ==>
              w.log(key)[j].id <= PosOf(st, key) || ReadPast(t', key, w.log(key)[j].id)
  {
    var log := w.log(key);
    BehindSplits(log, pos);
    forall j | 0 <= j < Behind(log, pos) && log[j].id > PosOf(st, key) ensures ReadPast(t', key, log[j].id) {
      ReadPastLater(t, t', key, pos);
      ReadPastBelow(t', key, pos, log[j].id);
    }
  }

  lemma ReadPastBelow(t: Trace, key: string, id: nat, below: nat)
    requires ReadPast(t, key, id) && below <= id
    ensures ReadPast(t, key, below)
  {
  }

  /** Where a call starts, it has read the cursor up to there. */
  lemma StartIsRead(w: World, key: string, st: Memory, t: Trace)
    ensures var t' := InboxAsked(w, key, st, t);
            && t <= t' && (forall k :: |t| <= k < |t'| ==> !t'[k].Passed?)
            && PosOf(st, key) <= StartOf(w, key, st, t)
            && (StartOf(w, key, st, t) == PosOf(st, key) || ReadPast(t', key, StartOf(w, key, st, t)))
  {
    assert InboxAsked(w, key, st, t)[|t|] == CursorRead(key, Ask(w, t).cursor);
  }

  /** pollRoom once the inbox was read. */
  lemma InboxPassed(w: World, handle: Handler, room: RoomId, visible: nat, s: Sweep, st: Memory, t0: Trace, t: Trace, r: Round)
    returns (from: nat, to: nat)
    requires Modest(handle) && t0 <= t && (forall k :: |t0| <= k < |t| ==> !t[k].Passed?)
    requires PosOf(st, room.key) <= s.pos && (s.pos == PosOf(st, room.key) || ReadPast(t, room.key, s.pos))
    requires r == SweepBatch(w, handle, room, Batch(w.log(room.key), visible, s.pos), 0, s, st, t)
    ensures LogPassed(w, room.key, from, to, st, t0, r.st, r.t)
  {
    var n := BatchPassed(w, handle, room, s.pos, visible, s, st, t, r);
    from, to := PassedInLog(w, room.key, s.pos, visible, n, st, t0, t, r.st, r.t);
  }

  lemma RoomPassed(w: World, handle: Handler, room: RoomId, careful: bool, st: Memory, t: Trace) returns (from: nat, to: nat)
    requires Modest(handle)
    ensures var r := PollRoom(w, handle, room, careful, st, t);
            LogPassed(w, room.key, from, to, st, t, r.st, r.t)
  {
    from, to := 0, 0;
    var t1 := CursorAsked(w, room.key, t);
    if !Ask(w, t).ok {
      NoneInLog(w, room.key, st, t, t + [LookupFailed]);
    } else if !Ask(w, t1).ok {
      NoneInLog(w, room.key, st, t, t1 + [LookupFailed]);
    } else {
      StartIsRead(w, room.key, st, t);
      from, to := InboxPassed(w, handle, room, Ask(w, t1).visible, FirstSweep(w, room.key, careful, st, t), st, t,
                              InboxAsked(w, room.key, st, t), PollRoom(w, handle, room, careful, st, t));
    }
  }

  lemma EventElsewhere(key: string, st: Memory, t: Trace, e: Event)
    requires !e.Passed?
    ensures Elsewhere(key, st, t, st, t + [e])
  {
    PassesOne(t, e, key);
  }

  lemma RoomElsewhere(w: World, handle: Handler, room: RoomId, careful: bool, st: Memory, t: Trace, key: string)
    requires Modest(handle) && key != room.key
    ensures var r := PollRoom(w, handle, room, careful, st, t); Elsewhere(key, st, t, r.st, r.t)
  {
    var t1 := CursorAsked(w, room.key, t);
    if !Ask(w, t).ok {
      EventElsewhere(key, st, t, LookupFailed);
    } else {
      EventElsewhere(key, st, t, CursorRead(room.key, Ask(w, t).cursor));
      if !Ask(w, t1).ok {
        EventElsewhere(key, st, t1, LookupFailed);
      } else {
        EventElsewhere(key, st, t1, InboxRead(room.key, StartOf(w, room.key, st, t), |BatchOf(w, room.key, st, t)|));
        SweepElsewhere(w, handle, room, BatchOf(w, room.key, st, t), 0, FirstSweep(w, room.key, careful, st, t), st,
                       InboxAsked(w, room.key, st, t), key);
      }
    }
  }

  // ---- The books ----

  ghost predicate Growing(ids: seq<nat>)
  {
    forall j, k :: 0 <= j < k < |ids| ==> ids[j] < ids[k]
  }

  /** Where a process started that has lost no position since: what its poller had done, the
      positions it knew then, and those that came from other processes by then. */
  datatype Since = Since(before: Trace, pos: map<string, nat>, loads: seq<map<string, nat>>)

  function BaseOf(since: Since, key: string): nat { if key in since.pos then since.pos[key] else 0 }

  /** These ids grow, from behind a base up to a position. */
  ghost predicate Climbs(ids: seq<nat>, base: nat, pos: nat)
  {
    Growing(ids) && (ids != [] ==> base < ids[0]) && pos == if ids == [] then base else ids[|ids| - 1]
  }

  /** What was added to a list of ids. */
  ghost predicate ClimbsBehind(was: seq<nat>, ids: seq<nat>, base: nat, pos: nat)
  {
    was <= ids && Climbs(ids[|was|..], base, pos)
  }

  /** This id lies at or below a position that came from another process. */
  ghost predicate Brought(loads: seq<map<string, nat>>, key: string, id: nat)
  {
    exists k :: 0 <= k < |loads| && key in loads[k] && id <= loads[k][key]
  }

  /** What became of a message at or below the position. */
  ghost predicate InBooks(since: Since, key: string, t: Trace, id: nat)
  {
    id in Passes(t, key) || ReadPast(t, key, id) || Brought(since.loads, key, id)
  }

  predicate HasId(log: seq<Message>, id: nat) { exists j :: 0 <= j < |log| && log[j].id == id }

  ghost predicate InLog(log: seq<Message>, ids: seq<nat>)
  {
    forall id :: id in ids ==> HasId(log, id)
  }

  /** One room: everything up to the position was passed or had been read past, here or by the process
      whose positions were loaded; and what was passed since the process started climbs from the
      position it knew then to the present one. */
  ghost predicate RoomBooks(w: World, since: Since, key: string, st: Memory, t: Trace)
  {
    var log, ids := w.log(key), Passes(t, key);
    && (forall j :: 0 <= j < |log| && log[j].id <= PosOf(st, key) ==> InBooks(since, key, t, log[j].id))
    && InLog(log, ids)
    && since.before <= t && ClimbsBehind(Passes(since.before, key), ids, BaseOf(since, key), PosOf(st, key))
  }

  ghost predicate Books(w: World, since: Since, st: Memory, t: Trace)
  {
    forall key {:trigger PosOf(st, key)} :: RoomBooks(w, since, key, st, t)
  }

  lemma ReadPastLater(t: Trace, t': Trace, key: string, id: nat)
    requires t <= t' && ReadPast(t, key, id)
    ensures ReadPast(t', key, id)
  {
    var k :| 0 <= k < |t| && t[k].CursorRead? && t[k].room == key && id <= t[k].cursor;
    assert t'[k] == t[k];
  }

  /** Nothing happened in this room. */
  lemma BooksElsewhere(w: World, since: Since, key: string, st: Memory, t: Trace, st': Memory, t': Trace)
    requires RoomBooks(w, since, key, st, t) && Elsewhere(key, st, t, st', t')
    ensures RoomBooks(w, since, key, st', t')
  {
    var log := w.log(key);
    forall j | 0 <= j < |log| && log[j].id <= PosOf(st, key) && ReadPast(t, key, log[j].id)
      ensures ReadPast(t', key, log[j].id)
    {
      ReadPastLater(t, t', key, log[j].id);
    }
  }

  /** A message behind the old position and at or below the new one was passed just now. */
  lemma PassedNow(w: World, since: Since, key: string, from: nat, to: nat, st: Memory, t: Trace, st': Memory, t': Trace, j: nat)
    requires RoomBooks(w, since, key, st, t) && LogPassed(w, key, from, to, st, t, st', t')
    requires j < |w.log(key)| && w.log(key)[j].id <= PosOf(st', key)
    ensures InBooks(since, key, t', w.log(key)[j].id)
  {
    var log, ids, ids' := w.log(key), Passes(t, key), Passes(t', key);
    if log[j].id <= PosOf(st, key) {
      if ReadPast(t, key, log[j].id) {
        ReadPastLater(t, t', key, log[j].id);
      }
    } else if from <= j {
      assert j < to;
      assert ids'[|ids| + (j - from)] == log[j].id;
    }
  }

  lemma LogStaysIn(log: seq<Message>, ids: seq<nat>, from: nat, to: nat)
    requires InLog(log, ids) && from <= to <= |log|
    ensures InLog(log, ids + Ids(log, from, to))
  {
    forall id | id in Ids(log, from, to) ensures HasId(log, id) {
      var i :| 0 <= i < to - from && Ids(log, from, to)[i] == id;
      assert log[from + i].id == id;
    }
  }

  lemma BooksHere(w: World, since: Since, key: string, from: nat, to: nat, st: Memory, t: Trace, st': Memory, t': Trace)
    requires RoomBooks(w, since, key, st, t) && LogPassed(w, key, from, to, st, t, st', t')
    ensures RoomBooks(w, since, key, st', t')
  {
    var log := w.log(key);
    forall j | 0 <= j < |log| && log[j].id <= PosOf(st', key) ensures InBooks(since, key, t', log[j].id) {
      PassedNow(w, since, key, from, to, st, t, st', t', j);
    }
    LogStaysIn(log, Passes(t, key), from, to);
    ClimbsOn(w, key, from, to, Passes(since.before, key), Passes(t, key), BaseOf(since, key), PosOf(st, key));
  }

  lemma GrowMore(a: seq<nat>, b: seq<nat>)
    requires Growing(a) && Growing(b) && (a != [] && b != [] ==> a[|a| - 1] < b[0])
    ensures Growing(a + b)
  {
    forall j, k | 0 <= j < k < |a + b| ensures (a + b)[j] < (a + b)[k] {
      if j < |a| <= k {
        assert a[j] <= a[|a| - 1] < b[0] <= b[k - |a|];
      }
    }
  }

  lemma ClimbsMore(was: seq<nat>, ids: seq<nat>, more: seq<nat>, base: nat, pos: nat)
    requires ClimbsBehind(was, ids, base, pos) && Growing(more) && (more != [] ==> pos < more[0])
    ensures ClimbsBehind(was, ids + more, base, if more == [] then pos else more[|more| - 1])
  {
    GrowMore(ids[|was|..], more);
    TailMore(ids, more, |was|);
    assert was <= ids + more;
  }

  lemma TailMore(ids: seq<nat>, more: seq<nat>, n: nat)
    requires n <= |ids|
    ensures (ids + more)[n..] == ids[n..] + more
  {
  }

  lemma ClimbsOn(w: World, key: string, from: nat, to: nat, was: seq<nat>, ids: seq<nat>, base: nat, pos: nat)
    requires from <= to <= |w.log(key)| && ClimbsBehind(was, ids, base, pos)
    requires from < to ==> pos < w.log(key)[from].id
    ensures ClimbsBehind(was, ids + Ids(w.log(key), from, to), base, if to == from then pos else w.log(key)[to - 1].id)
  {
    ClimbsMore(was, ids, Ids(w.log(key), from, to), base, pos);
  }

  lemma RoomKeepsBooks(w: World, handle: Handler, since: Since, room: RoomId, careful: bool, st: Memory, t: Trace)
    requires Modest(handle) && Books(w, since, st, t)
    ensures var r := PollRoom(w, handle, room, careful, st, t); Books(w, since, r.st, r.t)
  {
    var r := PollRoom(w, handle, room, careful, st, t);
    var from, to := RoomPassed(w, handle, room, careful, st, t);
    forall key ensures RoomBooks(w, since, key, r.st, r.t) {
      assert RoomBooks(w, since, key, st, t) by { assert PosOf(st, key) == PosOf(st, key); }
      if key == room.key {
        BooksHere(w, since, key, from, to, st, t, r.st, r.t);
      } else {
        RoomElsewhere(w, handle, room, careful, st, t, key);
        BooksElsewhere(w, since, key, st, t, r.st, r.t);
      }
    }
  }

  /** A step that passes nothing. */
  lemma EventKeepsBooks(w: World, since: Since, st: Memory, t: Trace, e: Event)
    requires Books(w, since, st, t) && !e.Passed?
    ensures Books(w, since, st, t + [e])
  {
    forall key ensures RoomBooks(w, since, key, st, t + [e]) {
      assert RoomBooks(w, since, key, st, t) by { assert PosOf(st, key) == PosOf(st, key); }
      PassesOne(t, e, key);
      BooksElsewhere(w, since, key, st, t, st, t + [e]);
    }
  }

  lemma VisitKeepsBooks(w: World, handle: Handler, since: Since, room: RoomId, careful: bool, r: Round)
    requires Modest(handle) && Books(w, since, r.st, r.t)
    ensures var next := Visit(w, handle, room, careful, r); Books(w, since, next.st, next.t)
  {
    var alive := Ask(w, r.t).flag;
    EventKeepsBooks(w, since, r.st, r.t, AliveAsked(alive));
    if alive {
      RoomKeepsBooks(w, handle, since, room, careful, r.st, r.t + [AliveAsked(alive)]);
    }
  }

  lemma {:induction false} RoomsKeepBooks(w: World, handle: Handler, rooms: seq<RoomId>, since: Since, k: nat, careful: bool, r: Round)
    requires Modest(handle) && k <= |rooms| && Books(w, since, r.st, r.t)
    ensures var r' := SweepRooms(w, handle, rooms, k, careful, r); Books(w, since, r'.st, r'.t)
    decreases |rooms| - k
  {
    if k < |rooms| {
      VisitKeepsBooks(w, handle, since, rooms[k], careful, r);
      if Ask(w, r.t).flag {
        var j := k + 1;
        RoomsKeepBooks(w, handle, rooms, since, j, careful, Visit(w, handle, rooms[k], careful, r));
      }
    }
  }

  lemma PollKeepsBooks(w: World, since: Since, careful: bool, st: Memory, t: Trace)
    requires Books(w, since, st, t)
    ensures var r := Poll(w, careful, st, t); Books(w, since, r.st, r.t)
  {
    var ready := Ask(w, t).flag;
    var t1 := t + [ReadyAsked(ready)];
    EventKeepsBooks(w, since, st, t, ReadyAsked(ready));
    if ready {
      var ok := Ask(w, t1).ok;
      var t2 := t1 + [RoomsAsked(ok)];
      EventKeepsBooks(w, since, st, t1, RoomsAsked(ok));
      if ok {
        HandlingModest(w);
        RoomsKeepBooks(w, Handling(w), w.rooms(|t1|), since, 0, careful, Round(false, false, st, t2));
      }
    }
  }

  // ---- Over a life ----

  /** The process goes on, or its successor knows all it knew. */
  predicate GoesOn(act: Act) { act == Call || act == Restart(OwnPositions) }

  /** No call died half way and no positions were lost. */
  predicate Whole(acts: seq<Act>)
  {
    forall k :: 0 <= k < |acts| ==> GoesOn(acts[k])
  }

  function LoadOf(from: Start): seq<map<string, nat>> { if from.OtherPositions? then [from.pos] else [] }

  /** The positions that came from other processes. */
  function LoadsOf(acts: seq<Act>): seq<map<string, nat>>
    decreases |acts|
  {
    if acts == [] then []
    else LoadsOf(acts[..|acts| - 1]) + if acts[|acts| - 1].Call? then [] else LoadOf(acts[|acts| - 1].from)
  }

  /** Where the process now alive started. One that knows all its predecessor knew goes on in its
      place. */
  function SinceOf(w: World, careful: bool, acts: seq<Act>): (since: Since)
    ensures since.loads == LoadsOf(acts)
    decreases |acts|
  {
    if acts == [] then Since([], map[], [])
    else if GoesOn(acts[|acts| - 1]) then SinceOf(w, careful, acts[..|acts| - 1])
    else Since(Life(w, careful, acts).t, Life(w, careful, acts).st.pos, LoadsOf(acts))
  }

  /** A life that lost nothing is one process from the start. */
  lemma {:induction false} WholeSince(w: World, careful: bool, acts: seq<Act>)
    requires Whole(acts)
    ensures SinceOf(w, careful, acts) == Since([], map[], [])
    decreases |acts|
  {
    if acts != [] {
      WholeSince(w, careful, acts[..|acts| - 1]);
    }
  }

  /** A restart between two calls with the positions kept: nothing is lost. */
  lemma RestKeepsBooks(w: World, since: Since, st: Memory, t: Trace)
    requires Books(w, since, st, t)
    ensures Books(w, since, StartFrom(st, OwnPositions), t + [Crashed])
  {
    EventKeepsBooks(w, since, st, t, Crashed);
    forall key ensures RoomBooks(w, since, key, StartFrom(st, OwnPositions), t + [Crashed]) {
      assert RoomBooks(w, since, key, st, t + [Crashed]) by { assert PosOf(st, key) == PosOf(st, key); }
    }
  }

  /** Ids of messages are positive. */
  ghost predicate Counted(w: World)
  {
    forall key, j {:trigger w.log(key)[j]} :: 0 <= j < |w.log(key)| ==> w.log(key)[j].id > 0
  }

  /** What holds where a process starts whose predecessor had these books. */
  function Restarted(since: Since, from: Start, st: Memory, t: Trace): Since
  {
    Since(t, StartFrom(st, from).pos, since.loads + LoadOf(from))
  }

  lemma BroughtLater(loads: seq<map<string, nat>>, more: seq<map<string, nat>>, key: string, id: nat)
    requires Brought(loads, key, id) || Brought(more, key, id)
    ensures Brought(loads + more, key, id)
  {
    if Brought(loads, key, id) {
      var k :| 0 <= k < |loads| && key in loads[k] && id <= loads[k][key];
      assert (loads + more)[k] == loads[k];
    } else {
      var k :| 0 <= k < |more| && key in more[k] && id <= more[k][key];
      assert (loads + more)[|loads| + k] == more[k];
    }
  }

  lemma BookedLater(since: Since, from: Start, key: string, st: Memory, t: Trace, t': Trace, id: nat)
    requires t <= t' && InBooks(since, key, t, id)
    ensures InBooks(Restarted(since, from, st, t'), key, t', id)
  {
    if id in Passes(t, key) {
      PassesStay(t, t', key, id);
    } else if ReadPast(t, key, id) {
      ReadPastLater(t, t', key, id);
    } else {
      BroughtLater(since.loads, LoadOf(from), key, id);
    }
  }

  lemma LoadedIsBooked(since: Since, from: Start, key: string, st: Memory, t: Trace, id: nat)
    requires from.OtherPositions? && 0 < id <= PosOf(StartFrom(st, from), key)
    ensures InBooks(Restarted(since, from, st, t), key, t, id)
  {
    assert LoadOf(from)[0] == from.pos;
    BroughtLater(since.loads, LoadOf(from), key, id);
  }

  /** A room's books with every pass still in the log, and all of it up to the position in the books. */
  lemma RestartedRoom(w: World, since: Since, from: Start, key: string, st: Memory, t: Trace, t': Trace)
    requires RoomBooks(w, since, key, st, t) && t <= t' && InLog(w.log(key), Passes(t', key)) && Counted(w)
    ensures RoomBooks(w, Restarted(since, from, st, t'), key, StartFrom(st, from), t')
  {
    var log := w.log(key);
    forall j | 0 <= j < |log| && log[j].id <= PosOf(StartFrom(st, from), key)
      ensures InBooks(Restarted(since, from, st, t'), key, t', log[j].id)
    {
      assert log[j].id > 0;
      if from.OtherPositions? {
        LoadedIsBooked(since, from, key, st, t', log[j].id);
      } else {
        BookedLater(since, from, key, st, t, t', log[j].id);
      }
    }
    assert Passes(t', key)[|Passes(t', key)|..] == [];
  }

  /** A restart from whatever positions, behind a call that may have died. */
  lemma LossKeepsBooks(w: World, since: Since, from: Start, st: Memory, t: Trace, t': Trace)
    requires Books(w, since, st, t) && t <= t' && Counted(w)
    requires forall key :: InLog(w.log(key), Passes(t', key))
    ensures Books(w, Restarted(since, from, st, t'), StartFrom(st, from), t')
  {
    forall key ensures RoomBooks(w, Restarted(since, from, st, t'), key, StartFrom(st, from), t') {
      assert RoomBooks(w, since, key, st, t) by { assert PosOf(st, key) == PosOf(st, key); }
      RestartedRoom(w, since, from, key, st, t, t');
    }
  }

  lemma {:induction false} PassesStay(t: Trace, t': Trace, key: string, id: nat)
    requires t <= t' && id in Passes(t, key)
    ensures id in Passes(t', key)
    decreases |t'|
  {
    if |t'| == |t| {
      assert t' == t;
    } else {
      PassesStay(t, t'[..|t'| - 1], key, id);
    }
  }

  lemma NewBooks(w: World)
    requires Counted(w)
    ensures Books(w, Since([], map[], []), NEWBORN, [])
  {
    forall key ensures RoomBooks(w, Since([], map[], []), key, NEWBORN, []) {
      assert Passes([], key) == [] && PosOf(NEWBORN, key) == 0;
    }
  }

  lemma {:induction false} LifeKeepsBooks(w: World, careful: bool, acts: seq<Act>)
    requires Counted(w)
    ensures var p := Life(w, careful, acts); Books(w, SinceOf(w, careful, acts), p.st, p.t)
    decreases |acts|
  {
    if acts == [] {
      NewBooks(w);
    } else {
      var before, act := acts[..|acts| - 1], acts[|acts| - 1];
      var p := Life(w, careful, before);
      LifeKeepsBooks(w, careful, before);
      LifeKeeps(w, careful, before);
      DoKeepsBooks(w, careful, SinceOf(w, careful, before), p, act);
    }
  }

  function SinceAfter(since: Since, act: Act, p: Point, p': Point): Since
  {
    if GoesOn(act) then since else Since(p'.t, p'.st.pos, since.loads + if act.Call? then [] else LoadOf(act.from))
  }

  lemma DoKeepsBooks(w: World, careful: bool, since: Since, p: Point, act: Act)
    requires Counted(w) && Books(w, since, p.st, p.t) && PhaseOf(p.t) == Idle
    ensures var p' := Do(w, careful, p, act); Books(w, SinceAfter(since, act, p, p'), p'.st, p'.t)
  {
    match act
    case Call => PollKeepsBooks(w, since, careful, p.st, p.t);
    case Restart(from) =>
      RestKeepsBooks(w, since, p.st, p.t);
      BooksInLog(w, since, StartFrom(p.st, OwnPositions), p.t + [Crashed]);
      LossKeepsBooks(w, since, from, p.st, p.t, p.t + [Crashed]);
    case CrashAt(cut, from) => CrashKeepsBooks(w, careful, since, p, cut, from);
  }

  lemma BooksInLog(w: World, since: Since, st: Memory, t: Trace)
    requires Books(w, since, st, t)
    ensures forall key :: InLog(w.log(key), Passes(t, key))
  {
    forall key ensures InLog(w.log(key), Passes(t, key)) {
      assert RoomBooks(w, since, key, st, t) by { assert PosOf(st, key) == PosOf(st, key); }
    }
  }

  lemma FrontInLog(w: World, t: Trace, n: nat)
    requires n <= |t| && forall key :: InLog(w.log(key), Passes(t, key))
    ensures forall key :: InLog(w.log(key), Passes(t[..n], key))
  {
    forall key ensures InLog(w.log(key), Passes(t[..n], key)) {
      FewerBefore(t, key, n, |t|);
      assert t[..|t|] == t;
    }
  }

  lemma CrashKeepsBooks(w: World, careful: bool, since: Since, p: Point, cut: nat, from: Start)
    requires Counted(w) && Books(w, since, p.st, p.t) && PhaseOf(p.t) == Idle
    ensures var p' := Do(w, careful, p, CrashAt(cut, from)); Books(w, Restarted(since, from, p.st, p'.t), p'.st, p'.t)
  {
    PollKeeps(w, careful, p.st, p.t);
    PollKeepsBooks(w, since, careful, p.st, p.t);
    var r := Poll(w, careful, p.st, p.t);
    var t := Cut(p.t, r.t, cut);
    assert p.t <= t && t == r.t[..|t|];
    BooksInLog(w, since, r.st, r.t);
    FrontInLog(w, r.t, |t|);
    forall key ensures InLog(w.log(key), Passes(t + [Crashed], key)) {
      PassesOne(t, Crashed, key);
    }
    LossKeepsBooks(w, since, from, p.st, p.t, t + [Crashed]);
  }

  /** Complete accounting. After any life, even with crashes in the middle of calls, every message of
      a room at or below the position was passed, or the shared cursor had been read past it, or it
      lay below a position that another process had saved. */
  lemma Accounted(w: World, careful: bool, acts: seq<Act>, key: string, j: nat)
    requires Counted(w) && j < |w.log(key)| && w.log(key)[j].id <= PosOf(Life(w, careful, acts).st, key)
    ensures var t, id := Life(w, careful, acts).t, w.log(key)[j].id;
            id in Passes(t, key) || ReadPast(t, key, id) || Brought(LoadsOf(acts), key, id)
  {
    LifeKeepsBooks(w, careful, acts);
    assert RoomBooks(w, SinceOf(w, careful, acts), key, Life(w, careful, acts).st, Life(w, careful, acts).t);
  }

  /** Where a pass stands among the passes of its room. */
  lemma {:induction false} PassAt(t: Trace, key: string, i: nat) returns (c: nat)
    requires i < |t| && t[i].Passed? && t[i].room == key
    ensures c == |Passes(t[..i], key)| < |Passes(t, key)| && Passes(t, key)[c] == t[i].id
    decreases |t|
  {
    var last := |t| - 1;
    if i < last {
      c := PassAt(t[..last], key, i);
      assert t[..last][..i] == t[..i];
    } else {
      c := |Passes(t[..i], key)|;
    }
  }

  lemma {:induction false} FewerBefore(t: Trace, key: string, m: nat, n: nat)
    requires m <= n <= |t|
    ensures Passes(t[..m], key) <= Passes(t[..n], key)
    decreases n
  {
    if m < n {
      FewerBefore(t, key, m, n - 1);
      assert t[..n][..n - 1] == t[..n - 1];
    } else {
      assert t[..m] == t[..n];
    }
  }

  /** Exactly one outcome. However many processes died before, in the middle of calls or with their
      positions lost: what the process now alive passes lies behind the position it started from,
      is at or below the present one, and no message is passed twice by it. So only messages above
      the position that was saved are ever passed again. */
  lemma OneOutcome(w: World, careful: bool, acts: seq<Act>, i: nat, j: nat)
    requires Counted(w)
    requires var t := Life(w, careful, acts).t; i <= j < |t| && t[i].Passed? && t[j].Passed? && t[i].room == t[j].room
    requires |SinceOf(w, careful, acts).before| <= i
    ensures var p := Life(w, careful, acts);
            && BaseOf(SinceOf(w, careful, acts), p.t[i].room) < p.t[i].id <= p.t[j].id <= PosOf(p.st, p.t[i].room)
            && (i < j ==> p.t[i].id < p.t[j].id)
  {
    var p, since := Life(w, careful, acts), SinceOf(w, careful, acts);
    var key := p.t[i].room;
    LifeKeepsBooks(w, careful, acts);
    assert RoomBooks(w, since, key, p.st, p.t) by { assert PosOf(p.st, key) == PosOf(p.st, key); }
    var n := |since.before|;
    assert p.t[..n] == since.before;
    FewerBefore(p.t, key, n, i);
    var a, b := PassesInOrder(p.t, key, i, j);
    Climbing(Passes(p.t, key), |Passes(since.before, key)|, a, b, BaseOf(since, key), PosOf(p.st, key));
  }

  lemma PassesInOrder(t: Trace, key: string, i: nat, j: nat) returns (a: nat, b: nat)
    requires i <= j < |t| && t[i].Passed? && t[j].Passed? && t[i].room == key == t[j].room
    ensures |Passes(t[..i], key)| == a <= b < |Passes(t, key)| && (i < j ==> a < b)
    ensures Passes(t, key)[a] == t[i].id && Passes(t, key)[b] == t[j].id
  {
    a := PassAt(t, key, i);
    b := PassAt(t, key, j);
    if i < j {
      FewerBefore(t, key, i + 1, j);
      assert t[..i + 1][..i] == t[..i];
    }
  }

  lemma Climbing(ids: seq<nat>, from: nat, a: nat, b: nat, base: nat, pos: nat)
    requires from <= a <= b < |ids| && Climbs(ids[from..], base, pos)
    ensures base < ids[a] <= ids[b] <= pos && (a < b ==> ids[a] < ids[b])
  {
    var cut := ids[from..];
    assert ids[a] == cut[a - from] && ids[b] == cut[b - from];
  }

  /** In a life that lost nothing, over all its processes. */
  lemma OneOutcomeWhole(w: World, careful: bool, acts: seq<Act>, i: nat, j: nat)
    requires Counted(w)
    requires Whole(acts) && i < j < |Life(w, careful, acts).t|
    requires var t := Life(w, careful, acts).t; t[i].Passed? && t[j].Passed? && t[i].room == t[j].room
    ensures var p := Life(w, careful, acts); p.t[i].id < p.t[j].id <= PosOf(p.st, p.t[i].room)
  {
    WholeSince(w, careful, acts);
    OneOutcome(w, careful, acts, i, j);
  }

  /** A batch, exactly: from the first message of the log behind the position on, what is visible by now,
      at most a hundred. */
  lemma BatchExactly(log: seq<Message>, visible: nat, pos: nat) returns (from: nat, to: nat)
    requires Rising(log)
    ensures from <= to <= |log| && Batch(log, visible, pos) == log[from..to]
    ensures forall j :: 0 <= j < |log| ==> (log[j].id <= pos <==> j < from)
    ensures from < to ==> to <= visible && to <= from + 100
    ensures to == |log| || to >= visible || to == from + 100
  {
    from := Behind(log, pos);
    to := from + |Batch(log, visible, pos)|;
    BehindSplits(log, pos);
  }
}
