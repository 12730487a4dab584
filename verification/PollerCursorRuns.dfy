/** The cursor rule over whole runs of many pollers: kept when a call starts contiguous only at
    the shared cursor, broken by two calls of the code as it is. */
module PollerCursorRuns {
  import opened Text
  import opened WakeRule
  import opened LoopGuard
  import opened PollerModel
  import opened PollerTrace
  import opened PollerHistory
  import opened PollerAccounts
  import opened PollerBooks
  import opened PollerCursor

  // ---- One life ----

  /** The move t[i] is backed from a cursor value this poller read before. */
  ghost predicate Grounded(w: World, t: Trace, i: nat)
    requires i < |t| && t[i].CursorSet?
  {
    exists k :: 0 <= k < i && GroundAt(w, t, i, k)
  }

  ghost predicate GroundAt(w: World, t: Trace, i: nat, k: nat)
    requires k < i < |t| && t[i].CursorSet?
  {
    t[k].CursorRead? && t[k].room == t[i].room && Backed(w.log(t[i].room), t[k].cursor, t, i)
  }

  ghost predicate AllGrounded(w: World, t: Trace)
  {
    forall i :: 0 <= i < |t| && t[i].CursorSet? ==> Grounded(w, t, i)
  }

  lemma GroundedLater(w: World, t: Trace, t': Trace, i: nat)
    requires t <= t' && i < |t| && t[i].CursorSet?
    ensures Grounded(w, t, i) <==> Grounded(w, t', i)
  {
    forall k | 0 <= k < i ensures GroundAt(w, t, i, k) <==> GroundAt(w, t', i, k) {
      assert t[k] == t'[k];
      SameBacking(w.log(t[i].room), if t[k].CursorRead? then t[k].cursor else 0, t, t', i);
    }
  }

  lemma SameBacking(log: seq<Message>, low: nat, t: Trace, t': Trace, i: nat)
    requires t <= t' && i < |t| && t[i].CursorSet?
    ensures Backed(log, low, t, i) <==> Backed(log, low, t', i)
  {
    forall j | 0 <= j < |log|
      ensures Settled(t, i, t[i].room, log[j].id) <==> Settled(t', i, t[i].room, log[j].id)
    {
      SameSettled(t, t', i, t[i].room, log[j].id);
    }
  }

  lemma SameSettled(t: Trace, t': Trace, i: nat, key: string, id: nat)
    requires t <= t' && i <= |t|
    ensures Settled(t, i, key, id) <==> Settled(t', i, key, id)
  {
    assert forall k :: 0 <= k < i ==> t[k] == t'[k];
  }

  lemma PrefixGrounded(w: World, t: Trace, t': Trace)
    requires t <= t' && AllGrounded(w, t')
    ensures AllGrounded(w, t)
  {
    forall i | 0 <= i < |t| && t[i].CursorSet? ensures Grounded(w, t, i) {
      GroundedLater(w, t, t', i);
    }
  }

  /** Steps without a cursor move. */
  lemma StillGrounded(w: World, t: Trace, t': Trace)
    requires t <= t' && AllGrounded(w, t) && NoMove(|t|, t')
    ensures AllGrounded(w, t')
  {
    forall i | 0 <= i < |t'| && t'[i].CursorSet? ensures Grounded(w, t', i) {
      assert t[i] == t'[i];
      GroundedLater(w, t, t', i);
    }
  }

  lemma RoomGrounded(w: World, handle: Handler, room: RoomId, st: Memory, t: Trace)
    requires Modest(handle) && AllGrounded(w, t)
    ensures var r := PollRoom(w, handle, room, true, st, t); t <= r.t && AllGrounded(w, r.t)
  {
    var r := PollRoom(w, handle, room, true, st, t);
    RoomBacked(w, handle, room, true, st, t);
    forall i | 0 <= i < |r.t| && r.t[i].CursorSet? ensures Grounded(w, r.t, i) {
      if i < |t| {
        assert t[i] == r.t[i];
        GroundedLater(w, t, r.t, i);
      } else {
        assert r.t[|t|] == CursorRead(room.key, Ask(w, t).cursor);
        assert StartOf(w, room.key, st, t) == Ask(w, t).cursor;
        assert GroundAt(w, r.t, i, |t|);
      }
    }
  }

  lemma VisitGrounded(w: World, handle: Handler, room: RoomId, r: Round)
    requires Modest(handle) && AllGrounded(w, r.t)
    ensures var next := Visit(w, handle, room, true, r); r.t <= next.t && AllGrounded(w, next.t)
  {
    var alive := Ask(w, r.t).flag;
    StillGrounded(w, r.t, r.t + [AliveAsked(alive)]);
    if alive {
      RoomGrounded(w, handle, room, r.st, r.t + [AliveAsked(alive)]);
    }
  }

  lemma {:induction false} RoomsGrounded(w: World, handle: Handler, rooms: seq<RoomId>, k: nat, r: Round)
    requires Modest(handle) && k <= |rooms| && AllGrounded(w, r.t)
    ensures var r' := SweepRooms(w, handle, rooms, k, true, r); r.t <= r'.t && AllGrounded(w, r'.t)
    decreases |rooms| - k
  {
    if k < |rooms| {
      VisitGrounded(w, handle, rooms[k], r);
      if Ask(w, r.t).flag {
        var j := k + 1;
        RoomsGrounded(w, handle, rooms, j, Visit(w, handle, rooms[k], true, r));
      }
    }
  }

  lemma PollGrounded(w: World, st: Memory, t: Trace)
    requires AllGrounded(w, t)
    ensures var r := Poll(w, true, st, t); t <= r.t && AllGrounded(w, r.t)
  {
    var ready := Ask(w, t).flag;
    var t1 := t + [ReadyAsked(ready)];
    StillGrounded(w, t, t1);
    if ready {
      var ok := Ask(w, t1).ok;
      var t2 := t1 + [RoomsAsked(ok)];
      StillGrounded(w, t1, t2);
      if ok {
        HandlingModest(w);
        RoomsGrounded(w, Handling(w), w.rooms(|t1|), 0, Round(false, false, st, t2));
      }
    }
  }

  lemma DoGrounded(w: World, p: Point, act: Act)
    requires AllGrounded(w, p.t)
    ensures AllGrounded(w, Do(w, true, p, act).t)
  {
    PollGrounded(w, p.st, p.t);
    match act
    case Call =>
    case Restart(from) => StillGrounded(w, p.t, p.t + [Crashed]);
    case CrashAt(cut, from) =>
      var full := Poll(w, true, p.st, p.t).t;
      var t := Cut(p.t, full, cut);
      PrefixGrounded(w, t, full);
      StillGrounded(w, t, t + [Crashed]);
  }

  lemma {:induction false} LifeGrounded(w: World, acts: seq<Act>)
    ensures AllGrounded(w, Life(w, true, acts).t)
    decreases |acts|
  {
    if acts != [] {
      LifeGrounded(w, acts[..|acts| - 1]);
      DoGrounded(w, Life(w, true, acts[..|acts| - 1]), acts[|acts| - 1]);
    }
  }

  lemma LivedGrounded(w: World, t: Trace)
    requires Lived(w, true, t)
    ensures AllGrounded(w, t)
  {
    var acts :| LivedBy(w, true, acts, t);
    LifeGrounded(w, acts);
    PrefixGrounded(w, t, Life(w, true, acts).t);
  }

  // ---- All pollers of the identity, and the agent's own reading ----

  /** A step that puts the shared cursor of this room here. */
  predicate Puts(x: Happening, key: string, id: nat)
  {
    match x
    case Pulled(room, upTo) => room == key && upTo == id
    case By(_, e) => e.CursorSet? && e.room == key && e.id == id
  }

  /** A cursor that a poller reads is 0 or was put there before. */
  ghost predicate HonestCursor(h: History)
  {
    forall i :: 0 <= i < |h| && h[i].By? && h[i].e.CursorRead? && h[i].e.cursor != 0 ==>
      exists k :: 0 <= k < i && Puts(h[k], h[i].e.room, h[i].e.cursor)
  }

  /** The pollers read the same rooms. */
  ghost predicate SharedLog(worlds: nat -> World, log: string -> seq<Message>)
  {
    forall p, key {:trigger worlds(p).log(key)} :: worlds(p).log(key) == log(key)
  }

  /** Before step n some poller delivered the message or saw it as own post, or the agent itself
      read the room up to it. */
  ghost predicate Known(h: History, n: nat, key: string, id: nat)
  {
    exists k :: 0 <= k < n <= |h| && Makes(h[k], key, id)
  }

  predicate Makes(x: Happening, key: string, id: nat)
  {
    match x
    case Pulled(room, upTo) => room == key && id <= upTo
    case By(_, e) => IsSettled(e, key, id)
  }

  /** A step of poller p before its c-th is a step of the history before its place. */
  lemma SettledIsKnown(h: History, i: nat, key: string, id: nat)
    requires i < |h| && h[i].By?
    requires Settled(Part(h, h[i].p), |Part(h[..i], h[i].p)|, key, id)
    ensures Known(h, i, key, id)
  {
    var p := h[i].p;
    var c := |Part(h[..i], p)|;
    var k :| 0 <= k < c && IsSettled(Part(h, p)[k], key, id);
    PartGrows(h, i, p);
    var at := Locate(h[..i], p, k);
    assert h[at] == By(p, Part(h[..i], p)[k]);
    assert Makes(h[at], key, id);
  }

  /** Cursor safety over whole runs. However any number of careful pollers interleave, fail and
      die, whenever one of them moves the shared cursor, every message up to there was delivered
      by a poller, is own post, or had been read by the agent itself. */
  lemma {:induction false} CursorSafety(h: History, worlds: nat -> World, log: string -> seq<Message>, i: nat, j: nat)
    requires Genuine(h, worlds, true) && SharedLog(worlds, log) && HonestCursor(h)
    requires i < |h| && h[i].By? && h[i].e.CursorSet?
    requires j < |log(h[i].e.room)| && 0 < log(h[i].e.room)[j].id <= h[i].e.id
    ensures Known(h, i, h[i].e.room, log(h[i].e.room)[j].id)
    decreases i
  {
    var p, key := h[i].p, h[i].e.room;
    var t, c := Part(h, p), |Part(h[..i], p)|;
    var id := log(key)[j].id;
    OwnPlace(h, i);
    LivedGrounded(worlds(p), t);
    var g :| 0 <= g < c && GroundAt(worlds(p), t, c, g);
    assert worlds(p).log(key) == log(key);
    if t[g].cursor < id {
      assert Settled(t, c, key, id);
      SettledIsKnown(h, i, key, id);
    } else {
      PartGrows(h, i, p);
      var at := Locate(h[..i], p, g);
      assert h[at].e == t[g];
      var k :| 0 <= k < at && Puts(h[k], key, t[g].cursor);
      if h[k].By? {
        CursorSafety(h, worlds, log, k, j);
        var x :| 0 <= x < k && Makes(h[x], key, id);
      } else {
        assert Makes(h[k], key, id);
      }
    }
  }
}
