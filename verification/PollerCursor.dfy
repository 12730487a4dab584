/** The shared cursor: it may pass only what was delivered or is own post, because everything
    behind it disappears from coord_inbox. */
module PollerCursor {
  import opened Text
  import opened WakeRule
  import opened LoopGuard
  import opened PollerModel
  import opened PollerTrace
  import opened PollerHistory
  import opened PollerAccounts
  import opened PollerBooks

  predicate IsSettled(e: Event, key: string, id: nat)
  {
    e.Passed? && e.room == key && e.id == id && (e.fate.Delivered? || e.fate.OwnPost?)
  }

  /** Before step n this poller passed the message as delivered or own post. */
  ghost predicate Settled(t: Trace, n: nat, key: string, id: nat)
  {
    exists k :: 0 <= k < n <= |t| && IsSettled(t[k], key, id)
  }

  lemma SettledLater(t: Trace, n: nat, t': Trace, n': nat, key: string, id: nat)
    requires Settled(t, n, key, id) && t <= t' && n <= n' <= |t'|
    ensures Settled(t', n', key, id)
  {
    var k :| 0 <= k < n <= |t| && IsSettled(t[k], key, id);
    assert t'[k] == t[k];
  }

  /** No cursor move from step n on. */
  ghost predicate NoMove(n: nat, t: Trace)
  {
    forall i :: n <= i < |t| ==> !t[i].CursorSet?
  }

  // ---- One sweep ----

  /** All messages of the batch up to this id are settled before step n. */
  ghost predicate SettledUpTo(t: Trace, n: nat, key: string, msgs: seq<Message>, id: nat)
  {
    forall j :: 0 <= j < |msgs| && msgs[j].id <= id ==> Settled(t, n, key, msgs[j].id)
  }

  /** Every cursor move from step n on is covered by the batch. */
  ghost predicate MovesCovered(n: nat, t: Trace, key: string, msgs: seq<Message>)
  {
    forall i :: n <= i < |t| && t[i].CursorSet? ==> t[i].room == key && SettledUpTo(t, i, key, msgs, t[i].id)
  }

  lemma CoveredOn(n: nat, m: nat, t: Trace, t': Trace, key: string, msgs: seq<Message>)
    requires n <= m <= |t| && t <= t' && m == |t|
    requires MovesCovered(n, t, key, msgs) && MovesCovered(m, t', key, msgs)
    ensures MovesCovered(n, t', key, msgs)
  {
    forall i | n <= i < |t'| && t'[i].CursorSet?
      ensures t'[i].room == key && SettledUpTo(t', i, key, msgs, t'[i].id)
    {
      if i < m {
        assert t[i] == t'[i];
        forall j | 0 <= j < |msgs| && msgs[j].id <= t[i].id ensures Settled(t', i, key, msgs[j].id) {
          SettledLater(t, i, t', i, key, msgs[j].id);
        }
      }
    }
  }

  /** Messages before k of a batch are settled in t. */
  ghost predicate FrontSettled(t: Trace, key: string, msgs: seq<Message>, k: nat)
  {
    forall j :: 0 <= j < k && j < |msgs| ==> Settled(t, |t|, key, msgs[j].id)
  }

  /** One step of the sweep: a cursor move is covered, and a sweep that stays contiguous has
      settled one message more. */
  lemma AdvanceCovered(w: World, key: string, msgs: seq<Message>, k: nat, fate: Fate, s: Sweep, st: Memory, t: Trace, ht: Trace)
    requires k < |msgs| && Rising(msgs) && Silent(t, ht)
    requires s.contiguous ==> FrontSettled(t, key, msgs, k)
    ensures var a := Advance(w, key, msgs[k].id, fate, s, st, ht);
            && t <= a.t && MovesCovered(|t|, a.t, key, msgs)
            && (a.s.contiguous ==> s.contiguous && FrontSettled(a.t, key, msgs, k + 1))
  {
    var id := msgs[k].id;
    var t1 := ht + [Passed(key, id, fate)];
    var a := Advance(w, key, id, fate, s, st, ht);
    if s.contiguous && (fate.Delivered? || fate.OwnPost?) {
      assert IsSettled(t1[|ht|], key, id);
      assert Settled(t1, |t1|, key, id);
      SettledLater(t1, |t1|, a.t, |a.t|, key, id);
      SettledLater(t1, |t1|, a.t, |t1|, key, id);
      forall j | 0 <= j < k
        ensures Settled(a.t, |a.t|, key, msgs[j].id) && Settled(a.t, |t1|, key, msgs[j].id)
      {
        SettledLater(t, |t|, a.t, |a.t|, key, msgs[j].id);
        SettledLater(t, |t|, a.t, |t1|, key, msgs[j].id);
      }
    }
  }

  lemma SilentCovered(t: Trace, t': Trace, key: string, msgs: seq<Message>)
    requires Silent(t, t')
    ensures MovesCovered(|t|, t', key, msgs)
  {
  }

  lemma MoveCovered(w: World, handle: Handler, room: RoomId, msgs: seq<Message>, k: nat, s: Sweep, st: Memory, t: Trace)
    requires Modest(handle) && k < |msgs| && Rising(msgs)
    requires s.contiguous ==> FrontSettled(t, room.key, msgs, k)
    ensures var v := MoveOf(w, handle, room, msgs[k], s, st, t);
            && t <= v.t && MovesCovered(|t|, v.t, room.key, msgs)
            && (v.on ==> v.s.pos == msgs[k].id && (v.s.contiguous ==> FrontSettled(v.t, room.key, msgs, k + 1)))
  {
    var alive := Ask(w, t).flag;
    var t1 := t + [AliveAsked(alive)];
    if !alive {
      SilentCovered(t, t1, room.key, msgs);
    } else {
      var h := handle(room, msgs[k], st, t1);
      SilentJoin(t, t1, h.t);
      if h.verdict.Past? {
        AdvanceCovered(w, room.key, msgs, k, h.verdict.fate, s, h.st, t, h.t);
      } else {
        SilentCovered(t, h.t, room.key, msgs);
      }
    }
  }

  lemma {:induction false} SweepCovered(w: World, handle: Handler, room: RoomId, msgs: seq<Message>, k: nat, s: Sweep, st: Memory, t: Trace)
    requires Modest(handle) && k <= |msgs| && Rising(msgs)
    requires forall j :: k <= j < |msgs| ==> s.pos < msgs[j].id
    requires s.contiguous ==> FrontSettled(t, room.key, msgs, k)
    ensures var r := SweepBatch(w, handle, room, msgs, k, s, st, t);
            t <= r.t && MovesCovered(|t|, r.t, room.key, msgs)
    decreases |msgs| - k
  {
    if k < |msgs| {
      var v := MoveOf(w, handle, room, msgs[k], s, st, t);
      MoveCovered(w, handle, room, msgs, k, s, st, t);
      if v.on {
        var j := k + 1;
        SweepCovered(w, handle, room, msgs, j, v.s, v.st, v.t);
        CoveredOn(|t|, |v.t|, v.t, SweepBatch(w, handle, room, msgs, j, v.s, v.st, v.t).t, room.key, msgs);
      }
    }
  }

  lemma MoveBroken(w: World, handle: Handler, room: RoomId, m: Message, s: Sweep, st: Memory, t: Trace)
    requires Modest(handle) && !s.contiguous
    ensures var v := MoveOf(w, handle, room, m, s, st, t); t <= v.t && NoMove(|t|, v.t) && !v.s.contiguous
  {
    var t1 := t + [AliveAsked(Ask(w, t).flag)];
    SilentJoin(t, t1, handle(room, m, st, t1).t);
  }

  /** A sweep that is not contiguous never touches the cursor. */
  lemma {:induction false} BrokenSweepStays(w: World, handle: Handler, room: RoomId, msgs: seq<Message>, k: nat, s: Sweep, st: Memory, t: Trace)
    requires Modest(handle) && k <= |msgs| && !s.contiguous
    ensures var r := SweepBatch(w, handle, room, msgs, k, s, st, t); t <= r.t && NoMove(|t|, r.t)
    decreases |msgs| - k
  {
    if k < |msgs| {
      var j := k + 1;
      if msgs[k].id <= s.pos {
        BrokenSweepStays(w, handle, room, msgs, j, s, st, t);
      } else {
        var v := MoveOf(w, handle, room, msgs[k], s, st, t);
        MoveBroken(w, handle, room, msgs[k], s, st, t);
        if v.on {
          BrokenSweepStays(w, handle, room, msgs, j, v.s, v.st, v.t);
        }
      }
    }
  }

  // ---- One call ----

  /** Everything of the log in (low, t[i].id] is settled before the move t[i]. */
  ghost predicate Backed(log: seq<Message>, low: nat, t: Trace, i: nat)
    requires i < |t| && t[i].CursorSet?
  {
    forall j :: 0 <= j < |log| && low < log[j].id <= t[i].id ==> Settled(t, i, t[i].room, log[j].id)
  }

  /** Every cursor move from step n on is this room's, and backed from `low` on. */
  ghost predicate MovesBacked(log: seq<Message>, low: nat, key: string, n: nat, t: Trace)
  {
    forall i :: n <= i < |t| && t[i].CursorSet? ==> t[i].room == key && Backed(log, low, t, i)
  }

  /** What the batch covers is what the log holds behind the start. A move never goes past the
      batch: it names one of its messages. */
  lemma CoveredIsBacked(log: seq<Message>, visible: nat, start: nat, key: string, n: nat, t: Trace)
    requires Rising(log)
    requires var msgs := Batch(log, visible, start);
             && MovesCovered(n, t, key, msgs)
             && NameBatch(n, t, msgs)
    ensures MovesBacked(log, start, key, n, t)
  {
    var msgs := Batch(log, visible, start);
    forall i | n <= i < |t| && t[i].CursorSet? ensures t[i].room == key && Backed(log, start, t, i) {
      var m :| m in msgs && m.id == t[i].id;
      var c :| 0 <= c < |msgs| && msgs[c] == m;
      forall j | 0 <= j < |log| && start < log[j].id <= t[i].id ensures Settled(t, i, key, log[j].id) {
        var at := InBatch(log, visible, start, c, j);
        assert msgs[at] == log[j];
      }
    }
  }

  /** What the log holds behind the start up to a message of the batch is in the batch. */
  lemma InBatch(log: seq<Message>, visible: nat, start: nat, c: nat, j: nat) returns (at: nat)
    requires Rising(log) && j < |log| && c < |Batch(log, visible, start)|
    requires start < log[j].id <= Batch(log, visible, start)[c].id
    ensures at <= c && Batch(log, visible, start)[at] == log[j]
  {
    var from := Behind(log, start);
    BehindSplits(log, start);
    assert Batch(log, visible, start)[c] == log[from + c];
    assert from <= j <= from + c;
    at := j - from;
  }

  /** From step n on, every cursor move names a message of the batch. */
  ghost predicate NameBatch(n: nat, t: Trace, msgs: seq<Message>)
  {
    forall i :: n <= i < |t| && t[i].CursorSet? ==> exists m :: m in msgs && m.id == t[i].id
  }

  lemma MoveNames(w: World, handle: Handler, room: RoomId, msgs: seq<Message>, m: Message, s: Sweep, st: Memory, t: Trace)
    requires Modest(handle) && m in msgs
    ensures var v := MoveOf(w, handle, room, m, s, st, t); t <= v.t && NameBatch(|t|, v.t, msgs)
  {
    var t1 := t + [AliveAsked(Ask(w, t).flag)];
    SilentJoin(t, t1, handle(room, m, st, t1).t);
  }

  lemma NamesOn(n: nat, t: Trace, t': Trace, msgs: seq<Message>)
    requires n <= |t| && t <= t' && NameBatch(n, t, msgs) && NameBatch(|t|, t', msgs)
    ensures NameBatch(n, t', msgs)
  {
    forall i | n <= i < |t'| && t'[i].CursorSet? ensures exists m :: m in msgs && m.id == t'[i].id {
      if i < |t| {
        assert t[i] == t'[i];
      }
    }
  }

  lemma {:induction false} MovesNameBatch(w: World, handle: Handler, room: RoomId, msgs: seq<Message>, k: nat, s: Sweep, st: Memory, t: Trace)
    requires Modest(handle) && k <= |msgs|
    ensures var r := SweepBatch(w, handle, room, msgs, k, s, st, t); t <= r.t && NameBatch(|t|, r.t, msgs)
    decreases |msgs| - k
  {
    if k < |msgs| {
      var j := k + 1;
      if msgs[k].id <= s.pos {
        MovesNameBatch(w, handle, room, msgs, j, s, st, t);
      } else {
        var v := MoveOf(w, handle, room, msgs[k], s, st, t);
        MoveNames(w, handle, room, msgs, msgs[k], s, st, t);
        if v.on {
          MovesNameBatch(w, handle, room, msgs, j, v.s, v.st, v.t);
          NamesOn(|t|, v.t, SweepBatch(w, handle, room, msgs, j, v.s, v.st, v.t).t, msgs);
        }
      }
    }
  }

  lemma SweepBacked(w: World, handle: Handler, room: RoomId, visible: nat, s: Sweep, st: Memory, t: Trace, r: Round)
    requires Modest(handle)
    requires r == SweepBatch(w, handle, room, Batch(w.log(room.key), visible, s.pos), 0, s, st, t)
    ensures t <= r.t && MovesBacked(w.log(room.key), s.pos, room.key, |t|, r.t)
    ensures !s.contiguous ==> NoMove(|t|, r.t)
  {
    var msgs := Batch(w.log(room.key), visible, s.pos);
    BatchAhead(w.log(room.key), visible, s.pos);
    SweepCovered(w, handle, room, msgs, 0, s, st, t);
    MovesNameBatch(w, handle, room, msgs, 0, s, st, t);
    CoveredIsBacked(w.log(room.key), visible, s.pos, room.key, |t|, r.t);
    if !s.contiguous {
      BrokenSweepStays(w, handle, room, msgs, 0, s, st, t);
    }
  }

  /** The two reads before the sweep. */
  lemma InboxStill(w: World, key: string, st: Memory, t: Trace)
    ensures var t' := InboxAsked(w, key, st, t);
            && t <= t' && |t| < |t'| && t'[|t|] == CursorRead(key, Ask(w, t).cursor)
            && forall i :: |t| <= i < |t'| ==> !t'[i].CursorSet? && !Telling(t'[i])
  {
  }

  /** What a call makes of its sweep. */
  lemma SweepInCall(log: seq<Message>, low: nat, key: string, t: Trace, t1: Trace, t2: Trace)
    requires t <= t1 <= t2 && (forall i :: |t| <= i < |t1| ==> !t1[i].CursorSet?) && MovesBacked(log, low, key, |t1|, t2)
    ensures MovesBacked(log, low, key, |t|, t2)
    ensures NoMove(|t1|, t2) ==> NoMove(|t|, t2)
  {
    assert forall i :: |t| <= i < |t1| ==> t2[i] == t1[i];
  }

  /** One call of pollRoom, as the code has it or careful: every cursor move is backed from the
      call's start on, after the cursor was read; the careful one moves only when it starts at
      the cursor. */
  lemma RoomBacked(w: World, handle: Handler, room: RoomId, careful: bool, st: Memory, t: Trace)
    requires Modest(handle)
    ensures var r := PollRoom(w, handle, room, careful, st, t);
            && t <= r.t
            && MovesBacked(w.log(room.key), StartOf(w, room.key, st, t), room.key, |t|, r.t)
            && (!NoMove(|t|, r.t) ==> |t| < |r.t| && r.t[|t|] == CursorRead(room.key, Ask(w, t).cursor)
                                      && (careful ==> PosOf(st, room.key) <= Ask(w, t).cursor))
  {
    var t1 := CursorAsked(w, room.key, t);
    if Ask(w, t).ok && Ask(w, t1).ok {
      var s, t2 := FirstSweep(w, room.key, careful, st, t), InboxAsked(w, room.key, st, t);
      var r := PollRoom(w, handle, room, careful, st, t);
      SweepBacked(w, handle, room, Ask(w, t1).visible, s, st, t2, r);
      InboxStill(w, room.key, st, t);
      SweepInCall(w.log(room.key), s.pos, room.key, t, t2, r.t);
    }
  }

  /** A call of the code that starts at the shared cursor never moves it past a message that is
      neither delivered nor own post. */
  lemma OneCall(w: World, room: RoomId, st: Memory, t: Trace)
    requires PosOf(st, room.key) <= Ask(w, t).cursor
    ensures var r := PollRoom(w, Handling(w), room, false, st, t);
            MovesBacked(w.log(room.key), Ask(w, t).cursor, room.key, |t|, r.t)
  {
    HandlingModest(w);
    RoomBacked(w, Handling(w), room, false, st, t);
  }

  // ---- When a call moves the cursor ----

  predicate Telling(e: Event) { e.Passed? && !e.fate.OwnPost? }

  /** What became of the first message passed from step n on that is no own post. */
  function FirstFate(t: Trace, n: nat): Option<Fate>
    requires n <= |t|
    decreases |t| - n
  {
    if n == |t| then None else if Telling(t[n]) then Some(t[n].fate) else FirstFate(t, n + 1)
  }

  lemma {:induction false} SkipsTo(t: Trace, n: nat, m: nat)
    requires n <= m <= |t| && forall i :: n <= i < m ==> !Telling(t[i])
    ensures FirstFate(t, n) == FirstFate(t, m)
    decreases m - n
  {
    if n < m {
      SkipsTo(t, n + 1, m);
    }
  }

  /** From step n on the cursor moves exactly if the first telling pass is a delivery. */
  ghost predicate MovesRightly(n: nat, t: Trace)
  {
    n <= |t| && (NoMove(n, t) <==> FirstFate(t, n) != Some(Delivered))
  }

  lemma MovesLater(t: Trace, n: nat, m: nat)
    requires n <= m <= |t| && MovesRightly(m, t)
    requires forall i :: n <= i < m ==> !Telling(t[i]) && !t[i].CursorSet?
    ensures MovesRightly(n, t)
  {
    SkipsTo(t, n, m);
  }

  lemma NothingTold(t: Trace, n: nat)
    requires n <= |t| && forall i :: n <= i < |t| ==> !Telling(t[i]) && !t[i].CursorSet?
    ensures MovesRightly(n, t)
  {
    SkipsTo(t, n, |t|);
  }

  /** A message with a telling fate decides. */
  lemma ToldAt(t: Trace, n: nat, m: nat, ht: Trace, key: string, id: nat, fate: Fate)
    requires n <= m < |t| && m == |ht| && ht + [Passed(key, id, fate)] <= t && !fate.OwnPost?
    requires forall i :: n <= i < m ==> !Telling(t[i]) && !t[i].CursorSet?
    requires if fate.Delivered? then m + 1 < |t| && t[m + 1].CursorSet? else forall i :: m < i < |t| ==> !t[i].CursorSet?
    ensures MovesRightly(n, t)
  {
    assert t[m] == Passed(key, id, fate);
    SkipsTo(t, n, m);
  }

  lemma {:induction false} SweepMoves(w: World, handle: Handler, room: RoomId, msgs: seq<Message>, k: nat, s: Sweep, st: Memory, t: Trace)
    requires Modest(handle) && k <= |msgs| && s.contiguous && s.cursor <= s.pos
    ensures var r := SweepBatch(w, handle, room, msgs, k, s, st, t); t <= r.t && MovesRightly(|t|, r.t)
    decreases |msgs| - k
  {
    var r := SweepBatch(w, handle, room, msgs, k, s, st, t);
    if k < |msgs| {
      var j := k + 1;
      if msgs[k].id <= s.pos {
        SweepMoves(w, handle, room, msgs, j, s, st, t);
      } else {
        var t1 := t + [AliveAsked(Ask(w, t).flag)];
        var h := handle(room, msgs[k], st, t1);
        assert Silent(t, t1) && Silent(t, h.t);
        if !Ask(w, t).flag || !h.verdict.Past? {
          NothingTold(r.t, |t|);
        } else {
          PassedMoves(w, handle, room, msgs, k, s, st, t, h);
        }
      }
    } else {
      NothingTold(r.t, |t|);
    }
  }

  lemma {:induction false} PassedMoves(w: World, handle: Handler, room: RoomId, msgs: seq<Message>, k: nat, s: Sweep, st: Memory, t: Trace, h: Turn)
    requires Modest(handle) && k < |msgs| && s.contiguous && s.cursor <= s.pos < msgs[k].id
    requires h == handle(room, msgs[k], st, t + [AliveAsked(Ask(w, t).flag)]) && Ask(w, t).flag && h.verdict.Past? && Silent(t, h.t)
    ensures var r := SweepBatch(w, handle, room, msgs, k, s, st, t); t <= r.t && MovesRightly(|t|, r.t)
    decreases |msgs| - k, 0
  {
    var r := SweepBatch(w, handle, room, msgs, k, s, st, t);
    var j, id, fate := k + 1, msgs[k].id, h.verdict.fate;
    var a := Advance(w, room.key, id, fate, s, h.st, h.t);
    var m := |h.t|;
    if fate.OwnPost? {
      SweepMoves(w, handle, room, msgs, j, a.s, a.st, a.t);
      assert forall i :: |t| <= i < |a.t| ==> r.t[i] == a.t[i];
      MovesLater(r.t, |t|, |a.t|);
    } else {
      if !a.failed {
        if fate.Delivered? {
          SweepMoves(w, handle, room, msgs, j, a.s, a.st, a.t);
        } else {
          BrokenSweepStays(w, handle, room, msgs, j, a.s, a.st, a.t);
        }
      }
      assert a.t <= r.t && forall i :: |t| <= i < |a.t| ==> r.t[i] == a.t[i];
      ToldAt(r.t, |t|, m, h.t, room.key, id, fate);
    }
  }

  lemma MovesInCall(t: Trace, t1: Trace, t2: Trace)
    requires t <= t1 <= t2 && MovesRightly(|t1|, t2) && forall i :: |t| <= i < |t1| ==> !t1[i].CursorSet? && !Telling(t1[i])
    ensures MovesRightly(|t|, t2)
  {
    assert forall i :: |t| <= i < |t1| ==> t2[i] == t1[i];
    MovesLater(t2, |t|, |t1|);
  }

  /** A call of the code moves the shared cursor if and only if the first message it passes that is
      no own post is delivered. */
  lemma MovesExactly(w: World, room: RoomId, st: Memory, t: Trace)
    ensures var r := PollRoom(w, Handling(w), room, false, st, t); t <= r.t && MovesRightly(|t|, r.t)
  {
    HandlingModest(w);
    var r := PollRoom(w, Handling(w), room, false, st, t);
    if Ask(w, t).ok && Ask(w, CursorAsked(w, room.key, t)).ok {
      var t2 := InboxAsked(w, room.key, st, t);
      SweepMoves(w, Handling(w), room, BatchOf(w, room.key, st, t), 0, FirstSweep(w, room.key, false, st, t), st, t2);
      InboxStill(w, room.key, st, t);
      MovesInCall(t, t2, r.t);
    } else {
      NothingTold(r.t, |t|);
    }
  }

  /** Nothing between the shared cursor and the position was left unsettled by earlier calls. */
  ghost predicate GapSettled(w: World, key: string, st: Memory, t: Trace)
  {
    forall j :: 0 <= j < |w.log(key)| && Ask(w, t).cursor < w.log(key)[j].id <= PosOf(st, key) ==>
      Settled(t, |t|, key, w.log(key)[j].id)
  }

  /** A move that keeps the rule shows that the gap was settled before the call. */
  lemma GapBehindMove(w: World, key: string, st: Memory, t: Trace, t': Trace, i: nat)
    requires t <= t' && |t| <= i < |t'| && t'[i].CursorSet? && t'[i].room == key
    requires Backed(w.log(key), Ask(w, t).cursor, t', i) && PassesAhead(|t|, t', StartOf(w, key, st, t))
    ensures GapSettled(w, key, st, t)
  {
    var log := w.log(key);
    forall j | 0 <= j < |log| && Ask(w, t).cursor < log[j].id <= PosOf(st, key) ensures Settled(t, |t|, key, log[j].id) {
      assert log[j].id <= StartOf(w, key, st, t) < t'[i].id;
      assert Settled(t', i, key, log[j].id);
      SettledEarlier(t, t', i, key, log[j].id);
    }
  }

  /** For every call of the code: it keeps the cursor rule exactly when the gap it started with was
      settled, or the first message it passes that is no own post is not delivered: then it moves no
      cursor. */
  lemma RuleKeptExactly(w: World, room: RoomId, st: Memory, t: Trace)
    ensures var r := PollRoom(w, Handling(w), room, false, st, t);
            t <= r.t &&
            (MovesBacked(w.log(room.key), Ask(w, t).cursor, room.key, |t|, r.t)
             <==> FirstFate(r.t, |t|) != Some(Delivered) || GapSettled(w, room.key, st, t))
  {
    var r := PollRoom(w, Handling(w), room, false, st, t);
    var key, log, cursor := room.key, w.log(room.key), Ask(w, t).cursor;
    MovesExactly(w, room, st, t);
    if !NoMove(|t|, r.t) {
      HandlingModest(w);
      RoomBacked(w, Handling(w), room, false, st, t);
      if GapSettled(w, key, st, t) {
        GapBacks(log, cursor, StartOf(w, key, st, t), key, t, r.t);
      } else if MovesBacked(log, cursor, key, |t|, r.t) {
        var i :| |t| <= i < |r.t| && r.t[i].CursorSet?;
        MovesAreAhead(w, room, st, t);
        GapBehindMove(w, key, st, t, r.t, i);
      }
    }
  }

  lemma GapBacks(log: seq<Message>, cursor: nat, start: nat, key: string, t: Trace, t': Trace)
    requires t <= t' && MovesBacked(log, start, key, |t|, t')
    requires forall j :: 0 <= j < |log| && cursor < log[j].id <= start ==> Settled(t, |t|, key, log[j].id)
    ensures MovesBacked(log, cursor, key, |t|, t')
  {
    forall i | |t| <= i < |t'| && t'[i].CursorSet? ensures t'[i].room == key && Backed(log, cursor, t', i) {
      forall j | 0 <= j < |log| && cursor < log[j].id <= t'[i].id ensures Settled(t', i, key, log[j].id) {
        if log[j].id <= start {
          SettledLater(t, |t|, t', i, key, log[j].id);
        } else {
          assert Backed(log, start, t', i);
        }
      }
    }
  }

  /** In the call itself only messages behind the start are passed. */
  ghost predicate PassesAhead(n: nat, t: Trace, start: nat)
  {
    forall i :: n <= i < |t| && (t[i].Passed? || t[i].CursorSet?) ==> t[i].id > start
  }

  lemma MoveAhead(w: World, handle: Handler, room: RoomId, m: Message, s: Sweep, st: Memory, t: Trace, start: nat)
    requires Modest(handle) && start <= s.pos < m.id
    ensures var v := MoveOf(w, handle, room, m, s, st, t); t <= v.t && PassesAhead(|t|, v.t, start) && start <= v.s.pos
  {
    var t1 := t + [AliveAsked(Ask(w, t).flag)];
    SilentJoin(t, t1, handle(room, m, st, t1).t);
  }

  lemma AheadOn(n: nat, t: Trace, t': Trace, start: nat)
    requires n <= |t| && t <= t' && PassesAhead(n, t, start) && PassesAhead(|t|, t', start)
    ensures PassesAhead(n, t', start)
  {
    assert forall i :: n <= i < |t| ==> t[i] == t'[i];
  }

  lemma {:induction false} SweepAhead(w: World, handle: Handler, room: RoomId, msgs: seq<Message>, k: nat, s: Sweep, st: Memory, t: Trace, start: nat)
    requires Modest(handle) && k <= |msgs| && start <= s.pos
    ensures var r := SweepBatch(w, handle, room, msgs, k, s, st, t);
            t <= r.t && PassesAhead(|t|, r.t, start)
    decreases |msgs| - k
  {
    if k < |msgs| {
      var j := k + 1;
      if msgs[k].id <= s.pos {
        SweepAhead(w, handle, room, msgs, j, s, st, t, start);
      } else {
        var v := MoveOf(w, handle, room, msgs[k], s, st, t);
        MoveAhead(w, handle, room, msgs[k], s, st, t, start);
        if v.on {
          SweepAhead(w, handle, room, msgs, j, v.s, v.st, v.t, start);
          AheadOn(|t|, v.t, SweepBatch(w, handle, room, msgs, j, v.s, v.st, v.t).t, start);
        }
      }
    }
  }

  lemma MovesAreAhead(w: World, room: RoomId, st: Memory, t: Trace)
    ensures var r := PollRoom(w, Handling(w), room, false, st, t);
            t <= r.t && PassesAhead(|t|, r.t, StartOf(w, room.key, st, t))
  {
    HandlingModest(w);
    RoomAhead(w, Handling(w), room, st, t);
  }

  lemma RoomAhead(w: World, handle: Handler, room: RoomId, st: Memory, t: Trace)
    requires Modest(handle)
    ensures var r := PollRoom(w, handle, room, false, st, t);
            t <= r.t && PassesAhead(|t|, r.t, StartOf(w, room.key, st, t))
  {
    var a := Ask(w, t);
    var t1 := t + [CursorRead(room.key, a.cursor)];
    if a.ok && Ask(w, t1).ok {
      var start := StartOf(w, room.key, st, t);
      var msgs := Batch(w.log(room.key), Ask(w, t1).visible, start);
      SweepAhead(w, handle, room, msgs, 0, Sweep(false, start, a.cursor, true), st,
                 t1 + [InboxRead(room.key, start, |msgs|)], start);
    }
  }

  /** What is at or below the start and settled by now was settled before the call. */
  lemma SettledEarlier(t: Trace, t': Trace, i: nat, key: string, id: nat)
    requires t <= t' && i <= |t'| && Settled(t', i, key, id)
    requires forall k :: |t| <= k < |t'| && t'[k].Passed? ==> t'[k].id > id
    ensures Settled(t, |t|, key, id)
  {
    var k :| 0 <= k < i <= |t'| && IsSettled(t'[k], key, id);
    assert t[k] == t'[k];
  }
}
