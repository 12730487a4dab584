/** How far a call comes: where a sweep stops and why, and what a poll reports. */
module PollerProgress {
  import opened Text
  import opened WakeRule
  import opened LoopGuard
  import opened PollerModel
  import opened PollerTrace
  import opened PollerHistory
  import opened PollerAccounts
  import opened PollerBooks
  import opened PollerForecast
  import opened PollerVerdicts

  // ---- Where a sweep stops ----

  /** The guard's memory of a room after messages k to n. */
  function HeardOn(novel: Novelty, r: Room, msgs: seq<Message>, k: nat, n: nat): Room
    requires k <= n <= |msgs|
    decreases n - k
  {
    if k == n then r else HeardOn(novel, Hear(novel, r, msgs[k]), msgs, k + 1, n)
  }

  /** This message is due and not held, but its delivery stalled. */
  ghost predicate StuckAt(w: World, room: RoomId, m: Message, r: Room, t: Trace, t': Trace)
  {
    && t <= t' && !WouldHold(w, r, m)
    && (exists i :: |t| <= i < |t'| && WouldWake(w, room, m, w.answers(i).now))
    && (|| LastIs(t', ReadyAsked(false))
        || (LastIs(t', Refused(m.id)) && (m.body == "" || w.answers(|t'| - 1).grant.Exhausted?)))
  }

  /** This message could not be handled. */
  predicate BrokenAt(m: Message, t: Trace) { LastIs(t, AliveAsked(false)) || FailedBy(t, m.id) }

  /** Why a sweep from message k on stops when the messages up to n are passed. */
  ghost predicate Stopped(w: World, room: RoomId, msgs: seq<Message>, k: nat, n: nat, r: Room, t: Trace, failed: bool, t': Trace)
    requires k <= n <= |msgs|
  {
    if failed then (n < |msgs| && BrokenAt(msgs[n], t')) || (n > k && LastIs(t', CursorSet(room.key, msgs[n - 1].id, false)))
    else n == |msgs| || StuckAt(w, room, msgs[n], HeardOn(w.novel, r, msgs, k, n), t, t')
  }

  lemma StuckEarlier(w: World, room: RoomId, m: Message, r: Room, t: Trace, t1: Trace, t': Trace)
    requires t <= t1 && StuckAt(w, room, m, r, t1, t')
    ensures StuckAt(w, room, m, r, t, t')
  {
  }

  lemma StallIsStuck(w: World, room: RoomId, m: Message, st: Memory, t: Trace)
    requires Handle(w, room, m, st, t).verdict.Stalled?
    ensures StuckAt(w, room, m, RoomOf(st, room.key), t, Handle(w, room, m, st, t).t)
  {
    VerdictExactly(w, room, m, st, t);
    IsStuck(w, room, m, RoomOf(st, room.key), t, Handle(w, room, m, st, t).t);
  }

  lemma IsStuck(w: World, room: RoomId, m: Message, r: Room, t: Trace, t': Trace)
    requires |t| < |t'| && !WouldHold(w, r, m) && WouldWake(w, room, m, w.answers(|t|).now)
    requires Budgeted(w, m, t, t') && StalledBy(t', m.id)
    ensures StuckAt(w, room, m, r, t, t')
  {
    assert LastIs(t', Refused(m.id)) ==> t'[|t'| - 1].Refused?;
  }

  /** One step of a sweep that does not pass its message. */
  lemma MoveStops(w: World, room: RoomId, m: Message, s: Sweep, st: Memory, t: Trace)
    requires !Moves(w, Handling(w), room, m, st, t)
    ensures var v := MoveOf(w, Handling(w), room, m, s, st, t);
            && !v.on && Truthful(w, t, v.t)
            && if v.failed then BrokenAt(m, v.t) else StuckAt(w, room, m, RoomOf(st, room.key), t, v.t)
  {
    var alive := Ask(w, t).flag;
    var t1 := t + [AliveAsked(alive)];
    TrueOne(w, t, AliveAsked(alive));
    if alive {
      var h := Handle(w, room, m, st, t1);
      VerdictExactly(w, room, m, st, t1);
      TrueJoin(w, t, t1, h.t);
      if h.verdict.Stalled? {
        StallIsStuck(w, room, m, st, t1);
        StuckEarlier(w, room, m, RoomOf(st, room.key), t, t1, h.t);
      }
    }
  }

  lemma AdvanceTells(w: World, key: string, id: nat, fate: Fate, s: Sweep, st: Memory, t: Trace)
    ensures var a := Advance(w, key, id, fate, s, st, t);
            && Truthful(w, t, a.t) && RoomOf(a.st, key) == RoomOf(st, key)
            && (a.failed ==> LastIs(a.t, CursorSet(key, id, false)))
  {
    var t1 := t + [Passed(key, id, fate)];
    var e := CursorSet(key, id, Ask(w, t1).ok);
    TrueOne(w, t, Passed(key, id, fate));
    TrueOne(w, t1, e);
    TrueJoin(w, t, t1, t1 + [e]);
  }

  /** One that passes it. */
  lemma MoveGoesOn(w: World, room: RoomId, m: Message, s: Sweep, st: Memory, t: Trace)
    requires Moves(w, Handling(w), room, m, st, t)
    ensures var v := MoveOf(w, Handling(w), room, m, s, st, t);
            && v.on == !v.failed && Truthful(w, t, v.t)
            && RoomOf(v.st, room.key) == Hear(w.novel, RoomOf(st, room.key), m)
            && (v.failed ==> LastIs(v.t, CursorSet(room.key, m.id, false)))
  {
    var t1 := t + [AliveAsked(true)];
    var h := Handle(w, room, m, st, t1);
    TrueOne(w, t, AliveAsked(true));
    VerdictExactly(w, room, m, st, t1);
    HandleHears(w, room, m, st, t1);
    AdvanceTells(w, room.key, m.id, h.verdict.fate, s, h.st, h.t);
    TrueJoin(w, t, t1, h.t);
    TrueJoin(w, t, h.t, Advance(w, room.key, m.id, h.verdict.fate, s, h.st, h.t).t);
  }

  lemma StoppedLater(w: World, room: RoomId, msgs: seq<Message>, k: nat, n: nat, r: Room, t: Trace, t1: Trace, failed: bool, t': Trace)
    requires k < n <= |msgs| && t <= t1 && Stopped(w, room, msgs, k + 1, n, Hear(w.novel, r, msgs[k]), t1, failed, t')
    ensures Stopped(w, room, msgs, k, n, r, t, failed, t')
  {
    if !failed && n < |msgs| {
      StuckEarlier(w, room, msgs[n], HeardOn(w.novel, r, msgs, k, n), t, t1, t');
    }
  }

  lemma StoppedHere(w: World, room: RoomId, msgs: seq<Message>, k: nat, r: Room, t: Trace, failed: bool, t': Trace)
    requires k < |msgs| && if failed then BrokenAt(msgs[k], t') else StuckAt(w, room, msgs[k], r, t, t')
    ensures Stopped(w, room, msgs, k, k, r, t, failed, t')
  {
  }

  /** A sweep passes the messages up to n and stops there for a reason its last event gives. */
  lemma {:induction false} SweepStops(w: World, room: RoomId, msgs: seq<Message>, k: nat, s: Sweep, st: Memory, t: Trace) returns (n: nat)
    requires k <= |msgs| && Rising(msgs) && (forall j :: k <= j < |msgs| ==> s.pos < msgs[j].id)
    ensures var r := SweepBatch(w, Handling(w), room, msgs, k, s, st, t);
            && Truthful(w, t, r.t) && PassedUpTo(room.key, msgs, k, n, st, t, r.st, r.t)
            && Stopped(w, room, msgs, k, n, RoomOf(st, room.key), t, r.failed, r.t)
    decreases |msgs| - k
  {
    n := k;
    HandlingModest(w);
    if k == |msgs| {
      NothingPassed(room.key, msgs, k, st, t, st, t);
    } else {
      var v, j := MoveOf(w, Handling(w), room, msgs[k], s, st, t), k + 1;
      MovePasses(w, Handling(w), room, msgs, k, s, st, t);
      if !Moves(w, Handling(w), room, msgs[k], st, t) {
        MoveStops(w, room, msgs[k], s, st, t);
        StoppedHere(w, room, msgs, k, RoomOf(st, room.key), t, v.failed, v.t);
      } else {
        MoveGoesOn(w, room, msgs[k], s, st, t);
        n := j;
        if v.on {
          n := SweepStops(w, room, msgs, j, v.s, v.st, v.t);
          var r := SweepBatch(w, Handling(w), room, msgs, j, v.s, v.st, v.t);
          PassedOn(room.key, msgs, k, n, st, t, v.st, v.t, r.st, r.t);
          TrueJoin(w, t, v.t, r.t);
          StoppedLater(w, room, msgs, k, n, RoomOf(st, room.key), t, v.t, r.failed, r.t);
        }
      }
    }
  }

  // ---- One call ----

  lemma InboxTrue(w: World, key: string, st: Memory, t: Trace)
    requires Ask(w, t).ok && Ask(w, CursorAsked(w, key, t)).ok
    ensures Truthful(w, t, InboxAsked(w, key, st, t)) && |InboxAsked(w, key, st, t)| == |t| + 2
    ensures forall i :: |t| <= i < |t| + 2 ==> !InboxAsked(w, key, st, t)[i].Passed?
  {
    var t1 := CursorAsked(w, key, t);
    TrueOne(w, t, CursorRead(key, Ask(w, t).cursor));
    TrueOne(w, t1, InboxRead(key, StartOf(w, key, st, t), |BatchOf(w, key, st, t)|));
    TrueJoin(w, t, t1, InboxAsked(w, key, st, t));
  }

  lemma StoppedSince(w: World, room: RoomId, msgs: seq<Message>, n: nat, r: Room, t: Trace, t1: Trace, failed: bool, t': Trace)
    requires n <= |msgs| && t <= t1 && Stopped(w, room, msgs, 0, n, r, t1, failed, t')
    ensures Stopped(w, room, msgs, 0, n, r, t, failed, t')
  {
    if !failed && n < |msgs| {
      StuckEarlier(w, room, msgs[n], HeardOn(w.novel, r, msgs, 0, n), t, t1, t');
    }
  }

  /** A call passes a front part of what its inbox showed, and stops for a reason its last event
      gives. */
  lemma CallStops(w: World, room: RoomId, careful: bool, st: Memory, t: Trace) returns (n: nat)
    requires Ask(w, t).ok && Ask(w, CursorAsked(w, room.key, t)).ok
    ensures var r, msgs := PollRoom(w, Handling(w), room, careful, st, t), BatchOf(w, room.key, st, t);
            && Truthful(w, t, r.t) && |t| + 2 <= |r.t| && PassedUpTo(room.key, msgs, 0, n, st, t, r.st, r.t)
            && Stopped(w, room, msgs, 0, n, RoomOf(st, room.key), t, r.failed, r.t)
  {
    var msgs, t2 := BatchOf(w, room.key, st, t), InboxAsked(w, room.key, st, t);
    var s := FirstSweep(w, room.key, careful, st, t);
    InboxTrue(w, room.key, st, t);
    BatchAhead(w.log(room.key), Ask(w, CursorAsked(w, room.key, t)).visible, s.pos);
    n := SweepStops(w, room, msgs, 0, s, st, t2);
    var r := SweepBatch(w, Handling(w), room, msgs, 0, s, st, t2);
    TrueJoin(w, t, t2, r.t);
    CountFrom(room.key, msgs, 0, n, st, t, t2, r.st, r.t);
    StoppedSince(w, room, msgs, n, RoomOf(st, room.key), t, t2, r.failed, r.t);
  }

  predicate Good(a: Answer) { a.ok && a.flag && a.grant.Granted? && !a.claim.Broken? }

  /** Every answer to this stretch was good. */
  ghost predicate AllGoodIn(w: World, t: Trace, t': Trace)
  {
    forall i :: |t| <= i < |t'| ==> Good(w.answers(i))
  }

  lemma GoodLast(w: World, t: Trace, t': Trace)
    requires Truthful(w, t, t') && |t| + 2 <= |t'| && AllGoodIn(w, t, t')
    ensures t'[|t'| - 1] !in {AliveAsked(false), LookupFailed, ReadyAsked(false)} && !t'[|t'| - 1].BudgetFailed?
    ensures !(t'[|t'| - 1].Notified? && !t'[|t'| - 1].ok) && !(t'[|t'| - 1].CursorSet? && !t'[|t'| - 1].ok)
    ensures !(t'[|t'| - 2].Claimed? && t'[|t'| - 2].answer.Broken?) && Good(w.answers(|t'| - 1))
  {
    assert Truth(w, t'[|t'| - 1], |t'| - 1) && Truth(w, t'[|t'| - 2], |t'| - 2);
    assert Good(w.answers(|t'| - 1)) && Good(w.answers(|t'| - 2));
  }

  lemma GoodNotBroken(w: World, m: Message, t: Trace, t': Trace)
    requires Truthful(w, t, t') && |t| + 2 <= |t'| && AllGoodIn(w, t, t')
    ensures !BrokenAt(m, t')
  {
    GoodLast(w, t, t');
  }

  lemma GoodStuck(w: World, room: RoomId, m: Message, r: Room, t: Trace, t': Trace)
    requires Truthful(w, t, t') && |t| + 2 <= |t'| && AllGoodIn(w, t, t') && StuckAt(w, room, m, r, t, t')
    ensures m.body == ""
  {
    GoodLast(w, t, t');
  }

  /** Nothing can be written for it: due, not held, and without a text. */
  ghost predicate Silenced(w: World, room: RoomId, m: Message, r: Room, t: Trace, t': Trace)
  {
    && m.body == "" && !WouldHold(w, r, m)
    && exists i :: |t| <= i < |t'| && WouldWake(w, room, m, w.answers(i).now)
  }

  /** What a call does when everything answers well: it passes every message its inbox showed, or every
      one up to the first that is due but has no text. */
  ghost predicate Caught(w: World, room: RoomId, st: Memory, t: Trace, failed: bool, st': Memory, t': Trace)
  {
    var msgs := BatchOf(w, room.key, st, t);
    && !failed
    && exists n: nat ::
         && PassedUpTo(room.key, msgs, 0, n, st, t, st', t')
         && (n < |msgs| ==> Silenced(w, room, msgs[n], HeardOn(w.novel, RoomOf(st, room.key), msgs, 0, n), t, t'))
  }

  lemma GoodCall(w: World, room: RoomId, careful: bool, st: Memory, t: Trace)
    requires AllGoodIn(w, t, PollRoom(w, Handling(w), room, careful, st, t).t)
    ensures var r := PollRoom(w, Handling(w), room, careful, st, t); Caught(w, room, st, t, r.failed, r.st, r.t)
  {
    var r, msgs := PollRoom(w, Handling(w), room, careful, st, t), BatchOf(w, room.key, st, t);
    BothAsked(w, room, careful, st, t);
    var n := CallStops(w, room, careful, st, t);
    GoodStop(w, room, msgs, n, RoomOf(st, room.key), t, r.failed, r.t);
  }

  lemma GoodStop(w: World, room: RoomId, msgs: seq<Message>, n: nat, r: Room, t: Trace, failed: bool, t': Trace)
    requires Truthful(w, t, t') && |t| + 2 <= |t'| && AllGoodIn(w, t, t') && n <= |msgs| && Stopped(w, room, msgs, 0, n, r, t, failed, t')
    ensures !failed && (n < |msgs| ==> Silenced(w, room, msgs[n], HeardOn(w.novel, r, msgs, 0, n), t, t'))
  {
    GoodLast(w, t, t');
    if n < |msgs| {
      GoodNotBroken(w, msgs[n], t, t');
      if !failed {
        GoodStuck(w, room, msgs[n], HeardOn(w.novel, r, msgs, 0, n), t, t');
      }
    }
  }

  lemma BothAsked(w: World, room: RoomId, careful: bool, st: Memory, t: Trace)
    requires AllGoodIn(w, t, PollRoom(w, Handling(w), room, careful, st, t).t)
    ensures Ask(w, t).ok && Ask(w, CursorAsked(w, room.key, t)).ok
  {
    var t' := PollRoom(w, Handling(w), room, careful, st, t).t;
    HandlingModest(w);
    SweepGrows(w, room, BatchOf(w, room.key, st, t), 0, FirstSweep(w, room.key, careful, st, t), st, InboxAsked(w, room.key, st, t));
    assert |t| < |t'| && Good(w.answers(|t|));
    assert |t| + 1 < |t'| ==> Good(w.answers(|t| + 1));
  }

  // ---- What a call reads ----

  /** A stretch of the log behind this id, up to what is visible, at most a hundred messages. */
  ghost predicate BatchBehind(log: seq<Message>, start: nat, visible: nat, msgs: seq<Message>, from: nat, to: nat)
  {
    && from <= to <= |log| && msgs == log[from..to]
    && (forall j :: 0 <= j < |log| ==> (log[j].id <= start <==> j < from))
    && (from < to ==> to <= visible && to <= from + 100) && (to == |log| || to >= visible || to == from + 100)
  }

  /** A call reads the shared cursor, then the inbox behind the cursor or its own position, whichever is
      ahead. */
  lemma ReadsExactly(w: World, room: RoomId, careful: bool, st: Memory, t: Trace) returns (from: nat, to: nat)
    requires w.answers(|t|).ok && w.answers(|t| + 1).ok
    ensures var t', msgs := PollRoom(w, Handling(w), room, careful, st, t).t, BatchOf(w, room.key, st, t);
            var cursor, pos := w.answers(|t|).cursor, PosOf(st, room.key);
            var start := if cursor <= pos then pos else cursor;
            && |t| + 2 <= |t'| && t'[|t|] == CursorRead(room.key, cursor) && t'[|t| + 1] == InboxRead(room.key, start, |msgs|)
            && BatchBehind(w.log(room.key), start, w.answers(|t| + 1).visible, msgs, from, to)
  {
    var n := CallStops(w, room, careful, st, t);
    from, to := BatchExactly(w.log(room.key), w.answers(|t| + 1).visible, StartOf(w, room.key, st, t));
    var t2 := InboxAsked(w, room.key, st, t);
    SweepGrows(w, room, BatchOf(w, room.key, st, t), 0, FirstSweep(w, room.key, careful, st, t), st, t2);
    assert t2[|t|] == CursorRead(room.key, w.answers(|t|).cursor);
  }
}
