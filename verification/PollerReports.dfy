/** What a poll reports to its caller, and that it turns to every room. */
module PollerReports {
  import opened Text
  import opened WakeRule
  import opened LoopGuard
  import opened PollerModel
  import opened PollerTrace
  import opened PollerHistory
  import opened PollerAccounts
  import opened PollerVerdicts
  import opened PollerProgress

  // ---- Reports tell what happened ----

  predicate Failing(e: Event)
  {
    match e
    case AliveAsked(alive) => !alive
    case RoomsAsked(ok) => !ok
    case LookupFailed => true
    case BudgetFailed(_) => true
    case Claimed(_, answer) => answer.Broken?
    case Notified(_, ok) => !ok
    case CursorSet(_, _, ok) => !ok
    case _ => false
  }

  predicate Moving(e: Event) { e.Passed? && e.fate.Delivered? }

  ghost predicate HasFailing(t: Trace, t': Trace) { exists i :: |t| <= i < |t'| && Failing(t'[i]) }

  ghost predicate HasMoving(t: Trace, t': Trace) { exists i :: |t| <= i < |t'| && Moving(t'[i]) }

  /** Progress is reported if a message was delivered, a failure if something answered with an error,
      and neither otherwise. */
  ghost predicate Reports(t: Trace, t': Trace, progress: bool, failed: bool)
  {
    t <= t' && (progress <==> HasMoving(t, t')) && (failed <==> HasFailing(t, t'))
  }

  lemma ReportNone(t: Trace)
    ensures Reports(t, t, false, false)
  {
  }

  lemma ReportOne(t: Trace, e: Event)
    ensures Reports(t, t + [e], Moving(e), Failing(e))
  {
    assert (t + [e])[|t|] == e;
  }

  lemma ReportJoin(t: Trace, t1: Trace, t2: Trace, p1: bool, f1: bool, p2: bool, f2: bool)
    requires Reports(t, t1, p1, f1) && Reports(t1, t2, p2, f2)
    ensures Reports(t, t2, p1 || p2, f1 || f2)
  {
    assert forall i :: 0 <= i < |t1| ==> t2[i] == t1[i];
  }

  /** One more event that reports nothing. */
  lemma ReportMore(t: Trace, t1: Trace, e: Event, p: bool, f: bool)
    requires Reports(t, t1, p, f)
    ensures Reports(t, t1 + [e], p || Moving(e), f || Failing(e))
  {
    ReportOne(t1, e);
    ReportJoin(t, t1, t1 + [e], p, f, Moving(e), Failing(e));
  }

  lemma EmitReports(w: World, id: nat, t: Trace)
    ensures var o := Emit(w, id, t); Reports(t, o.t, false, o.verdict.Failed?)
  {
    var answer := Ask(w, t).claim;
    var e := Claimed(id, answer);
    var t1 := t + [e];
    ReportOne(t, e);
    if answer.Won? {
      var ok := Ask(w, t1).ok;
      ReportMore(t, t1, Notified(id, ok), false, false);
      var t2 := t1 + [Notified(id, ok)];
      if ok {
        ReportMore(t, t2, Booked(id, Ask(w, t2).ok), false, false);
      }
    } else {
      ReportMore(t, t1, Returned(id, Ask(w, t1).ok), false, answer.Broken?);
    }
  }

  lemma SpendReports(w: World, m: Message, t: Trace)
    ensures var o := Spend(w, m, t); Reports(t, o.t, false, o.verdict.Failed?)
  {
    var t1 := t + [Reserved(m.id)];
    ReportOne(t, BudgetFailed(m.id));
    ReportOne(t, Refused(m.id));
    ReportOne(t, Reserved(m.id));
    EmitReports(w, m.id, t1);
    ReportJoin(t, t1, Emit(w, m.id, t1).t, false, false, false, Emit(w, m.id, t1).verdict.Failed?);
  }

  lemma DeliverReports(w: World, m: Message, t: Trace)
    ensures var o := Deliver(w, m, t); Reports(t, o.t, false, o.verdict.Failed?)
  {
    var t1 := t + [ReadyAsked(Ask(w, t).flag)];
    ReportOne(t, ReadyAsked(Ask(w, t).flag));
    SpendReports(w, m, t1);
    ReportJoin(t, t1, Spend(w, m, t1).t, false, false, false, Spend(w, m, t1).verdict.Failed?);
  }

  lemma LookupsReport(ids: seq<nat>, t: Trace)
    ensures Reports(t, t + Lookups(ids), false, false)
  {
    var more := Lookups(ids);
    assert forall i :: |t| <= i < |t + more| ==> (t + more)[i] == more[i - |t|];
  }

  lemma LookReports(w: World, room: RoomId, m: Message, t: Trace)
    ensures var l := Look(w, room, m, t); Reports(t, l.t, false, l.mentions.None?)
  {
    var l, ids := Look(w, room, m, t), Needed(w, room, m);
    LooksUp(w, room, m, t);
    if l.mentions.Some? {
      LookupsReport(ids, t);
    } else {
      var n :| 0 <= n < |ids| && l.t == t + Lookups(ids[..n]) + [LookupFailed];
      LookupsReport(ids[..n], t);
      ReportMore(t, t + Lookups(ids[..n]), LookupFailed, false, false);
    }
  }

  lemma DecideReports(w: World, room: RoomId, m: Message, now: int, hold: bool, st: Memory, t: Trace)
    ensures var h := Decide(w, room, m, now, hold, st, t); Reports(t, h.t, false, h.verdict.Failed?)
  {
    if WakeCandidate(w.self, room.kind, m, now) {
      var l := Look(w, room, m, t);
      LookReports(w, room, m, t);
      if l.mentions.Some? {
        DeliverReports(w, m, l.t);
        ReportJoin(t, l.t, Deliver(w, m, l.t).t, false, false, false, Deliver(w, m, l.t).verdict.Failed?);
        ReportMore(t, l.t, NoticePosted(room.key, m.id, Ask(w, l.t).ok), false, false);
      }
    } else {
      ReportNone(t);
    }
  }

  lemma HandleReports(w: World, room: RoomId, m: Message, st: Memory, t: Trace)
    ensures var h := Handle(w, room, m, st, t); Reports(t, h.t, false, h.verdict.Failed?)
  {
    var st1 := Listen(w, st, room.key, m);
    var hold := Holds(RoomOf(st1, room.key).streak);
    var e := Heard(room.key, m, hold);
    var h := Decide(w, room, m, Ask(w, t).now, hold, st1, t + [e]);
    ReportOne(t, e);
    DecideReports(w, room, m, Ask(w, t).now, hold, st1, t + [e]);
    ReportJoin(t, t + [e], h.t, false, false, false, h.verdict.Failed?);
  }

  lemma AdvanceReports(w: World, key: string, id: nat, fate: Fate, s: Sweep, st: Memory, t: Trace)
    ensures var a := Advance(w, key, id, fate, s, st, t);
            Reports(t, a.t, fate.Delivered?, a.failed) && a.s.progress == (s.progress || fate.Delivered?)
  {
    var t1 := t + [Passed(key, id, fate)];
    ReportOne(t, Passed(key, id, fate));
    ReportMore(t, t1, CursorSet(key, id, Ask(w, t1).ok), fate.Delivered?, false);
  }

  lemma MoveReports(w: World, room: RoomId, m: Message, s: Sweep, st: Memory, t: Trace) returns (p: bool)
    ensures var v := MoveOf(w, Handling(w), room, m, s, st, t);
            Reports(t, v.t, p, v.failed) && v.s.progress == (s.progress || p) && (v.on ==> !v.failed)
  {
    p := false;
    var alive := Ask(w, t).flag;
    var t1 := t + [AliveAsked(alive)];
    ReportOne(t, AliveAsked(alive));
    if alive {
      var h := Handle(w, room, m, st, t1);
      HandleReports(w, room, m, st, t1);
      ReportJoin(t, t1, h.t, false, false, false, h.verdict.Failed?);
      if h.verdict.Past? {
        var a := Advance(w, room.key, m.id, h.verdict.fate, s, h.st, h.t);
        AdvanceReports(w, room.key, m.id, h.verdict.fate, s, h.st, h.t);
        ReportJoin(t, h.t, a.t, false, false, h.verdict.fate.Delivered?, a.failed);
        p := h.verdict.fate.Delivered?;
      }
    }
  }

  lemma {:induction false} SweepReports(w: World, room: RoomId, msgs: seq<Message>, k: nat, s: Sweep, st: Memory, t: Trace) returns (p: bool)
    requires k <= |msgs|
    ensures var r := SweepBatch(w, Handling(w), room, msgs, k, s, st, t);
            Reports(t, r.t, p, r.failed) && r.progress == (s.progress || p)
    decreases |msgs| - k
  {
    p := false;
    if k == |msgs| {
      ReportNone(t);
    } else {
      var j := k + 1;
      if msgs[k].id <= s.pos {
        p := SweepReports(w, room, msgs, j, s, st, t);
      } else {
        var v := MoveOf(w, Handling(w), room, msgs[k], s, st, t);
        p := MoveReports(w, room, msgs[k], s, st, t);
        if v.on {
          var more := SweepReports(w, room, msgs, j, v.s, v.st, v.t);
          var r := SweepBatch(w, Handling(w), room, msgs, j, v.s, v.st, v.t);
          ReportJoin(t, v.t, r.t, p, false, more, r.failed);
          p := p || more;
        }
      }
    }
  }

  lemma RoomReports(w: World, room: RoomId, careful: bool, st: Memory, t: Trace)
    ensures var r := PollRoom(w, Handling(w), room, careful, st, t); Reports(t, r.t, r.progress, r.failed)
  {
    var key := room.key;
    var t1, t2 := CursorAsked(w, key, t), InboxAsked(w, key, st, t);
    ReportOne(t, LookupFailed);
    ReportOne(t, CursorRead(key, Ask(w, t).cursor));
    ReportMore(t, t1, LookupFailed, false, false);
    ReportMore(t, t1, InboxRead(key, StartOf(w, key, st, t), |BatchOf(w, key, st, t)|), false, false);
    if Ask(w, t).ok && Ask(w, t1).ok {
      var p := SweepReports(w, room, BatchOf(w, key, st, t), 0, FirstSweep(w, key, careful, st, t), st, t2);
      var r := SweepBatch(w, Handling(w), room, BatchOf(w, key, st, t), 0, FirstSweep(w, key, careful, st, t), st, t2);
      ReportJoin(t, t2, r.t, false, false, p, r.failed);
    }
  }

  lemma VisitReports(w: World, room: RoomId, careful: bool, t0: Trace, r: Round)
    requires Reports(t0, r.t, r.progress, r.failed)
    ensures var v := Visit(w, Handling(w), room, careful, r); Reports(t0, v.t, v.progress, v.failed)
  {
    var alive := Ask(w, r.t).flag;
    var t1 := r.t + [AliveAsked(alive)];
    ReportMore(t0, r.t, AliveAsked(alive), r.progress, r.failed);
    if alive {
      var p := PollRoom(w, Handling(w), room, careful, r.st, t1);
      RoomReports(w, room, careful, r.st, t1);
      ReportJoin(t0, t1, p.t, r.progress, r.failed, p.progress, p.failed);
    }
  }

  lemma {:induction false} RoomsReport(w: World, rooms: seq<RoomId>, k: nat, careful: bool, t0: Trace, r: Round)
    requires k <= |rooms| && Reports(t0, r.t, r.progress, r.failed)
    ensures var q := SweepRooms(w, Handling(w), rooms, k, careful, r); Reports(t0, q.t, q.progress, q.failed)
    decreases |rooms| - k
  {
    if k < |rooms| {
      VisitReports(w, rooms[k], careful, t0, r);
      if Ask(w, r.t).flag {
        var j := k + 1;
        RoomsReport(w, rooms, j, careful, t0, Visit(w, Handling(w), rooms[k], careful, r));
      }
    }
  }

  /** What a poll answers its caller is what happened in it. */
  lemma PollReports(w: World, careful: bool, st: Memory, t: Trace)
    ensures var r := Poll(w, careful, st, t); Reports(t, r.t, r.progress, r.failed)
  {
    var ready := Ask(w, t).flag;
    var t1 := t + [ReadyAsked(ready)];
    var ok := Ask(w, t1).ok;
    var t2 := t1 + [RoomsAsked(ok)];
    ReportOne(t, ReadyAsked(ready));
    ReportMore(t, t1, RoomsAsked(ok), false, false);
    if ready && ok {
      RoomsReport(w, w.rooms(|t1|), 0, careful, t, Round(false, false, st, t2));
    }
  }

  // ---- Truth over polls and lives ----

  lemma RoomTrue(w: World, room: RoomId, careful: bool, st: Memory, t: Trace)
    ensures Truthful(w, t, PollRoom(w, Handling(w), room, careful, st, t).t)
  {
    var t1 := CursorAsked(w, room.key, t);
    if !Ask(w, t).ok {
      TrueOne(w, t, LookupFailed);
    } else if !Ask(w, t1).ok {
      TrueOne(w, t, CursorRead(room.key, Ask(w, t).cursor));
      TrueOne(w, t1, LookupFailed);
      TrueJoin(w, t, t1, t1 + [LookupFailed]);
    } else {
      var _ := CallStops(w, room, careful, st, t);
    }
  }

  lemma VisitTrue(w: World, room: RoomId, careful: bool, r: Round)
    ensures Truthful(w, r.t, Visit(w, Handling(w), room, careful, r).t)
  {
    var alive := Ask(w, r.t).flag;
    var t1 := r.t + [AliveAsked(alive)];
    TrueOne(w, r.t, AliveAsked(alive));
    if alive {
      RoomTrue(w, room, careful, r.st, t1);
      TrueJoin(w, r.t, t1, PollRoom(w, Handling(w), room, careful, r.st, t1).t);
    }
  }

  lemma {:induction false} RoomsTrue(w: World, rooms: seq<RoomId>, k: nat, careful: bool, r: Round)
    requires k <= |rooms|
    ensures Truthful(w, r.t, SweepRooms(w, Handling(w), rooms, k, careful, r).t)
    decreases |rooms| - k
  {
    if k < |rooms| {
      var v := Visit(w, Handling(w), rooms[k], careful, r);
      VisitTrue(w, rooms[k], careful, r);
      if Ask(w, r.t).flag {
        var j := k + 1;
        RoomsTrue(w, rooms, j, careful, v);
        TrueJoin(w, r.t, v.t, SweepRooms(w, Handling(w), rooms, j, careful, v).t);
      }
    }
  }

  lemma PollTrue(w: World, careful: bool, st: Memory, t: Trace)
    ensures Truthful(w, t, Poll(w, careful, st, t).t)
  {
    var ready := Ask(w, t).flag;
    var t1 := t + [ReadyAsked(ready)];
    var ok := Ask(w, t1).ok;
    var t2 := t1 + [RoomsAsked(ok)];
    TrueOne(w, t, ReadyAsked(ready));
    if ready {
      TrueOne(w, t1, RoomsAsked(ok));
      TrueJoin(w, t, t1, t2);
      if ok {
        RoomsTrue(w, w.rooms(|t1|), 0, careful, Round(false, false, st, t2));
        TrueJoin(w, t, t2, Poll(w, careful, st, t).t);
      }
    }
  }

  lemma DoTrue(w: World, careful: bool, p: Point, act: Act)
    ensures Truthful(w, p.t, Do(w, careful, p, act).t)
  {
    PollTrue(w, careful, p.st, p.t);
  }

  /** Over any life, with restarts and crashes at any step, every event tells what the world answered
      when it was asked. */
  lemma {:induction false} LifeTrue(w: World, careful: bool, acts: seq<Act>)
    ensures Truthful(w, [], Life(w, careful, acts).t)
    decreases |acts|
  {
    if acts != [] {
      var before := acts[..|acts| - 1];
      LifeTrue(w, careful, before);
      DoTrue(w, careful, Life(w, careful, before), acts[|acts| - 1]);
      TrueJoin(w, [], Life(w, careful, before).t, Life(w, careful, acts).t);
    }
  }

  // ---- Every room has its turn ----

  /** This room had its call within this stretch, and it caught up. */
  ghost predicate Served(w: World, room: RoomId, t: Trace, t': Trace)
  {
    exists st, t1, careful :: ServedAt(w, room, careful, st, t, t1, t')
  }

  ghost predicate ServedAt(w: World, room: RoomId, careful: bool, st: Memory, t: Trace, t1: Trace, t': Trace)
  {
    var r := PollRoom(w, Handling(w), room, careful, st, t1);
    t <= t1 && r.t <= t' && Caught(w, room, st, t1, r.failed, r.st, r.t)
  }

  lemma ServedLater(w: World, room: RoomId, t: Trace, t1: Trace, t2: Trace, t': Trace)
    requires t <= t1 && t2 <= t' && Served(w, room, t1, t2)
    ensures Served(w, room, t, t')
  {
    var st, u, careful :| ServedAt(w, room, careful, st, t1, u, t2);
    assert ServedAt(w, room, careful, st, t, u, t');
  }

  lemma VisitServes(w: World, room: RoomId, careful: bool, r: Round)
    requires AllGoodIn(w, r.t, Visit(w, Handling(w), room, careful, r).t)
    ensures Ask(w, r.t).flag && Served(w, room, r.t, Visit(w, Handling(w), room, careful, r).t)
  {
    var t1 := r.t + [AliveAsked(Ask(w, r.t).flag)];
    VisitTrue(w, room, careful, r);
    VisitGrows(w, room, careful, r);
    assert Good(w.answers(|r.t|));
    RoomTrue(w, room, careful, r.st, t1);
    GoodCall(w, room, careful, r.st, t1);
    assert ServedAt(w, room, careful, r.st, r.t, t1, Visit(w, Handling(w), room, careful, r).t);
  }

  lemma VisitGrows(w: World, room: RoomId, careful: bool, r: Round)
    ensures |r.t| < |Visit(w, Handling(w), room, careful, r).t|
  {
    RoomTrue(w, room, careful, r.st, r.t + [AliveAsked(Ask(w, r.t).flag)]);
  }

  lemma {:induction false} RoomsServe(w: World, rooms: seq<RoomId>, k: nat, careful: bool, r: Round, i: nat)
    requires k <= i < |rooms| && AllGoodIn(w, r.t, SweepRooms(w, Handling(w), rooms, k, careful, r).t)
    ensures Served(w, rooms[i], r.t, SweepRooms(w, Handling(w), rooms, k, careful, r).t)
    decreases |rooms| - k
  {
    var j, v := k + 1, Visit(w, Handling(w), rooms[k], careful, r);
    var q := SweepRooms(w, Handling(w), rooms, k, careful, r);
    VisitTrue(w, rooms[k], careful, r);
    RoomsTrue(w, rooms, j, careful, v);
    VisitServes(w, rooms[k], careful, r);
    if i == k {
      ServedLater(w, rooms[k], r.t, r.t, v.t, q.t);
    } else {
      RoomsServe(w, rooms, j, careful, v, i);
      ServedLater(w, rooms[i], r.t, v.t, q.t, q.t);
    }
  }

  lemma PollAsks(w: World, careful: bool, st: Memory, t: Trace)
    ensures var r := Poll(w, careful, st, t); |t| < |r.t| && (Ask(w, t).flag ==> |t| + 1 < |r.t|)
  {
    var t1 := t + [ReadyAsked(Ask(w, t).flag)];
    var t2 := t1 + [RoomsAsked(Ask(w, t1).ok)];
    RoomsTrue(w, w.rooms(|t1|), 0, careful, Round(false, false, st, t2));
  }

  /** A poll whose answers are all good reports no failure and gives every room of its list a call that
      passes all its inbox showed, up to a message that is due but has no text. */
  lemma GoodPoll(w: World, careful: bool, st: Memory, t: Trace)
    requires AllGoodIn(w, t, Poll(w, careful, st, t).t)
    ensures !Poll(w, careful, st, t).failed
    ensures forall room :: room in w.rooms(|t| + 1) ==> Served(w, room, t, Poll(w, careful, st, t).t)
  {
    var t1 := t + [ReadyAsked(Ask(w, t).flag)];
    var t2 := t1 + [RoomsAsked(Ask(w, t1).ok)];
    var r, rooms := Poll(w, careful, st, t), w.rooms(|t1|);
    PollAsks(w, careful, st, t);
    assert Good(w.answers(|t|));
    assert Good(w.answers(|t| + 1));
    forall room | room in rooms ensures Served(w, room, t, r.t) {
      var i :| 0 <= i < |rooms| && rooms[i] == room;
      RoomsServe(w, rooms, 0, careful, Round(false, false, st, t2), i);
      ServedLater(w, room, t, t2, r.t, r.t);
    }
    PollTrue(w, careful, st, t);
    PollReports(w, careful, st, t);
    NoneFailing(w, t, r.t);
  }

  lemma NoneFailing(w: World, t: Trace, t': Trace)
    requires Truthful(w, t, t') && AllGoodIn(w, t, t')
    ensures !HasFailing(t, t')
  {
    forall i | |t| <= i < |t'| ensures !Failing(t'[i]) {
      assert Truth(w, t'[i], i) && Good(w.answers(i));
    }
  }
}
