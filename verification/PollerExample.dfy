/** Two calls of the code that move the shared cursor past a message nobody was given. */
module PollerExample {
  import opened Text
  import opened WakeRule
  import opened LoopGuard
  import opened PollerModel
  import opened PollerTrace
  import opened PollerHistory
  import opened PollerAccounts
  import opened PollerBooks
  import opened PollerCursor

  /** A world where everything works and the shared cursor stays at 0. */
  ghost predicate AllWell(w: World)
  {
    forall n :: w.answers(n).ok && w.answers(n).flag && w.answers(n).cursor == 0
                && w.answers(n).grant.Granted? && w.answers(n).claim.Won?
  }

  lemma HandleUnwoken(w: World, room: RoomId, m: Message, st: Memory, t: Trace)
    requires PlainAgentAck(room.kind, m) && !Own(w.self, m)
    ensures var h := Handle(w, room, m, st, t);
            h.verdict == Past(Unwoken) && h.st.pos == st.pos && |h.t| == |t| + 1 && Silent(t, h.t)
  {
    HandleSilent(w, room, m, st, t);
  }

  lemma HandleDelivered(w: World, room: RoomId, m: Message, st: Memory, t: Trace)
    requires AllWell(w) && !w.enforce && room.kind.Direct? && m.body != ""
    requires WakeCandidate(w.self, room.kind, m, Ask(w, t).now) && m.replyTo == 0
    ensures var h := Handle(w, room, m, st, t);
            h.verdict == Past(Delivered) && h.st.pos == st.pos && Silent(t, h.t)
  {
    HandleSilent(w, room, m, st, t);
    var hold := Holds(RoomOf(Listen(w, st, room.key, m), room.key).streak);
    var t1 := t + [Heard(room.key, m, hold)];
    assert Look(w, room, m, t1) == Looks(Some([]), NotOwn, t1);
    assert Deliver(w, m, t1).verdict == Past(Delivered);
  }

  lemma SweepOfOne(w: World, handle: Handler, room: RoomId, m: Message, s: Sweep, st: Memory, t: Trace)
    requires s.pos < m.id
    ensures var v := MoveOf(w, handle, room, m, s, st, t);
            SweepBatch(w, handle, room, [m], 0, s, st, t) == Round(v.s.progress, v.failed, v.st, v.t)
  {
    var v := MoveOf(w, handle, room, m, s, st, t);
    if v.on {
      assert SweepBatch(w, handle, room, [m], 1, v.s, v.st, v.t) == Round(v.s.progress, false, v.st, v.t);
    }
  }

  /** A call that reads its inbox where everything works. */
  lemma CallOpens(w: World, room: RoomId, m: Message, st: Memory, t: Trace)
    requires AllWell(w) && PosOf(st, room.key) < m.id
    requires Batch(w.log(room.key), w.answers(|t| + 1).visible, PosOf(st, room.key)) == [m]
    ensures var s := Sweep(false, PosOf(st, room.key), 0, true);
            var t2 := InboxAsked(w, room.key, st, t);
            var v := MoveOf(w, Handling(w), room, m, s, st, t2);
            && t <= t2 && |t2| == |t| + 2 && (forall k :: |t| <= k < |t2| ==> !t2[k].Passed?)
            && PollRoom(w, Handling(w), room, false, st, t) == Round(v.s.progress, v.failed, v.st, v.t)
  {
    assert |CursorAsked(w, room.key, t)| == |t| + 1;
    assert BatchOf(w, room.key, st, t) == [m];
    SweepOfOne(w, Handling(w), room, m, Sweep(false, PosOf(st, room.key), 0, true), st, InboxAsked(w, room.key, st, t));
  }

  lemma MoveUnwoken(w: World, room: RoomId, m: Message, s: Sweep, st: Memory, t: Trace)
    requires AllWell(w) && PlainAgentAck(room.kind, m) && !Own(w.self, m)
    ensures var v := MoveOf(w, Handling(w), room, m, s, st, t);
            && t <= v.t && |v.t| == |t| + 3 && PosOf(v.st, room.key) == m.id
            && forall k :: |t| <= k < |v.t| && v.t[k].Passed? ==> v.t[k] == Passed(room.key, m.id, Unwoken)
  {
    HandleUnwoken(w, room, m, st, t + [AliveAsked(true)]);
  }

  /** A call whose batch is one message that wakes nobody. */
  lemma CallUnwoken(w: World, room: RoomId, m: Message, st: Memory, t: Trace)
    requires AllWell(w) && PlainAgentAck(room.kind, m) && !Own(w.self, m)
    requires PosOf(st, room.key) < m.id
    requires Batch(w.log(room.key), w.answers(|t| + 1).visible, PosOf(st, room.key)) == [m]
    ensures var r := PollRoom(w, Handling(w), room, false, st, t);
            && t <= r.t && |r.t| == |t| + 5 && PosOf(r.st, room.key) == m.id
            && (forall k :: |t| <= k < |r.t| && r.t[k].Passed? ==> r.t[k] == Passed(room.key, m.id, Unwoken))
  {
    CallOpens(w, room, m, st, t);
    MoveUnwoken(w, room, m, Sweep(false, PosOf(st, room.key), 0, true), st, InboxAsked(w, room.key, st, t));
  }

  lemma AdvanceDelivered(w: World, key: string, id: nat, s: Sweep, st: Memory, t: Trace, ht: Trace)
    requires AllWell(w) && s.contiguous && s.cursor < id && Silent(t, ht)
    ensures var a := Advance(w, key, id, Delivered, s, st, ht);
            && !a.failed && t <= a.t && |t| < |a.t| && a.t[|a.t| - 1] == CursorSet(key, id, true)
            && (forall k :: |t| <= k < |a.t| && a.t[k].Passed? ==> a.t[k].id == id)
  {
  }

  lemma MoveDelivered(w: World, room: RoomId, m: Message, s: Sweep, st: Memory, t: Trace)
    requires AllWell(w) && !w.enforce && room.kind.Direct? && m.body != "" && m.replyTo == 0
    requires forall now :: WakeCandidate(w.self, room.kind, m, now)
    requires s.contiguous && s.cursor < m.id
    ensures var v := MoveOf(w, Handling(w), room, m, s, st, t);
            && t <= v.t && |t| < |v.t| && v.t[|v.t| - 1] == CursorSet(room.key, m.id, true)
            && (forall k :: |t| <= k < |v.t| && v.t[k].Passed? ==> v.t[k].id == m.id)
  {
    var t1 := t + [AliveAsked(true)];
    var h := Handle(w, room, m, st, t1);
    HandleDelivered(w, room, m, st, t1);
    SilentJoin(t, t1, h.t);
    AdvanceDelivered(w, room.key, m.id, s, h.st, t, h.t);
  }

  lemma PassesBehind(t: Trace, t1: Trace, t2: Trace, id: nat)
    requires t <= t1 <= t2 && (forall k :: |t| <= k < |t1| ==> !t1[k].Passed?)
    requires forall k :: |t1| <= k < |t2| && t2[k].Passed? ==> t2[k].id == id
    ensures forall k :: |t| <= k < |t2| && t2[k].Passed? ==> t2[k].id == id
  {
  }

  /** A call whose batch is one message that is delivered. */
  lemma CallDelivered(w: World, room: RoomId, m: Message, st: Memory, t: Trace)
    requires AllWell(w) && !w.enforce && room.kind.Direct? && m.body != "" && m.replyTo == 0
    requires forall now :: WakeCandidate(w.self, room.kind, m, now)
    requires PosOf(st, room.key) < m.id
    requires Batch(w.log(room.key), w.answers(|t| + 1).visible, PosOf(st, room.key)) == [m]
    ensures var r := PollRoom(w, Handling(w), room, false, st, t);
            && t <= r.t && |t| < |r.t| && r.t[|r.t| - 1] == CursorSet(room.key, m.id, true)
            && (forall k :: |t| <= k < |r.t| && r.t[k].Passed? ==> r.t[k].id == m.id)
  {
    var s, t1 := Sweep(false, PosOf(st, room.key), 0, true), InboxAsked(w, room.key, st, t);
    CallOpens(w, room, m, st, t);
    MoveDelivered(w, room, m, s, st, t1);
    PassesBehind(t, t1, MoveOf(w, Handling(w), room, m, s, st, t1).t, m.id);
  }

  // ---- The two messages ----

  const ROOM := RoomId("direct:1", Direct)
  const THANKS := Message(1, "peer", false, "ack", "", 0, false, None, None, "thanks")
  const QUESTION := Message(2, "peer", false, "question", "", 0, false, None, None, "and now?")

  /** The question becomes visible after the first call. */
  ghost function TwoMessages(): World
  {
    World("me", false, false,
          (n: nat) => Answer(true, true, 0, 0, if n < 5 then 1 else 2, Granted, Won),
          (n: nat) => [ROOM], (key: string) => [THANKS, QUESTION], (key: string, id: nat) => None, (id: nat) => [],
          (ms: seq<Message>, m: Message) => false)
  }

  lemma Strangers(w: World)
    requires w.self == "me"
    ensures PlainAgentAck(Direct, THANKS) && !Own(w.self, THANKS)
    ensures forall now :: WakeCandidate(w.self, Direct, QUESTION, now)
  {
    assert "peer" != "me" && "peer"[0] != ("me" + "/")[0];
  }

  lemma Batches(w: World)
    requires w.log(ROOM.key) == [THANKS, QUESTION]
    ensures Batch(w.log(ROOM.key), 1, 0) == [THANKS]
    ensures Batch(w.log(ROOM.key), 2, 1) == [QUESTION]
  {
    var log := [THANKS, QUESTION];
    assert log[..1] == [THANKS] && [THANKS][..0] == [];
    assert Behind([THANKS], 0) == 0;
    assert Behind(log, 0) == 0 && Behind(log, 1) == 1;
  }

  /** The second call ends by moving the cursor to m2, with m1 never settled. */
  ghost predicate BrokenAfter(w: World, room: RoomId, m1: Message, m2: Message)
  {
    var r1 := PollRoom(w, Handling(w), room, false, NEWBORN, []);
    var r2 := PollRoom(w, Handling(w), room, false, r1.st, r1.t);
    && |r2.t| > 0 && r2.t[|r2.t| - 1] == CursorSet(room.key, m2.id, true)
    && m1 in w.log(room.key) && m1.id < m2.id && !Settled(r2.t, |r2.t|, room.key, m1.id)
  }

  lemma NeverSettled(t: Trace, t': Trace, key: string, id: nat)
    requires t <= t'
    requires forall k :: 0 <= k < |t| && t[k].Passed? ==> t[k] == Passed(key, id, Unwoken)
    requires forall k :: |t| <= k < |t'| && t'[k].Passed? ==> t'[k].id != id
    ensures !Settled(t', |t'|, key, id)
  {
    forall k | 0 <= k < |t'| ensures !IsSettled(t'[k], key, id) {
      if k < |t| {
        assert t'[k] == t[k];
      }
    }
  }

  /** The second call, behind a first that passed m1 unwoken. */
  lemma SecondCall(w: World, room: RoomId, m1: Message, m2: Message, st: Memory, t: Trace)
    requires AllWell(w) && !w.enforce && room.kind.Direct? && m1.id < m2.id
    requires m2.body != "" && m2.replyTo == 0 && (forall now :: WakeCandidate(w.self, room.kind, m2, now))
    requires PosOf(st, room.key) == m1.id && |t| == 5 && Batch(w.log(room.key), w.answers(6).visible, m1.id) == [m2]
    requires forall k :: 0 <= k < |t| && t[k].Passed? ==> t[k] == Passed(room.key, m1.id, Unwoken)
    ensures var r := PollRoom(w, Handling(w), room, false, st, t);
            && |r.t| > 0 && r.t[|r.t| - 1] == CursorSet(room.key, m2.id, true) && !Settled(r.t, |r.t|, room.key, m1.id)
  {
    CallDelivered(w, room, m2, st, t);
    NeverSettled(t, PollRoom(w, Handling(w), room, false, st, t).t, room.key, m1.id);
  }

  lemma TwoCalls(w: World, room: RoomId, m1: Message, m2: Message)
    requires AllWell(w) && !w.enforce && room.kind.Direct? && m1 in w.log(room.key) && 0 < m1.id < m2.id
    requires PlainAgentAck(room.kind, m1) && !Own(w.self, m1)
    requires m2.body != "" && m2.replyTo == 0 && (forall now :: WakeCandidate(w.self, room.kind, m2, now))
    requires Batch(w.log(room.key), w.answers(1).visible, 0) == [m1]
    requires Batch(w.log(room.key), w.answers(6).visible, m1.id) == [m2]
    ensures BrokenAfter(w, room, m1, m2)
  {
    CallUnwoken(w, room, m1, NEWBORN, []);
    var r1 := PollRoom(w, Handling(w), room, false, NEWBORN, []);
    SecondCall(w, room, m1, m2, r1.st, r1.t);
  }

  /** The documented rule fails over two calls of the code: the second starts ahead of the
      cursor and moves it past a message that was neither delivered nor own post. */
  lemma TwoCallsBreakTheRule()
    ensures exists w: World, room: RoomId, m1: Message, m2: Message :: BrokenAfter(w, room, m1, m2)
  {
    var w := TwoMessages();
    Strangers(w);
    Batches(w);
    TwoCalls(w, ROOM, THANKS, QUESTION);
  }
}
