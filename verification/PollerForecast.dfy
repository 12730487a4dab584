/** The cursor rule judged before a call: whatever the call will be answered, it keeps the rule exactly
    when the gap it starts with is settled, or the first message ahead that is no own post cannot be
    delivered. */
module PollerForecast {
  import opened Text
  import opened WakeRule
  import opened LoopGuard
  import opened PollerModel
  import opened PollerTrace
  import opened PollerHistory
  import opened PollerAccounts
  import opened PollerBooks
  import opened PollerCursor

  // ---- What lies ahead ----

  /** The last instant at which the message is not expired by its date. */
  function InTime(m: Message): int { if m.expiresAt.Some? then m.expiresAt.value - 1 else 0 }

  /** The message would wake the poller in time, and there is something to write. */
  ghost predicate Writable(w: World, room: RoomId, m: Message)
  {
    m.body != "" && Wakes(w.self, room.kind, m, ParentOf(w, room, m), w.mentions, InTime(m))
  }

  /** Of these messages from the k-th on, the first that is no own post can be delivered: it is
      writable, and the loop guard does not hold it. `r` is what the guard knows of the room. */
  ghost predicate CanDeliver(w: World, room: RoomId, r: Room, msgs: seq<Message>, k: nat)
    requires k <= |msgs|
    decreases |msgs| - k
  {
    k < |msgs| &&
    var r' := Hear(w.novel, r, msgs[k]);
    if Own(w.self, msgs[k]) then CanDeliver(w, room, r', msgs, k + 1)
    else Writable(w, room, msgs[k]) && !(w.enforce && Holds(r'.streak))
  }

  /** The messages that a call can get at most. */
  function Ahead(w: World, key: string, st: Memory, t: Trace): seq<Message>
  {
    Batch(w.log(key), |w.log(key)|, StartOf(w, key, st, t))
  }

  // ---- The first telling pass is a delivery only if one lies ahead ----

  lemma EarlierWakes(w: World, room: RoomId, m: Message, now: int)
    requires Wakes(w.self, room.kind, m, ParentOf(w, room, m), w.mentions, now)
    ensures Wakes(w.self, room.kind, m, ParentOf(w, room, m), w.mentions, InTime(m))
  {
  }

  lemma DeliveredHasBody(w: World, room: RoomId, m: Message, st: Memory, t: Trace)
    requires Handle(w, room, m, st, t).verdict == Past(Delivered)
    ensures m.body != ""
  {
  }

  /** The guard's memory of the room after any message was handled. */
  lemma HandleHears(w: World, room: RoomId, m: Message, st: Memory, t: Trace)
    ensures RoomOf(Handle(w, room, m, st, t).st, room.key) == Hear(w.novel, RoomOf(st, room.key), m)
  {
  }

  lemma DeliveredIsWritable(w: World, room: RoomId, m: Message, st: Memory, t: Trace)
    requires Handle(w, room, m, st, t).verdict == Past(Delivered)
    ensures !Own(w.self, m) && Writable(w, room, m) && !(w.enforce && Holds(Hear(w.novel, RoomOf(st, room.key), m).streak))
  {
    HandleDecides(w, room, m, st, t);
    DeliveredHasBody(w, room, m, st, t);
    EarlierWakes(w, room, m, Ask(w, t).now);
  }

  /** What a message that is passed tells. */
  lemma PassedTells(w: World, room: RoomId, m: Message, s: Sweep, st: Memory, t: Trace, t1: Trace, t': Trace)
    requires Silent(t, t1)
    requires var h := Handle(w, room, m, st, t1);
             h.verdict.Past? && Advance(w, room.key, m.id, h.verdict.fate, s, h.st, h.t).t <= t'
    ensures var h := Handle(w, room, m, st, t1);
            var a := Advance(w, room.key, m.id, h.verdict.fate, s, h.st, h.t);
            FirstFate(t', |t|) == Some(Delivered) ==>
              if Own(w.self, m) then !a.failed && FirstFate(t', |a.t|) == Some(Delivered)
              else Writable(w, room, m) && !(w.enforce && Holds(Hear(w.novel, RoomOf(st, room.key), m).streak))
  {
    var h := Handle(w, room, m, st, t1);
    HandleSilent(w, room, m, st, t1);
    SilentJoin(t, t1, h.t);
    PassTells(w, room, m, h.verdict.fate, s, h.st, t, h.t, t');
    if Own(w.self, m) {
      OwnIsPassed(w, room, m, st, t1);
    } else if h.verdict.fate.Delivered? {
      DeliveredIsWritable(w, room, m, st, t1);
    } else if h.verdict.fate.OwnPost? {
      HandleDecides(w, room, m, st, t1);
    }
  }

  /** What one message of a sweep does to the first telling pass. */
  lemma MoveTells(w: World, room: RoomId, m: Message, s: Sweep, st: Memory, t: Trace, t': Trace)
    requires var v := MoveOf(w, Handling(w), room, m, s, st, t); v.t <= t' && (!v.on ==> t' == v.t)
    ensures var v := MoveOf(w, Handling(w), room, m, s, st, t);
            && t <= v.t
            && (FirstFate(t', |t|) == Some(Delivered) ==>
                  if Own(w.self, m) then v.on && FirstFate(t', |v.t|) == Some(Delivered)
                  else Writable(w, room, m) && !(w.enforce && Holds(Hear(w.novel, RoomOf(st, room.key), m).streak)))
            && (v.on ==> v.s.pos == m.id && RoomOf(v.st, room.key) == Hear(w.novel, RoomOf(st, room.key), m))
  {
    var alive := Ask(w, t).flag;
    var t1 := t + [AliveAsked(alive)];
    if !alive {
      NoneTold(t, t1);
    } else {
      var h := Handle(w, room, m, st, t1);
      HandleSilent(w, room, m, st, t1);
      SilentJoin(t, t1, h.t);
      HandleHears(w, room, m, st, t1);
      if h.verdict.Past? {
        PassedTells(w, room, m, s, st, t, t1, t');
      } else {
        NoneTold(t, h.t);
      }
    }
  }

  lemma PassTells(w: World, room: RoomId, m: Message, fate: Fate, s: Sweep, st: Memory, t: Trace, ht: Trace, t': Trace)
    requires Silent(t, ht) && Advance(w, room.key, m.id, fate, s, st, ht).t <= t'
    ensures var a := Advance(w, room.key, m.id, fate, s, st, ht);
            FirstFate(t', |t|) == if fate.OwnPost? then FirstFate(t', |a.t|) else Some(fate)
  {
    var a := Advance(w, room.key, m.id, fate, s, st, ht);
    assert ht <= a.t && t'[|ht|] == Passed(room.key, m.id, fate);
    assert forall i :: |t| <= i < |ht| ==> t'[i] == ht[i];
    SkipsTo(t', |t|, |ht|);
    if fate.OwnPost? {
      SkipsTo(t', |t|, |a.t|);
    }
  }

  lemma {:induction false} SweepTells(w: World, room: RoomId, msgs: seq<Message>, k: nat, s: Sweep, st: Memory, t: Trace)
    requires k <= |msgs| && Rising(msgs) && forall j :: k <= j < |msgs| ==> s.pos < msgs[j].id
    ensures var t' := SweepBatch(w, Handling(w), room, msgs, k, s, st, t).t;
            t <= t' && (FirstFate(t', |t|) == Some(Delivered) ==> CanDeliver(w, room, RoomOf(st, room.key), msgs, k))
    decreases |msgs| - k
  {
    if k < |msgs| {
      var v := MoveOf(w, Handling(w), room, msgs[k], s, st, t);
      var t' := SweepBatch(w, Handling(w), room, msgs, k, s, st, t).t;
      if v.on {
        var j := k + 1;
        SweepGrows(w, room, msgs, j, v.s, v.st, v.t);
        MoveTells(w, room, msgs[k], s, st, t, t');
        SweepTells(w, room, msgs, j, v.s, v.st, v.t);
      } else {
        MoveTells(w, room, msgs[k], s, st, t, t');
      }
    }
  }

  lemma SweepGrows(w: World, room: RoomId, msgs: seq<Message>, k: nat, s: Sweep, st: Memory, t: Trace)
    requires k <= |msgs|
    ensures t <= SweepBatch(w, Handling(w), room, msgs, k, s, st, t).t
  {
    HandlingModest(w);
    SweepAhead(w, Handling(w), room, msgs, k, s, st, t, 0);
  }

  lemma {:induction false} MoreAhead(w: World, room: RoomId, r: Room, msgs: seq<Message>, more: seq<Message>, k: nat)
    requires k <= |msgs| && msgs <= more && CanDeliver(w, room, r, msgs, k)
    ensures CanDeliver(w, room, r, more, k)
    decreases |msgs| - k
  {
    if Own(w.self, msgs[k]) {
      MoreAhead(w, room, Hear(w.novel, r, msgs[k]), msgs, more, k + 1);
    }
  }

  /** The longest batch has all others as front parts. */
  lemma BatchIsFront(log: seq<Message>, visible: nat, pos: nat)
    ensures Batch(log, visible, pos) <= Batch(log, |log|, pos)
  {
  }

  lemma NothingInBetween(t0: Trace, t: Trace, t': Trace)
    requires t0 <= t <= t' && forall i :: |t0| <= i < |t| ==> !Telling(t[i])
    ensures FirstFate(t', |t0|) == FirstFate(t', |t|)
  {
    assert forall i :: |t0| <= i < |t| ==> t'[i] == t[i];
    SkipsTo(t', |t0|, |t|);
  }

  lemma ToldInBatch(w: World, room: RoomId, visible: nat, s: Sweep, st: Memory, msgs: seq<Message>, t: Trace, t': Trace)
    requires msgs == Batch(w.log(room.key), visible, s.pos) && t' == SweepBatch(w, Handling(w), room, msgs, 0, s, st, t).t
    ensures t <= t'
    ensures FirstFate(t', |t|) == Some(Delivered) ==> CanDeliver(w, room, RoomOf(st, room.key), msgs, 0)
  {
    BatchAhead(w.log(room.key), visible, s.pos);
    SweepTells(w, room, msgs, 0, s, st, t);
  }

  lemma NoneTold(t: Trace, t': Trace)
    requires t <= t' && forall i :: |t| <= i < |t'| ==> !Telling(t'[i])
    ensures FirstFate(t', |t|) == None
  {
    SkipsTo(t', |t|, |t'|);
  }

  lemma InboxTellsNothing(w: World, key: string, st: Memory, t: Trace)
    ensures var t' := InboxAsked(w, key, st, t); t <= t' && forall i :: |t| <= i < |t'| ==> !Telling(t'[i])
  {
  }

  /** If the first telling pass of a call is a delivery, one was possible. */
  lemma DeliveryWasAhead(w: World, room: RoomId, st: Memory, t: Trace, t': Trace)
    requires t' == PollRoom(w, Handling(w), room, false, st, t).t && t <= t' && FirstFate(t', |t|) == Some(Delivered)
    ensures CanDeliver(w, room, RoomOf(st, room.key), Ahead(w, room.key, st, t), 0)
  {
    if Ask(w, t).ok && Ask(w, CursorAsked(w, room.key, t)).ok {
      var msgs, visible := BatchOf(w, room.key, st, t), Ask(w, CursorAsked(w, room.key, t)).visible;
      InboxTellsNothing(w, room.key, st, t);
      ToldInBatch(w, room, visible, FirstSweep(w, room.key, false, st, t), st, msgs, InboxAsked(w, room.key, st, t), t');
      NothingInBetween(t, InboxAsked(w, room.key, st, t), t');
      BatchIsFront(w.log(room.key), visible, StartOf(w, room.key, st, t));
      MoreAhead(w, room, RoomOf(st, room.key), msgs, Ahead(w, room.key, st, t), 0);
    } else {
      NoneTold(t, t');
    }
  }

  // ---- Some course of the call delivers it ----

  /** From here on every answer is good, and given at this instant. */
  ghost predicate AllGood(w: World, now: int)
  {
    forall n {:trigger w.answers(n)} ::
      var a := w.answers(n);
      a.ok && a.flag && a.now == now && a.grant.Granted? && a.claim.Won?
  }

  /** The instant at which the first message that is no own post is written. */
  function Instant(self: string, msgs: seq<Message>, k: nat): int
    requires k <= |msgs|
    decreases |msgs| - k
  {
    if k == |msgs| then 0 else if Own(self, msgs[k]) then Instant(self, msgs, k + 1) else InTime(msgs[k])
  }

  lemma OwnIsPassed(w: World, room: RoomId, m: Message, st: Memory, t: Trace)
    requires Own(w.self, m)
    ensures Handle(w, room, m, st, t).verdict == Past(OwnPost)
  {
  }

  lemma GoodDeliver(w: World, now: int, m: Message, t: Trace)
    requires AllGood(w, now) && m.body != ""
    ensures Deliver(w, m, t).verdict == Past(Delivered)
  {
  }

  lemma GoodLook(w: World, now: int, room: RoomId, m: Message, t: Trace)
    requires AllGood(w, now) && Wakes(w.self, room.kind, m, ParentOf(w, room, m), w.mentions, now)
    ensures var l := Look(w, room, m, t);
            l.mentions.Some? && ShouldWake(w.self, room.kind, m, l.mentions.value, l.parent, now)
  {
    LookParentFinds(w, room, m, t);
  }

  lemma GoodIsDelivered(w: World, room: RoomId, m: Message, st: Memory, t: Trace)
    requires AllGood(w, InTime(m)) && !Own(w.self, m) && Writable(w, room, m)
    requires !(w.enforce && Holds(Hear(w.novel, RoomOf(st, room.key), m).streak))
    ensures Handle(w, room, m, st, t).verdict == Past(Delivered)
  {
    var st1 := Listen(w, st, room.key, m);
    var t1 := t + [Heard(room.key, m, Holds(RoomOf(st1, room.key).streak))];
    GoodLook(w, InTime(m), room, m, t1);
    GoodDeliver(w, InTime(m), m, Look(w, room, m, t1).t);
  }

  /** One message of a sweep where everything goes well. */
  lemma GoodMove(w: World, now: int, room: RoomId, m: Message, s: Sweep, st: Memory, t: Trace, t': Trace)
    requires AllGood(w, now) && MoveOf(w, Handling(w), room, m, s, st, t).t <= t'
    requires !Own(w.self, m) ==> now == InTime(m) && Writable(w, room, m) && !(w.enforce && Holds(Hear(w.novel, RoomOf(st, room.key), m).streak))
    ensures var v := MoveOf(w, Handling(w), room, m, s, st, t);
            && t <= v.t && v.on && v.s.pos == m.id && RoomOf(v.st, room.key) == Hear(w.novel, RoomOf(st, room.key), m)
            && FirstFate(t', |t|) == if Own(w.self, m) then FirstFate(t', |v.t|) else Some(Delivered)
  {
    var t1 := t + [AliveAsked(true)];
    var h := Handle(w, room, m, st, t1);
    HandleSilent(w, room, m, st, t1);
    SilentJoin(t, t1, h.t);
    HandleHears(w, room, m, st, t1);
    if Own(w.self, m) {
      OwnIsPassed(w, room, m, st, t1);
    } else {
      GoodIsDelivered(w, room, m, st, t1);
    }
    PassTells(w, room, m, h.verdict.fate, s, h.st, t, h.t, t');
  }

  lemma {:induction false} GoodSweep(w: World, now: int, room: RoomId, msgs: seq<Message>, k: nat, s: Sweep, st: Memory, t: Trace)
    requires k <= |msgs| && Rising(msgs) && (forall j :: k <= j < |msgs| ==> s.pos < msgs[j].id)
    requires AllGood(w, now) && now == Instant(w.self, msgs, k) && CanDeliver(w, room, RoomOf(st, room.key), msgs, k)
    ensures var t' := SweepBatch(w, Handling(w), room, msgs, k, s, st, t).t;
            t <= t' && FirstFate(t', |t|) == Some(Delivered)
    decreases |msgs| - k
  {
    var j := k + 1;
    var v, t' := MoveOf(w, Handling(w), room, msgs[k], s, st, t), SweepBatch(w, Handling(w), room, msgs, k, s, st, t).t;
    SweepGrows(w, room, msgs, j, v.s, v.st, v.t);
    SweepGrows(w, room, msgs, k, s, st, t);
    if v.on {
      GoodMove(w, now, room, msgs[k], s, st, t, t');
      if Own(w.self, msgs[k]) {
        GoodSweep(w, now, room, msgs, j, v.s, v.st, v.t);
      }
    } else {
      GoodMove(w, now, room, msgs[k], s, st, t, v.t);
    }
  }

  // ---- The forecast ----

  /** This world, answering otherwise. */
  function Otherwise(w: World, answers: nat -> Answer): World { w.(answers := answers) }

  /** A call in this world keeps the rule. */
  ghost predicate Keeps(w: World, room: RoomId, st: Memory, t: Trace)
  {
    MovesBacked(w.log(room.key), Ask(w, t).cursor, room.key, |t|, PollRoom(w, Handling(w), room, false, st, t).t)
  }

  /** Whatever the call is answered, with the shared cursor where it stands, it keeps the rule. */
  ghost predicate AlwaysKeeps(w: World, room: RoomId, st: Memory, t: Trace)
  {
    forall answers: nat -> Answer {:trigger Otherwise(w, answers)} ::
      answers(|t|).cursor == Ask(w, t).cursor ==> Keeps(Otherwise(w, answers), room, st, t)
  }

  ghost predicate DeliveryAhead(w: World, room: RoomId, st: Memory, t: Trace)
  {
    CanDeliver(w, room, RoomOf(st, room.key), Ahead(w, room.key, st, t), 0)
  }

  lemma {:induction false} SameForecast(w: World, answers: nat -> Answer, room: RoomId, r: Room, msgs: seq<Message>, k: nat)
    requires k <= |msgs|
    ensures CanDeliver(Otherwise(w, answers), room, r, msgs, k) <==> CanDeliver(w, room, r, msgs, k)
    decreases |msgs| - k
  {
    if k < |msgs| {
      SameForecast(w, answers, room, Hear(w.novel, r, msgs[k]), msgs, k + 1);
    }
  }

  lemma SameAhead(w: World, answers: nat -> Answer, room: RoomId, st: Memory, t: Trace)
    requires answers(|t|).cursor == Ask(w, t).cursor
    ensures DeliveryAhead(Otherwise(w, answers), room, st, t) <==> DeliveryAhead(w, room, st, t)
    ensures GapSettled(Otherwise(w, answers), room.key, st, t) <==> GapSettled(w, room.key, st, t)
  {
    SameForecast(w, answers, room, RoomOf(st, room.key), Ahead(w, room.key, st, t), 0);
  }

  /** The answers with which the message ahead is delivered. */
  function BestAnswers(w: World, room: RoomId, st: Memory, t: Trace): nat -> Answer
  {
    var now, cursor, all := Instant(w.self, Ahead(w, room.key, st, t), 0), Ask(w, t).cursor, |w.log(room.key)|;
    (n: nat) => Answer(true, true, now, cursor, all, Granted, Won)
  }

  lemma BestDelivers(w: World, room: RoomId, st: Memory, t: Trace)
    requires DeliveryAhead(w, room, st, t)
    ensures var t' := PollRoom(Otherwise(w, BestAnswers(w, room, st, t)), Handling(Otherwise(w, BestAnswers(w, room, st, t))), room, false, st, t).t;
            t <= t' && FirstFate(t', |t|) == Some(Delivered)
  {
    var best := BestAnswers(w, room, st, t);
    var w' := Otherwise(w, best);
    SameAhead(w, best, room, st, t);
    BestCall(w', room, Instant(w.self, Ahead(w, room.key, st, t), 0), st, t);
  }

  lemma GoodBatch(w: World, now: int, room: RoomId, visible: nat, s: Sweep, st: Memory, msgs: seq<Message>, t0: Trace, t: Trace, t': Trace)
    requires msgs == Batch(w.log(room.key), visible, s.pos) && t' == SweepBatch(w, Handling(w), room, msgs, 0, s, st, t).t
    requires t0 <= t && (forall i :: |t0| <= i < |t| ==> !Telling(t[i]))
    requires AllGood(w, now) && now == Instant(w.self, msgs, 0) && CanDeliver(w, room, RoomOf(st, room.key), msgs, 0)
    ensures t0 <= t' && FirstFate(t', |t0|) == Some(Delivered)
  {
    BatchAhead(w.log(room.key), visible, s.pos);
    GoodSweep(w, now, room, msgs, 0, s, st, t);
    NothingInBetween(t0, t, t');
  }

  lemma BestCall(w: World, room: RoomId, now: int, st: Memory, t: Trace)
    requires AllGood(w, now) && now == Instant(w.self, Ahead(w, room.key, st, t), 0) && DeliveryAhead(w, room, st, t)
    requires forall n :: w.answers(n).visible == |w.log(room.key)|
    ensures var t' := PollRoom(w, Handling(w), room, false, st, t).t; t <= t' && FirstFate(t', |t|) == Some(Delivered)
  {
    InboxTellsNothing(w, room.key, st, t);
    GoodBatch(w, now, room, |w.log(room.key)|, FirstSweep(w, room.key, false, st, t), st, Ahead(w, room.key, st, t), t,
              InboxAsked(w, room.key, st, t), PollRoom(w, Handling(w), room, false, st, t).t);
  }

  /** What a caller can check before the call: it will keep the cursor rule, whatever it is answered, if
      and only if everything between the shared cursor and the position is settled, or the first message
      ahead that is no own post cannot be delivered. */
  lemma RuleForecast(w: World, room: RoomId, st: Memory, t: Trace)
    ensures AlwaysKeeps(w, room, st, t) <==> GapSettled(w, room.key, st, t) || !DeliveryAhead(w, room, st, t)
  {
    if GapSettled(w, room.key, st, t) || !DeliveryAhead(w, room, st, t) {
      forall answers: nat -> Answer | answers(|t|).cursor == Ask(w, t).cursor ensures Keeps(Otherwise(w, answers), room, st, t) {
        SameAhead(w, answers, room, st, t);
        KeepsHere(Otherwise(w, answers), room, st, t);
      }
    } else {
      var best := BestAnswers(w, room, st, t);
      SameAhead(w, best, room, st, t);
      BestDelivers(w, room, st, t);
      RuleKeptExactly(Otherwise(w, best), room, st, t);
      assert !Keeps(Otherwise(w, best), room, st, t);
    }
  }

  lemma KeepsHere(w: World, room: RoomId, st: Memory, t: Trace)
    requires GapSettled(w, room.key, st, t) || !DeliveryAhead(w, room, st, t)
    ensures Keeps(w, room, st, t)
  {
    var t' := PollRoom(w, Handling(w), room, false, st, t).t;
    RuleKeptExactly(w, room, st, t);
    if FirstFate(t', |t|) == Some(Delivered) {
      DeliveryWasAhead(w, room, st, t, t');
    }
  }
}
