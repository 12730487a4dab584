/** What every run of the poller keeps: the order of its steps around a claim, one event at a
    time, as an automaton over the trace. */
module PollerTrace {
  import opened Text
  import opened WakeRule
  import opened LoopGuard
  import opened PollerModel

  /** Where a poller stands in a delivery. `Idle` is between deliveries, `Wrong` is a step that
      the protocol forbids. */
  datatype Phase =
    | Idle
    | Ready                 // the notifier just said yes
    | Paid(id: nat)         // budget reserved
    | Mine(id: nat)         // claim won
    | Owing(id: nat, answer: Claim)   // claim not won, the reservation must go back
    | Writing(id: nat)      // written, receipt open
    | Sent(id: nat)         // written and booked
    | Gone(id: nat)         // claimed by another
    | Wrong

  function Next(p: Phase, e: Event): Phase
  {
    if e.Crashed? then (if p.Wrong? then Wrong else Idle)
    else match p
      case Idle => AtRest(e)
      case Ready =>
        if e.Reserved? then Paid(e.id) else if e.Refused? || e.BudgetFailed? then Idle else AtRest(e)
      case Paid(id) =>
        if e.Claimed? && e.id == id then (if e.answer.Won? then Mine(id) else Owing(id, e.answer)) else Wrong
      case Mine(id) =>
        if e.Notified? && e.id == id then (if e.ok then Writing(id) else Idle) else Wrong
      case Owing(id, answer) =>
        if e.Returned? && e.id == id then (if answer.Lost? then Gone(id) else Idle) else Wrong
      case Writing(id) => if e.Booked? && e.id == id then Sent(id) else Wrong
      case Sent(id) => if e.Passed? && e.id == id && e.fate.Delivered? then Idle else Wrong
      case Gone(id) => if e.Passed? && e.id == id && e.fate.Taken? then Idle else Wrong
      case Wrong => Wrong
  }

  function AtRest(e: Event): Phase
  {
    match e
    case ReadyAsked(ready) => if ready then Ready else Idle
    case Reserved(_) => Wrong
    case Refused(_) => Wrong
    case BudgetFailed(_) => Wrong
    case Claimed(_, _) => Wrong
    case Returned(_, _) => Wrong
    case Notified(_, _) => Wrong
    case Booked(_, _) => Wrong
    case Passed(_, _, fate) => if fate.Delivered? || fate.Taken? then Wrong else Idle
    case _ => Idle
  }

  function PhaseOf(t: Trace): Phase
    decreases |t|
  {
    if t == [] then Idle else Next(PhaseOf(t[..|t| - 1]), t[|t| - 1])
  }

  lemma Then(t: Trace, e: Event)
    ensures PhaseOf(t + [e]) == Next(PhaseOf(t), e)
  {
    assert (t + [e])[..|t|] == t;
  }

  // ---- Every part of a poll keeps the order ----

  /** A stretch that starts and ends between deliveries. */
  ghost predicate Calm(t: Trace, t': Trace)
  {
    t <= t' && PhaseOf(t') == Idle
  }

  ghost predicate Ends(v: Verdict, id: nat, t: Trace, t': Trace)
  {
    && t <= t'
    && PhaseOf(t') == if v == Past(Delivered) then Sent(id) else if v == Past(Taken) then Gone(id) else Idle
  }

  lemma WriteKeeps(w: World, id: nat, t: Trace)
    requires PhaseOf(t) == Mine(id)
    ensures var o := Write(w, id, t); Ends(o.verdict, id, t, o.t)
  {
    var ok := Ask(w, t).ok;
    var t1 := t + [Notified(id, ok)];
    Then(t, Notified(id, ok));
    if ok {
      Then(t1, Booked(id, Ask(w, t1).ok));
    }
  }

  lemma ReturnKeeps(w: World, id: nat, answer: Claim, t: Trace)
    requires PhaseOf(t) == Owing(id, answer)
    ensures var o := Return(w, id, answer, t); Ends(o.verdict, id, t, o.t)
  {
    Then(t, Returned(id, Ask(w, t).ok));
  }

  lemma ClaimKeeps(id: nat, t: Trace, answer: Claim)
    requires PhaseOf(t) == Paid(id)
    ensures PhaseOf(t + [Claimed(id, answer)]) == if answer.Won? then Mine(id) else Owing(id, answer)
  {
    Then(t, Claimed(id, answer));
  }

  lemma LaterEnds(v: Verdict, id: nat, t: Trace, t1: Trace, t2: Trace)
    requires t <= t1 && Ends(v, id, t1, t2)
    ensures Ends(v, id, t, t2)
  {
  }

  lemma EmitKeeps(w: World, id: nat, t: Trace)
    requires PhaseOf(t) == Paid(id)
    ensures var o := Emit(w, id, t); Ends(o.verdict, id, t, o.t)
  {
    var answer := Ask(w, t).claim;
    var t1 := t + [Claimed(id, answer)];
    ClaimKeeps(id, t, answer);
    if answer.Won? {
      WriteKeeps(w, id, t1);
      LaterEnds(Write(w, id, t1).verdict, id, t, t1, Write(w, id, t1).t);
    } else {
      ReturnKeeps(w, id, answer, t1);
      LaterEnds(Return(w, id, answer, t1).verdict, id, t, t1, Return(w, id, answer, t1).t);
    }
  }

  lemma SpendKeeps(w: World, m: Message, t: Trace)
    requires PhaseOf(t) == Ready
    ensures var o := Spend(w, m, t); Ends(o.verdict, m.id, t, o.t)
  {
    var grant := Ask(w, t).grant;
    if grant.Unreadable? {
      Then(t, BudgetFailed(m.id));
    } else if m.body == "" || grant.Exhausted? {
      Then(t, Refused(m.id));
    } else {
      Then(t, Reserved(m.id));
      EmitKeeps(w, m.id, t + [Reserved(m.id)]);
    }
  }

  lemma DeliverKeeps(w: World, m: Message, t: Trace)
    requires PhaseOf(t) == Idle
    ensures var o := Deliver(w, m, t); Ends(o.verdict, m.id, t, o.t)
  {
    var ready := Ask(w, t).flag;
    Then(t, ReadyAsked(ready));
    if ready {
      SpendKeeps(w, m, t + [ReadyAsked(ready)]);
    }
  }

  /** Events that a poller may log between deliveries. */
  predicate Harmless(e: Event)
  {
    e.LookupFailed? || e.Looked? || e.Heard? || e.NoticePosted? || e.AliveAsked? || e.RoomsAsked? || e.CursorRead?
    || e.InboxRead? || e.CursorSet?
  }

  lemma Quiet(t: Trace, e: Event)
    requires Harmless(e) && PhaseOf(t) in {Idle, Ready}
    ensures Calm(t, t + [e])
  {
    Then(t, e);
  }

  lemma LookKeeps(w: World, room: RoomId, m: Message, t: Trace)
    requires PhaseOf(t) == Idle
    ensures Calm(t, Look(w, room, m, t).t)
  {
    LookParentKeeps(w, room, m, t);
    var p := LookParent(w, room, m, t);
    Quiet(p.t, LookupFailed);
    Quiet(p.t, Looked(m.id));
  }

  lemma LookParentKeeps(w: World, room: RoomId, m: Message, t: Trace)
    requires PhaseOf(t) == Idle
    ensures Calm(t, LookParent(w, room, m, t).t)
  {
    var t1 := t + [Looked(m.replyTo)];
    if !Ask(w, t).ok {
      Quiet(t, LookupFailed);
    } else {
      Quiet(t, Looked(m.replyTo));
      var parent := w.parent(room.key, m.replyTo);
      if parent.Some? {
        if Ask(w, t1).ok {
          Quiet(t1, Looked(parent.value.id));
        } else {
          Quiet(t1, LookupFailed);
        }
      }
    }
  }

  lemma HandleKeeps(w: World, room: RoomId, m: Message, st: Memory, t: Trace)
    requires PhaseOf(t) == Idle
    ensures var h := Handle(w, room, m, st, t); Ends(h.verdict, m.id, t, h.t)
  {
    var st1 := Listen(w, st, room.key, m);
    var hold := Holds(RoomOf(st1, room.key).streak);
    var t1 := t + [Heard(room.key, m, hold)];
    Quiet(t, Heard(room.key, m, hold));
    DecideKeeps(w, room, m, Ask(w, t).now, hold, st1, t1);
  }

  lemma HoldKeeps(w: World, key: string, id: nat, st: Memory, t: Trace)
    requires PhaseOf(t) == Idle
    ensures var h := Hold(w, key, id, st, t); h.verdict == Past(Held) && Calm(t, h.t)
  {
    Quiet(t, NoticePosted(key, id, Ask(w, t).ok));
  }

  lemma DecideKeeps(w: World, room: RoomId, m: Message, now: int, hold: bool, st: Memory, t: Trace)
    requires PhaseOf(t) == Idle
    ensures var h := Decide(w, room, m, now, hold, st, t); Ends(h.verdict, m.id, t, h.t)
  {
    if WakeCandidate(w.self, room.kind, m, now) {
      LookKeeps(w, room, m, t);
      var l := Look(w, room, m, t);
      if l.mentions.Some? && ShouldWake(w.self, room.kind, m, l.mentions.value, l.parent, now) {
        if hold && w.enforce {
          HoldKeeps(w, room.key, m.id, st, l.t);
        } else {
          DeliverKeeps(w, m, l.t);
        }
      }
    }
  }

  lemma AdvanceKeeps(w: World, key: string, id: nat, fate: Fate, s: Sweep, st: Memory, from: Trace, t: Trace)
    requires Ends(Past(fate), id, from, t)
    ensures var a := Advance(w, key, id, fate, s, st, t); t <= a.t && PhaseOf(a.t) == Idle
  {
    var t' := t + [Passed(key, id, fate)];
    Then(t, Passed(key, id, fate));
    Quiet(t', CursorSet(key, id, Ask(w, t').ok));
  }

  /** A handler that ends every delivery it starts. */
  ghost predicate Orderly(handle: Handler)
  {
    forall room, m, st, t {:trigger handle(room, m, st, t)} ::
      PhaseOf(t) == Idle ==> Ends(handle(room, m, st, t).verdict, m.id, t, handle(room, m, st, t).t)
  }

  lemma HandlingOrderly(w: World)
    ensures Orderly(Handling(w))
  {
    forall room, m, st, t | PhaseOf(t) == Idle
      ensures var h := Handling(w)(room, m, st, t); Ends(h.verdict, m.id, t, h.t)
    {
      HandleKeeps(w, room, m, st, t);
    }
  }

  lemma MoveKeeps(w: World, handle: Handler, room: RoomId, m: Message, s: Sweep, st: Memory, t: Trace)
    requires Orderly(handle) && PhaseOf(t) == Idle
    ensures Calm(t, MoveOf(w, handle, room, m, s, st, t).t)
  {
    var alive := Ask(w, t).flag;
    var t1 := t + [AliveAsked(alive)];
    Quiet(t, AliveAsked(alive));
    var h := handle(room, m, st, t1);
    if alive && h.verdict.Past? {
      AdvanceKeeps(w, room.key, m.id, h.verdict.fate, s, h.st, t1, h.t);
    }
  }

  lemma {:induction false} SweepBatchKeeps(w: World, handle: Handler, room: RoomId, msgs: seq<Message>, k: nat, s: Sweep, st: Memory, t: Trace)
    requires Orderly(handle) && k <= |msgs| && PhaseOf(t) == Idle
    ensures Calm(t, SweepBatch(w, handle, room, msgs, k, s, st, t).t)
    decreases |msgs| - k
  {
    if k < |msgs| {
      var j := k + 1;
      if msgs[k].id <= s.pos {
        SweepBatchKeeps(w, handle, room, msgs, j, s, st, t);
      } else {
        MoveKeeps(w, handle, room, msgs[k], s, st, t);
        var v := MoveOf(w, handle, room, msgs[k], s, st, t);
        if v.on {
          SweepBatchKeeps(w, handle, room, msgs, j, v.s, v.st, v.t);
        }
      }
    }
  }

  lemma PollRoomKeeps(w: World, handle: Handler, room: RoomId, careful: bool, st: Memory, t: Trace)
    requires Orderly(handle) && PhaseOf(t) == Idle
    ensures Calm(t, PollRoom(w, handle, room, careful, st, t).t)
  {
    var key := room.key;
    var t1 := CursorAsked(w, key, t);
    if !Ask(w, t).ok {
      Quiet(t, LookupFailed);
    } else {
      Quiet(t, CursorRead(key, Ask(w, t).cursor));
      if !Ask(w, t1).ok {
        Quiet(t1, LookupFailed);
      } else {
        Quiet(t1, InboxRead(key, StartOf(w, key, st, t), |BatchOf(w, key, st, t)|));
        SweepBatchKeeps(w, handle, room, BatchOf(w, key, st, t), 0, FirstSweep(w, key, careful, st, t), st, InboxAsked(w, key, st, t));
      }
    }
  }

  lemma VisitKeeps(w: World, handle: Handler, room: RoomId, careful: bool, r: Round)
    requires Orderly(handle) && PhaseOf(r.t) == Idle
    ensures Calm(r.t, Visit(w, handle, room, careful, r).t)
  {
    var alive := Ask(w, r.t).flag;
    Quiet(r.t, AliveAsked(alive));
    if alive {
      PollRoomKeeps(w, handle, room, careful, r.st, r.t + [AliveAsked(alive)]);
    }
  }

  lemma {:induction false} SweepRoomsKeeps(w: World, handle: Handler, rooms: seq<RoomId>, k: nat, careful: bool, r: Round)
    requires Orderly(handle) && k <= |rooms| && PhaseOf(r.t) == Idle
    ensures Calm(r.t, SweepRooms(w, handle, rooms, k, careful, r).t)
    decreases |rooms| - k
  {
    if k < |rooms| {
      VisitKeeps(w, handle, rooms[k], careful, r);
      if Ask(w, r.t).flag {
        var j := k + 1;
        SweepRoomsKeeps(w, handle, rooms, j, careful, Visit(w, handle, rooms[k], careful, r));
      }
    }
  }

  /** Every poll, whatever its world answers, goes through its deliveries in the right order and
      ends between two of them. */
  lemma PollKeeps(w: World, careful: bool, st: Memory, t: Trace)
    requires PhaseOf(t) == Idle
    ensures t <= Poll(w, careful, st, t).t
    ensures PhaseOf(Poll(w, careful, st, t).t) == Idle
  {
    var ready := Ask(w, t).flag;
    var t1 := t + [ReadyAsked(ready)];
    Then(t, ReadyAsked(ready));
    if ready {
      var ok := Ask(w, t1).ok;
      var t2 := t1 + [RoomsAsked(ok)];
      Quiet(t1, RoomsAsked(ok));
      if ok {
        HandlingOrderly(w);
        SweepRoomsKeeps(w, Handling(w), w.rooms(|t1|), 0, careful, Round(false, false, st, t2));
      }
    }
  }

  // ---- What the order means ----

  lemma {:induction false} PrefixKeeps(t: Trace, n: nat)
    requires n <= |t| && PhaseOf(t) != Wrong
    ensures PhaseOf(t[..n]) != Wrong
    decreases |t|
  {
    if n < |t| {
      PrefixKeeps(t[..|t| - 1], n);
      assert t[..|t| - 1][..n] == t[..n];
    } else {
      assert t[..n] == t;
    }
  }

  /** The phase right before an event of a correct trace. */
  lemma StepAt(t: Trace, i: nat)
    requires i < |t| && PhaseOf(t) != Wrong
    ensures PhaseOf(t[..i]) != Wrong && PhaseOf(t[..i + 1]) == Next(PhaseOf(t[..i]), t[i]) != Wrong
  {
    PrefixKeeps(t, i);
    PrefixKeeps(t, i + 1);
    assert t[..i + 1][..i] == t[..i];
  }

  /** The step that led to the phase before t[i]. */
  lemma StepBefore(t: Trace, i: nat)
    requires i < |t| && PhaseOf(t[..i]) !in {Idle, Wrong}
    ensures i > 0 && Next(PhaseOf(t[..i - 1]), t[i - 1]) == PhaseOf(t[..i])
  {
    assert i > 0 ==> t[..i][..i - 1] == t[..i - 1];
  }

  /** Each phase of a delivery has one way in. */
  lemma WayIn(p: Phase, e: Event)
    requires Next(p, e) !in {Idle, Wrong}
    ensures var q := Next(p, e);
            match q
            case Ready => e == ReadyAsked(true)
            case Paid(id) => p == Ready && e == Reserved(id)
            case Mine(id) => p == Paid(id) && e == Claimed(id, Won)
            case Owing(id, answer) => p == Paid(id) && e == Claimed(id, answer)
            case Writing(id) => p == Mine(id) && e == Notified(id, true)
            case Sent(id) => p == Writing(id)
            case Gone(id) => p == Owing(id, Lost)
            case _ => true
  {
  }

  lemma NeedsMine(p: Phase, e: Event)
    requires e.Notified? && Next(p, e) != Wrong
    ensures p == Mine(e.id)
  {
  }

  lemma NeedsPaid(p: Phase, e: Event)
    requires e.Claimed? && Next(p, e) != Wrong
    ensures p == Paid(e.id)
  {
  }

  lemma NeedsOutcome(p: Phase, e: Event)
    requires e.Passed? && Next(p, e) != Wrong
    ensures e.fate.Delivered? ==> p == Sent(e.id)
    ensures e.fate.Taken? ==> p == Gone(e.id)
  {
  }

  /** A write of a message comes right after its won claim. */
  lemma {:induction false} WriteAfterClaim(t: Trace, i: nat)
    requires i < |t| && PhaseOf(t) != Wrong && t[i].Notified?
    ensures i >= 1 && t[i - 1] == Claimed(t[i].id, Won)
  {
    StepAt(t, i);
    NeedsMine(PhaseOf(t[..i]), t[i]);
    StepBefore(t, i);
    WayIn(PhaseOf(t[..i - 1]), t[i - 1]);
  }

  /** A claim comes right after its reservation, and that right after the notifier was ready. */
  lemma ClaimAfterBudget(t: Trace, i: nat)
    requires i < |t| && PhaseOf(t) != Wrong && t[i].Claimed?
    ensures i >= 2 && t[i - 1] == Reserved(t[i].id) && t[i - 2] == ReadyAsked(true)
  {
    StepAt(t, i);
    NeedsPaid(PhaseOf(t[..i]), t[i]);
    StepBefore(t, i);
    WayIn(PhaseOf(t[..i - 1]), t[i - 1]);
    StepBefore(t, i - 1);
    WayIn(PhaseOf(t[..i - 2]), t[i - 2]);
  }

  /** A position passes a message as delivered only right after its successful write, and as
      taken only right after its lost claim. */
  lemma PassedAfterWrite(t: Trace, i: nat)
    requires i < |t| && PhaseOf(t) != Wrong && t[i].Passed?
    ensures t[i].fate.Delivered? ==> i >= 2 && t[i - 2] == Notified(t[i].id, true)
    ensures t[i].fate.Taken? ==> i >= 2 && t[i - 2] == Claimed(t[i].id, Lost)
  {
    StepAt(t, i);
    NeedsOutcome(PhaseOf(t[..i]), t[i]);
    if t[i].fate.Delivered? || t[i].fate.Taken? {
      StepBefore(t, i);
      WayIn(PhaseOf(t[..i - 1]), t[i - 1]);
      StepBefore(t, i - 1);
      WayIn(PhaseOf(t[..i - 2]), t[i - 2]);
    }
  }

  // ---- The budget balances ----

  function Count(t: Trace, kind: Event -> bool): nat
    decreases |t|
  {
    if t == [] then 0 else Count(t[..|t| - 1], kind) + if kind(t[|t| - 1]) then 1 else 0
  }

  function Reservations(t: Trace): nat { Count(t, (e: Event) => e.Reserved?) }

  function Returns(t: Trace): nat { Count(t, (e: Event) => e.Returned?) }

  function Writes(t: Trace): nat { Count(t, (e: Event) => e.Notified?) }

  predicate Uncrashed(t: Trace) { forall k :: 0 <= k < |t| ==> !t[k].Crashed? }

  /** Only an attempted write uses up budget: every reservation is given back or followed by one
      write attempt, except the one that is still open. */
  lemma {:induction false} BudgetBalances(t: Trace)
    requires PhaseOf(t) != Wrong && Uncrashed(t)
    ensures Reservations(t) == Returns(t) + Writes(t) + if Open(PhaseOf(t)) then 1 else 0
    decreases |t|
  {
    if t != [] {
      StepAt(t, |t| - 1);
      BudgetBalances(t[..|t| - 1]);
      BudgetStep(PhaseOf(t[..|t| - 1]), t[|t| - 1]);
    }
  }

  predicate Open(p: Phase) { p.Paid? || p.Mine? || p.Owing? }

  lemma BudgetStep(p: Phase, e: Event)
    requires Next(p, e) != Wrong && !e.Crashed?
    ensures e.Reserved? ==> !Open(p) && Open(Next(p, e))
    ensures e.Returned? || e.Notified? ==> Open(p) && !Open(Next(p, e))
    ensures !e.Reserved? && !e.Returned? && !e.Notified? ==> Open(Next(p, e)) == Open(p)
  {
  }
}
