/** The poller's protocol as functions: what it asks and does, in order, given every answer of
    the world around it. */
module PollerModel {
  import opened Text
  import opened WakeRule
  import opened LoopGuard

  const INBOX_LIMIT := 100

  datatype RoomId = RoomId(key: string, kind: RoomKind)

  // ---- What the poller does, one observable step at a time ----

  datatype Claim = Won | Lost | Broken

  /** The final outcome of a message that the poller's position has passed. */
  datatype Fate = Delivered | OwnPost | Unwoken | Held | Taken

  datatype Event =
    | ReadyAsked(ready: bool)                        // Notifier.Ready
    | AliveAsked(alive: bool)                        // ctx.Err
    | RoomsAsked(ok: bool)
    | CursorRead(room: string, cursor: nat)
    | InboxRead(room: string, after: nat, count: nat)
    | LookupFailed                                   // a read that answered with an error
    | Looked(id: nat)                                // Message or Mentions
    | Heard(room: string, m: Message, hold: bool)    // clock read, loop tracker fed
    | NoticePosted(room: string, id: nat, ok: bool)
    | Refused(id: nat)                               // budget: emit("")
    | BudgetFailed(id: nat)                          // budget: error before emit
    | Reserved(id: nat)                              // budget saved, emit(text) called
    | Claimed(id: nat, answer: Claim)
    | Returned(id: nat, ok: bool)                    // reservation rolled back
    | Notified(id: nat, ok: bool)                    // Notifier.Notify
    | Booked(id: nat, ok: bool)                      // receipt saved after the write
    | Passed(room: string, id: nat, fate: Fate)      // position moved past the message
    | CursorSet(room: string, id: nat, ok: bool)
    | Crashed                                        // the process ended; see PollerHistory

  type Trace = seq<Event>

  datatype Grant = Granted | Exhausted | Unreadable

  /** One answer of everything outside the poller: errors, readiness, clock, budget, claims and
      how much of a room's log is already there. */
  datatype Answer = Answer(ok: bool, flag: bool, now: int, cursor: nat, visible: nat, grant: Grant, claim: Claim)

  /** The world of one poller: its answers in order, its rooms at each step, the messages of each room (the log, growing
      as more of it becomes visible), and fixed facts about messages. */
  datatype WorldData = World(
    self: string,
    enforce: bool,          // loop guard mode
    canNotice: bool,        // the source can post notices
    answers: nat -> Answer,
    rooms: nat -> seq<RoomId>,   // asked anew in every poll
    log: string -> seq<Message>,
    parent: (string, nat) -> Option<Message>,
    mentions: nat -> seq<string>,
    novel: Novelty)

  ghost predicate Rising(log: seq<Message>)
  {
    forall j, k :: 0 <= j < k < |log| ==> log[j].id < log[k].id
  }

  ghost predicate Lawful(w: WorldData)
  {
    && (forall key {:trigger w.log(key)} :: Rising(w.log(key)))
    && (forall key, id {:trigger w.parent(key, id)} :: w.parent(key, id).Some? ==> w.parent(key, id).value.id == id)
  }

  type World = w: WorldData | Lawful(w)
    ghost witness World("", false, false, (n: nat) => Answer(false, false, 0, 0, 0, Granted, Lost), (n: nat) => [],
                        (k: string) => [], (k: string, id: nat) => None, (id: nat) => [],
                        (ms: seq<Message>, m: Message) => false)

  function Ask(w: World, t: Trace): Answer { w.answers(|t|) }

  // ---- The poller's memory ----

  datatype Memory = Memory(pos: map<string, nat>, rooms: map<string, Room>, noticed: set<string>)

  const NEWBORN := Memory(map[], map[], {})

  function PosOf(st: Memory, key: string): nat { if key in st.pos then st.pos[key] else 0 }

  function RoomOf(st: Memory, key: string): Room { if key in st.rooms then st.rooms[key] else EMPTY_ROOM }

  /** loopState */
  function Listen(w: World, st: Memory, key: string, m: Message): Memory
  {
    var r := Hear(w.novel, RoomOf(st, key), m);
    st.(rooms := st.rooms[key := r],
        noticed := if m.id > RoomOf(st, key).lastId && !Holds(r.streak) then st.noticed - {key} else st.noticed)
  }

  // ---- handle ----

  datatype Verdict = Past(fate: Fate) | Stalled | Failed

  datatype Outcome = Outcome(verdict: Verdict, t: Trace)

  datatype Turn = Turn(verdict: Verdict, st: Memory, t: Trace)

  /** The read calls before the wake decision; None when one answered with an error. */
  datatype Looks = Looks(mentions: Option<seq<string>>, parent: Parent, t: Trace)

  /** The write behind a won claim. */
  function Write(w: World, id: nat, t: Trace): Outcome
  {
    var ok := Ask(w, t).ok;
    var t1 := t + [Notified(id, ok)];
    if ok then Outcome(Past(Delivered), t1 + [Booked(id, Ask(w, t1).ok)]) else Outcome(Failed, t1)
  }

  /** What comes behind a claim that was not won. */
  function Return(w: World, id: nat, answer: Claim, t: Trace): Outcome
  {
    Outcome(if answer.Lost? then Past(Taken) else Failed, t + [Returned(id, Ask(w, t).ok)])
  }

  /** The claim and the write, inside the budget's emit. */
  function Emit(w: World, id: nat, t: Trace): Outcome
  {
    var answer := Ask(w, t).claim;
    var t1 := t + [Claimed(id, answer)];
    if answer.Won? then Write(w, id, t1) else Return(w, id, answer, t1)
  }

  /** hookbudget.DeliverChannel around the claim and the write. */
  function Spend(w: World, m: Message, t: Trace): Outcome
  {
    var grant := Ask(w, t).grant;
    if grant.Unreadable? then Outcome(Failed, t + [BudgetFailed(m.id)])
    else if m.body == "" || grant.Exhausted? then Outcome(Stalled, t + [Refused(m.id)])
    else Emit(w, m.id, t + [Reserved(m.id)])
  }

  function Deliver(w: World, m: Message, t: Trace): Outcome
  {
    var ready := Ask(w, t).flag;
    var t1 := t + [ReadyAsked(ready)];
    if ready then Spend(w, m, t1) else Outcome(Stalled, t1)
  }

  /** The parent's kind, asked for only where it can matter. */
  function LookParent(w: World, room: RoomId, m: Message, t: Trace): Looks
  {
    if m.replyTo == 0 || Attention(m) || m.human then Looks(Some([]), NotOwn, t)
    else if !Ask(w, t).ok then Looks(None, NotOwn, t + [LookupFailed])
    else
      var t1 := t + [Looked(m.replyTo)];
      match w.parent(room.key, m.replyTo)
      case None => Looks(Some([]), NotOwn, t1)
      case Some(parent) =>
        if !Own(w.self, parent) then Looks(Some([]), NotOwn, t1)
        else if Attention(parent) || parent.replyTo != 0 || !NeedsMentions(room.kind) then
          Looks(Some([]), ClassifyParent(w.self, room.kind, parent, m.sender, []), t1)
        else if !Ask(w, t1).ok then Looks(None, NotOwn, t1 + [LookupFailed])
        else
          Looks(Some([]), ClassifyParent(w.self, room.kind, parent, m.sender, w.mentions(parent.id)),
                t1 + [Looked(parent.id)])
  }

  /** Parent and mentions. */
  function Look(w: World, room: RoomId, m: Message, t: Trace): Looks
  {
    var p := LookParent(w, room, m, t);
    if p.mentions.None? || !NeedsMentions(room.kind) then p
    else if !Ask(w, p.t).ok then Looks(None, NotOwn, p.t + [LookupFailed])
    else Looks(Some(w.mentions(m.id)), p.parent, p.t + [Looked(m.id)])
  }

  /** loopHolds in enforce mode, at hold streak: once per hold, a notice. */
  function Hold(w: World, key: string, id: nat, st: Memory, t: Trace): Turn
  {
    if w.canNotice && key !in st.noticed then
      Turn(Past(Held), st.(noticed := st.noticed + {key}), t + [NoticePosted(key, id, Ask(w, t).ok)])
    else Turn(Past(Held), st, t)
  }

  function Handle(w: World, room: RoomId, m: Message, st: Memory, t: Trace): Turn
  {
    var now := Ask(w, t).now;
    var st1 := Listen(w, st, room.key, m);
    var hold := Holds(RoomOf(st1, room.key).streak);
    Decide(w, room, m, now, hold, st1, t + [Heard(room.key, m, hold)])
  }

  /** handle after the loop tracker was fed. */
  function Decide(w: World, room: RoomId, m: Message, now: int, hold: bool, st: Memory, t: Trace): Turn
  {
    if !WakeCandidate(w.self, room.kind, m, now) then Turn(Past(if Own(w.self, m) then OwnPost else Unwoken), st, t)
    else
      var l := Look(w, room, m, t);
      if l.mentions.None? then Turn(Failed, st, l.t)
      else if !ShouldWake(w.self, room.kind, m, l.mentions.value, l.parent, now) then Turn(Past(Unwoken), st, l.t)
      else if hold && w.enforce then Hold(w, room.key, m.id, st, l.t)
      else var d := Deliver(w, m, l.t); Turn(d.verdict, st, d.t)
  }

  /** handle as a value: what the sweep over a batch calls for each message. */
  type Handler = (RoomId, Message, Memory, Trace) -> Turn

  function Handling(w: World): Handler
  {
    (room: RoomId, m: Message, st: Memory, t: Trace) => Handle(w, room, m, st, t)
  }

  // ---- pollRoom ----

  /** How far a sweep over a batch has come. */
  datatype Sweep = Sweep(progress: bool, pos: nat, cursor: nat, contiguous: bool)

  datatype Round = Round(progress: bool, failed: bool, st: Memory, t: Trace)

  /** The first index of the log behind this position. */
  function Behind(log: seq<Message>, pos: nat): (k: nat)
    ensures k <= |log|
    decreases |log|
  {
    if log == [] then 0
    else if log[|log| - 1].id <= pos then |log|
    else Behind(log[..|log| - 1], pos)
  }

  function Min(a: int, b: int): int { if a <= b then a else b }

  /** Source.Inbox: at most a hundred messages behind `pos`, of what is visible by now. */
  function Batch(log: seq<Message>, visible: nat, pos: nat): seq<Message>
  {
    var from := Behind(log, pos);
    var to := Min(Min(visible, |log|), from + INBOX_LIMIT);
    if from < to then log[from..to] else []
  }

  /** What the sweep does with a message that was passed: the position, and the shared cursor
      while everything so far was delivered or own post. */
  function Advance(w: World, key: string, id: nat, fate: Fate, s: Sweep, st: Memory, t: Trace): Step
  {
    var st' := st.(pos := st.pos[key := id]);
    var t' := t + [Passed(key, id, fate)];
    if fate.Delivered? && s.contiguous && id > s.cursor then
      var ok := Ask(w, t').ok;
      Step(!ok, Sweep(true, id, id, true), st', t' + [CursorSet(key, id, ok)])
    else
      Step(false, Sweep(s.progress || fate.Delivered?, id, s.cursor,
                        s.contiguous && (fate.Delivered? || fate.OwnPost?)), st', t')
  }

  datatype Step = Step(failed: bool, s: Sweep, st: Memory, t: Trace)

  /** What comes of one message of a sweep, and whether the sweep goes on behind it. */
  datatype Move = Move(on: bool, failed: bool, s: Sweep, st: Memory, t: Trace)

  function MoveOf(w: World, handle: Handler, room: RoomId, m: Message, s: Sweep, st: Memory, t: Trace): Move
  {
    var alive := Ask(w, t).flag;
    var t1 := t + [AliveAsked(alive)];
    if !alive then Move(false, true, s, st, t1)
    else
      var h := handle(room, m, st, t1);
      if !h.verdict.Past? then Move(false, h.verdict.Failed?, s, h.st, h.t)
      else
        var a := Advance(w, room.key, m.id, h.verdict.fate, s, h.st, h.t);
        Move(!a.failed, a.failed, a.s, a.st, a.t)
  }

  function SweepBatch(w: World, handle: Handler, room: RoomId, msgs: seq<Message>, k: nat, s: Sweep, st: Memory, t: Trace): Round
    requires k <= |msgs|
    decreases |msgs| - k
  {
    if k == |msgs| then Round(s.progress, false, st, t)
    else if msgs[k].id <= s.pos then SweepBatch(w, handle, room, msgs, k + 1, s, st, t)
    else
      var v := MoveOf(w, handle, room, msgs[k], s, st, t);
      if v.on then SweepBatch(w, handle, room, msgs, k + 1, v.s, v.st, v.t) else Round(v.s.progress, v.failed, v.st, v.t)
  }

  /** Where a call's sweep starts: at the position, or at the shared cursor if that is ahead. */
  function StartOf(w: World, key: string, st: Memory, t: Trace): nat
  {
    if Ask(w, t).cursor > PosOf(st, key) then Ask(w, t).cursor else PosOf(st, key)
  }

  function CursorAsked(w: World, key: string, t: Trace): Trace { t + [CursorRead(key, Ask(w, t).cursor)] }

  function BatchOf(w: World, key: string, st: Memory, t: Trace): seq<Message>
  {
    Batch(w.log(key), Ask(w, CursorAsked(w, key, t)).visible, StartOf(w, key, st, t))
  }

  /** The trace when the inbox has been read. */
  function InboxAsked(w: World, key: string, st: Memory, t: Trace): Trace
  {
    CursorAsked(w, key, t) + [InboxRead(key, StartOf(w, key, st, t), |BatchOf(w, key, st, t)|)]
  }

  /** The code's sweep starts contiguous; `careful` starts it so only when the position is not ahead
      of the shared cursor. */
  function FirstSweep(w: World, key: string, careful: bool, st: Memory, t: Trace): Sweep
  {
    Sweep(false, StartOf(w, key, st, t), Ask(w, t).cursor, !careful || PosOf(st, key) <= Ask(w, t).cursor)
  }

  /** pollRoom */
  function PollRoom(w: World, handle: Handler, room: RoomId, careful: bool, st: Memory, t: Trace): Round
  {
    if !Ask(w, t).ok then Round(false, true, st, t + [LookupFailed])
    else if !Ask(w, CursorAsked(w, room.key, t)).ok then Round(false, true, st, CursorAsked(w, room.key, t) + [LookupFailed])
    else
      SweepBatch(w, handle, room, BatchOf(w, room.key, st, t), 0, FirstSweep(w, room.key, careful, st, t), st,
                 InboxAsked(w, room.key, st, t))
  }

  /** One turn of the loop over the rooms. */
  function Visit(w: World, handle: Handler, room: RoomId, careful: bool, r: Round): Round
  {
    var alive := Ask(w, r.t).flag;
    var t1 := r.t + [AliveAsked(alive)];
    if !alive then r.(failed := true, t := t1)
    else
      var p := PollRoom(w, handle, room, careful, r.st, t1);
      Round(r.progress || p.progress, r.failed || p.failed, p.st, p.t)
  }

  /** The loop over the rooms: it ends early when the process is asked to. */
  function SweepRooms(w: World, handle: Handler, rooms: seq<RoomId>, k: nat, careful: bool, r: Round): Round
    requires k <= |rooms|
    decreases |rooms| - k
  {
    if k == |rooms| then r
    else
      var next := Visit(w, handle, rooms[k], careful, r);
      if Ask(w, r.t).flag then SweepRooms(w, handle, rooms, k + 1, careful, next) else next
  }

  /** Poll */
  function Poll(w: World, careful: bool, st: Memory, t: Trace): Round
  {
    var ready := Ask(w, t).flag;
    var t1 := t + [ReadyAsked(ready)];
    if !ready then Round(false, false, st, t1)
    else
      var ok := Ask(w, t1).ok;
      var t2 := t1 + [RoomsAsked(ok)];
      if !ok then Round(false, true, st, t2)
      else SweepRooms(w, Handling(w), w.rooms(|t1|), 0, careful, Round(false, false, st, t2))
  }
}
