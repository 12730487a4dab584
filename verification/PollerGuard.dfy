/** The loop guard inside the poller: what its trackers hold after any run with retries, and how
    often it speaks up. Also the hook call, which is bounded to five messages. */
module PollerGuard {
  import opened Text
  import opened WakeRule
  import opened LoopGuard
  import opened PollerModel
  import opened PollerTrace
  import opened PollerHistory

  // ---- The trackers ----

  /** The messages of a room handled since the process started, retries included. */
  function HeardIn(t: Trace, key: string): seq<Message>
    decreases |t|
  {
    if t == [] then []
    else
      var before, e := HeardIn(t[..|t| - 1], key), t[|t| - 1];
      if e.Crashed? then [] else if e.Heard? && e.room == key then before + [e.m] else before
  }

  /** A notice of this hold is out. */
  predicate NoticeOut(t: Trace, key: string)
    decreases |t|
  {
    if t == [] then false
    else
      var before, e := NoticeOut(t[..|t| - 1], key), t[|t| - 1];
      match e
      case Crashed => false
      case Heard(room, _, hold) => before && (room == key ==> hold)
      case NoticePosted(room, _, _) => before || room == key
      case _ => before
  }

  /** No notice while one is out, and none is missing where a message is passed as held; every message
      is judged by the tracker it was fed to. */
  ghost predicate Spoken(w: World, t: Trace, key: string)
    decreases |t|
  {
    t == [] ||
    (var before, e := t[..|t| - 1], t[|t| - 1];
     && Spoken(w, before, key)
     && (e.NoticePosted? && e.room == key ==> !NoticeOut(before, key))
     && (e.Passed? && e.room == key && e.fate.Held? && w.canNotice ==> NoticeOut(before, key))
     && (e.Heard? && e.room == key ==> e.hold == Holds(HearAll(w.novel, HeardIn(t, key)).streak)))
  }

  ghost predicate Attuned(w: World, key: string, st: Memory, t: Trace)
  {
    && RoomOf(st, key) == HearAll(w.novel, HeardIn(t, key))
    && (key in st.noticed <==> NoticeOut(t, key))
    && (NoticeOut(t, key) ==> Holds(RoomOf(st, key).streak))
    && Spoken(w, t, key)
  }

  predicate IsNeutral(e: Event) { !e.Heard? && !e.NoticePosted? && !e.Crashed? && !(e.Passed? && e.fate.Held?) }

  ghost predicate Neutral(t: Trace, t': Trace)
  {
    t <= t' && forall k :: |t| <= k < |t'| ==> IsNeutral(t'[k])
  }

  lemma {:induction false} NeutralKeeps(w: World, key: string, st: Memory, t: Trace, t': Trace)
    requires Neutral(t, t') && Attuned(w, key, st, t)
    ensures Attuned(w, key, st, t')
    decreases |t'|
  {
    if |t'| == |t| {
      assert t' == t;
    } else {
      NeutralKeeps(w, key, st, t, t'[..|t'| - 1]);
    }
  }

  /** One message heard in a room, on the trace. */
  lemma HeardOne(w: World, t: Trace, room: string, m: Message, hold: bool, key: string)
    ensures var t1 := t + [Heard(room, m, hold)];
            && HeardIn(t1, key) == (if room == key then HeardIn(t, key) + [m] else HeardIn(t, key))
            && (NoticeOut(t1, key) <==> NoticeOut(t, key) && (room == key ==> hold))
            && (Spoken(w, t1, key) <==>
                  Spoken(w, t, key) && (room == key ==> hold == Holds(HearAll(w.novel, HeardIn(t1, key)).streak)))
  {
    assert (t + [Heard(room, m, hold)])[..|t|] == t;
  }

  lemma HearOne(novel: Novelty, ms: seq<Message>, m: Message)
    ensures HearAll(novel, ms + [m]) == Hear(novel, HearAll(novel, ms), m)
  {
    assert (ms + [m])[..|ms|] == ms;
  }

  /** loopState keeps the trackers in step with the trace. */
  lemma ListenKeeps(w: World, key: string, room: string, m: Message, st: Memory, t: Trace)
    requires Attuned(w, key, st, t)
    ensures var st1 := Listen(w, st, room, m);
            Attuned(w, key, st1, t + [Heard(room, m, Holds(RoomOf(st1, room).streak))])
  {
    var st1 := Listen(w, st, room, m);
    HeardOne(w, t, room, m, Holds(RoomOf(st1, room).streak), key);
    if room == key {
      HearOne(w.novel, HeardIn(t, key), m);
    } else {
      assert RoomOf(st1, key) == RoomOf(st, key) && (key in st1.noticed <==> key in st.noticed);
    }
  }

  lemma HoldKeeps(w: World, key: string, room: string, id: nat, st: Memory, t: Trace)
    requires Attuned(w, key, st, t) && Holds(RoomOf(st, room).streak)
    ensures var h := Hold(w, room, id, st, t); Attuned(w, key, h.st, h.t) && (room == key && w.canNotice ==> NoticeOut(h.t, key))
  {
    assert (t + [NoticePosted(room, id, Ask(w, t).ok)])[..|t|] == t;
  }

  lemma LookNeutral(w: World, room: RoomId, m: Message, t: Trace)
    ensures Neutral(t, Look(w, room, m, t).t)
  {
    assert Neutral(t, LookParent(w, room, m, t).t);
  }

  lemma DeliverNeutral(w: World, m: Message, t: Trace)
    ensures Neutral(t, Deliver(w, m, t).t)
  {
  }

  /** Where the source can post notices, a message is held only with a notice out. */
  predicate Announced(w: World, key: string, room: string, h: Turn)
  {
    h.verdict == Past(Held) && room == key && w.canNotice ==> NoticeOut(h.t, key)
  }

  lemma DecideKeepsTune(w: World, key: string, room: RoomId, m: Message, now: int, st: Memory, t: Trace)
    requires Attuned(w, key, st, t)
    ensures var h := Decide(w, room, m, now, Holds(RoomOf(st, room.key).streak), st, t);
            Attuned(w, key, h.st, h.t) && Announced(w, key, room.key, h)
  {
    LookNeutral(w, room, m, t);
    var l := Look(w, room, m, t);
    NeutralKeeps(w, key, st, t, l.t);
    DeliverNeutral(w, m, l.t);
    NeutralKeeps(w, key, st, l.t, Deliver(w, m, l.t).t);
    if Holds(RoomOf(st, room.key).streak) {
      HoldKeeps(w, key, room.key, m.id, st, l.t);
    }
  }

  /** A handler that keeps the trackers of this room in step. */
  ghost predicate Tuned(w: World, key: string, handle: Handler)
  {
    forall room, m, st, t {:trigger handle(room, m, st, t)} ::
      Attuned(w, key, st, t) ==>
        Attuned(w, key, handle(room, m, st, t).st, handle(room, m, st, t).t) && Announced(w, key, room.key, handle(room, m, st, t))
  }

  lemma HandlingTuned(w: World, key: string)
    ensures Tuned(w, key, Handling(w))
  {
    forall room, m, st, t | Attuned(w, key, st, t)
      ensures var h := Handling(w)(room, m, st, t); Attuned(w, key, h.st, h.t) && Announced(w, key, room.key, h)
    {
      var st1 := Listen(w, st, room.key, m);
      var hold := Holds(RoomOf(st1, room.key).streak);
      ListenKeeps(w, key, room.key, m, st, t);
      DecideKeepsTune(w, key, room, m, Ask(w, t).now, st1, t + [Heard(room.key, m, hold)]);
    }
  }

  lemma PassedKeepsTune(w: World, key: string, room: string, id: nat, fate: Fate, st: Memory, t: Trace)
    requires Attuned(w, key, st, t) && (fate.Held? && room == key && w.canNotice ==> NoticeOut(t, key))
    ensures Attuned(w, key, st, t + [Passed(room, id, fate)])
  {
    assert (t + [Passed(room, id, fate)])[..|t|] == t;
  }

  lemma AdvanceKeepsTune(w: World, key: string, room: string, id: nat, fate: Fate, s: Sweep, st: Memory, t: Trace)
    requires Attuned(w, key, st, t) && (fate.Held? && room == key && w.canNotice ==> NoticeOut(t, key))
    ensures var a := Advance(w, room, id, fate, s, st, t); Attuned(w, key, a.st, a.t)
  {
    var a, t1 := Advance(w, room, id, fate, s, st, t), t + [Passed(room, id, fate)];
    PassedKeepsTune(w, key, room, id, fate, st, t);
    assert Attuned(w, key, a.st, t1);
    NeutralKeeps(w, key, a.st, t1, a.t);
  }

  lemma EventKeepsTune(w: World, key: string, st: Memory, t: Trace, e: Event)
    requires IsNeutral(e) && Attuned(w, key, st, t)
    ensures Attuned(w, key, st, t + [e])
  {
    NeutralKeeps(w, key, st, t, t + [e]);
  }

  lemma MoveKeepsTune(w: World, handle: Handler, key: string, room: RoomId, m: Message, s: Sweep, st: Memory, t: Trace)
    requires Tuned(w, key, handle) && Attuned(w, key, st, t)
    ensures var v := MoveOf(w, handle, room, m, s, st, t); Attuned(w, key, v.st, v.t)
  {
    var alive := Ask(w, t).flag;
    var t1 := t + [AliveAsked(alive)];
    EventKeepsTune(w, key, st, t, AliveAsked(alive));
    var h := handle(room, m, st, t1);
    if alive && h.verdict.Past? {
      AdvanceKeepsTune(w, key, room.key, m.id, h.verdict.fate, s, h.st, h.t);
    }
  }

  lemma {:induction false} SweepKeepsTune(w: World, handle: Handler, key: string, room: RoomId, msgs: seq<Message>, k: nat, s: Sweep, st: Memory, t: Trace)
    requires Tuned(w, key, handle) && k <= |msgs| && Attuned(w, key, st, t)
    ensures var r := SweepBatch(w, handle, room, msgs, k, s, st, t); Attuned(w, key, r.st, r.t)
    decreases |msgs| - k
  {
    if k < |msgs| {
      var j := k + 1;
      if msgs[k].id <= s.pos {
        SweepKeepsTune(w, handle, key, room, msgs, j, s, st, t);
      } else {
        MoveKeepsTune(w, handle, key, room, msgs[k], s, st, t);
        var v := MoveOf(w, handle, room, msgs[k], s, st, t);
        if v.on {
          SweepKeepsTune(w, handle, key, room, msgs, j, v.s, v.st, v.t);
        }
      }
    }
  }

  lemma RoomKeepsTune(w: World, handle: Handler, key: string, room: RoomId, careful: bool, st: Memory, t: Trace)
    requires Tuned(w, key, handle) && Attuned(w, key, st, t)
    ensures var r := PollRoom(w, handle, room, careful, st, t); Attuned(w, key, r.st, r.t)
  {
    var t1 := CursorAsked(w, room.key, t);
    if !Ask(w, t).ok {
      EventKeepsTune(w, key, st, t, LookupFailed);
    } else {
      EventKeepsTune(w, key, st, t, CursorRead(room.key, Ask(w, t).cursor));
      if !Ask(w, t1).ok {
        EventKeepsTune(w, key, st, t1, LookupFailed);
      } else {
        EventKeepsTune(w, key, st, t1, InboxRead(room.key, StartOf(w, room.key, st, t), |BatchOf(w, room.key, st, t)|));
        SweepKeepsTune(w, handle, key, room, BatchOf(w, room.key, st, t), 0, FirstSweep(w, room.key, careful, st, t), st,
                       InboxAsked(w, room.key, st, t));
      }
    }
  }

  lemma VisitKeepsTune(w: World, handle: Handler, key: string, room: RoomId, careful: bool, r: Round)
    requires Tuned(w, key, handle) && Attuned(w, key, r.st, r.t)
    ensures var next := Visit(w, handle, room, careful, r); Attuned(w, key, next.st, next.t)
  {
    var alive := Ask(w, r.t).flag;
    EventKeepsTune(w, key, r.st, r.t, AliveAsked(alive));
    if alive {
      RoomKeepsTune(w, handle, key, room, careful, r.st, r.t + [AliveAsked(alive)]);
    }
  }

  lemma {:induction false} RoomsKeepTune(w: World, handle: Handler, rooms: seq<RoomId>, key: string, k: nat, careful: bool, r: Round)
    requires Tuned(w, key, handle) && k <= |rooms| && Attuned(w, key, r.st, r.t)
    ensures var r' := SweepRooms(w, handle, rooms, k, careful, r); Attuned(w, key, r'.st, r'.t)
    decreases |rooms| - k
  {
    if k < |rooms| {
      VisitKeepsTune(w, handle, key, rooms[k], careful, r);
      if Ask(w, r.t).flag {
        var j := k + 1;
        RoomsKeepTune(w, handle, rooms, key, j, careful, Visit(w, handle, rooms[k], careful, r));
      }
    }
  }

  lemma PollKeepsTune(w: World, key: string, careful: bool, st: Memory, t: Trace)
    requires Attuned(w, key, st, t)
    ensures var r := Poll(w, careful, st, t); Attuned(w, key, r.st, r.t)
  {
    var ready := Ask(w, t).flag;
    var t1 := t + [ReadyAsked(ready)];
    NeutralKeeps(w, key, st, t, t1);
    if ready {
      var ok := Ask(w, t1).ok;
      NeutralKeeps(w, key, st, t1, t1 + [RoomsAsked(ok)]);
      if ok {
        HandlingTuned(w, key);
        RoomsKeepTune(w, Handling(w), w.rooms(|t1|), key, 0, careful, Round(false, false, st, t1 + [RoomsAsked(ok)]));
      }
    }
  }

  /** A crash forgets trackers and notices together. */
  lemma CrashKeepsTune(w: World, key: string, st: Memory, from: Start, t: Trace)
    requires Spoken(w, t, key)
    ensures Attuned(w, key, StartFrom(st, from), t + [Crashed])
  {
    assert (t + [Crashed])[..|t|] == t;
  }

  lemma {:induction false} SpokenPrefix(w: World, t: Trace, n: nat, key: string)
    requires n <= |t| && Spoken(w, t, key)
    ensures Spoken(w, t[..n], key)
    decreases |t|
  {
    if n < |t| {
      SpokenPrefix(w, t[..|t| - 1], n, key);
      assert t[..|t| - 1][..n] == t[..n];
    } else {
      assert t[..n] == t;
    }
  }

  lemma {:induction false} LifeAttuned(w: World, careful: bool, acts: seq<Act>, key: string)
    ensures var p := Life(w, careful, acts); Attuned(w, key, p.st, p.t)
    decreases |acts|
  {
    if acts != [] {
      var p := Life(w, careful, acts[..|acts| - 1]);
      LifeAttuned(w, careful, acts[..|acts| - 1], key);
      PollKeepsTune(w, key, careful, p.st, p.t);
      match acts[|acts| - 1]
      case Call =>
      case Restart(from) => CrashKeepsTune(w, key, p.st, from, p.t);
      case CrashAt(cut, from) =>
        var full := Poll(w, careful, p.st, p.t).t;
        if |p.t| <= cut <= |full| {
          SpokenPrefix(w, full, cut, key);
        }
        CrashKeepsTune(w, key, p.st, from, Cut(p.t, full, cut));
    }
  }

  /** After any life with retries, stalls and crashes, a room's tracker is the fold of Add over
      the distinct messages handled since the process started, in order. */
  lemma TrackerIsFold(w: World, careful: bool, acts: seq<Act>, key: string)
    ensures var p := Life(w, careful, acts);
            RoomOf(p.st, key).t == Fold(w.novel, Distinct(HeardIn(p.t, key)))
  {
    LifeAttuned(w, careful, acts, key);
    RetriesDoNotCount(w.novel, HeardIn(Life(w, careful, acts).t, key));
  }

  // ---- The notices ----

  lemma {:induction false} HeldAt(w: World, t: Trace, i: nat, key: string)
    requires i < |t| && Spoken(w, t, key) && t[i].Passed? && t[i].room == key && t[i].fate.Held? && w.canNotice
    ensures NoticeOut(t[..i], key)
    decreases |t|
  {
    if i < |t| - 1 {
      HeldAt(w, t[..|t| - 1], i, key);
      assert t[..|t| - 1][..i] == t[..i];
    }
  }

  lemma {:induction false} NoticeFrom(t: Trace, key: string) returns (k: nat)
    requires NoticeOut(t, key)
    ensures k < |t| && t[k].NoticePosted? && t[k].room == key
    ensures forall i :: k < i < |t| ==> !t[i].Crashed? && !(t[i].Heard? && t[i].room == key && !t[i].hold)
    decreases |t|
  {
    var last := |t| - 1;
    var e := t[last];
    if e.NoticePosted? && e.room == key {
      k := last;
    } else {
      k := NoticeFrom(t[..last], key);
    }
  }

  /** The attempt to post the notice of the hold that is on at i. */
  predicate NoticeOf(t: Trace, k: nat, i: nat)
    requires i < |t| && t[i].Passed?
  {
    && k < i && t[k].NoticePosted? && t[k].room == t[i].room
    && forall n :: k < n < i ==> !t[n].Crashed? && !(t[n].Heard? && t[n].room == t[i].room && !t[n].hold)
  }

  lemma NoticeBehind(w: World, t: Trace, i: nat) returns (k: nat)
    requires i < |t| && t[i].Passed? && t[i].fate.Held? && w.canNotice && Spoken(w, t, t[i].room)
    ensures NoticeOf(t, k, i)
  {
    HeldAt(w, t, i, t[i].room);
    k := NoticeFrom(t[..i], t[i].room);
    assert forall n :: 0 <= n < i ==> t[..i][n] == t[n];
  }

  /** Nobody is held in silence: over any life, where the source can post notices, a message is passed
      as held only behind an attempt to post the notice of this hold, by this process. */
  lemma HeldIsAnnounced(w: World, careful: bool, acts: seq<Act>, i: nat) returns (k: nat)
    requires var t := Life(w, careful, acts).t; i < |t| && t[i].Passed? && t[i].fate.Held? && w.canNotice
    ensures NoticeOf(Life(w, careful, acts).t, k, i)
  {
    var t := Life(w, careful, acts).t;
    LifeAttuned(w, careful, acts, t[i].room);
    k := NoticeBehind(w, t, i);
  }

  lemma {:induction false} OutUntilOff(t: Trace, i: nat, key: string)
    requires i < |t| && t[i].NoticePosted? && t[i].room == key
    requires forall k :: i < k < |t| ==> !t[k].Crashed? && !(t[k].Heard? && t[k].room == key && !t[k].hold)
    ensures NoticeOut(t, key)
    decreases |t|
  {
    if i < |t| - 1 {
      OutUntilOff(t[..|t| - 1], i, key);
    }
  }

  lemma {:induction false} SpokenAt(w: World, t: Trace, j: nat, key: string)
    requires Spoken(w, t, key) && j < |t| && t[j].NoticePosted? && t[j].room == key
    ensures !NoticeOut(t[..j], key)
    decreases |t|
  {
    if j < |t| - 1 {
      SpokenAt(w, t[..|t| - 1], j, key);
      assert t[..|t| - 1][..j] == t[..j];
    }
  }

  /** Between two notice attempts in a room, in one process, some message was judged to be no
      hold: at most one attempt between two moments the hold is off. */
  lemma OneNoticePerHold(w: World, careful: bool, acts: seq<Act>, i: nat, j: nat) returns (k: nat)
    requires var t := Life(w, careful, acts).t;
             && i < j < |t| && t[i].NoticePosted? && t[j].NoticePosted? && t[i].room == t[j].room
             && forall k :: i < k < j ==> !t[k].Crashed?
    ensures var t := Life(w, careful, acts).t;
            i < k < j && t[k].Heard? && t[k].room == t[i].room && !t[k].hold
  {
    var p := Life(w, careful, acts);
    var t, key := p.t, p.t[i].room;
    LifeAttuned(w, careful, acts, key);
    SpokenAt(w, t, j, key);
    if forall k :: i < k < j ==> !(t[k].Heard? && t[k].room == key && !t[k].hold) {
      OutUntilOff(t[..j], i, key);
      assert false;
    } else {
      k :| i < k < j && t[k].Heard? && t[k].room == key && !t[k].hold;
    }
  }

  // ---- The hook call ----

  const HOOK_MESSAGES := 5

  /** The collecting notifier: ready for fewer than five notes, it never fails to take one,
      and its process lives through the call. */
  ghost predicate Collecting(t: Trace)
    decreases |t|
  {
    t == [] ||
    (var before, e := t[..|t| - 1], t[|t| - 1];
     && Collecting(before) && !e.Crashed?
     && (e.ReadyAsked? ==> e.ready == (Writes(before) < HOOK_MESSAGES))
     && (e.Notified? ==> e.ok))
  }

  function Wins(t: Trace): nat { Count(t, (e: Event) => e.Claimed? && e.answer.Won?) }

  lemma WinStep(p: Phase, e: Event)
    requires Next(p, e) != Wrong && !e.Crashed?
    ensures e.Claimed? && e.answer.Won? <==> Next(p, e).Mine?
    ensures e.Notified? <==> p.Mine?
    ensures Next(p, e).Paid? ==> p.Ready?
    ensures Next(p, e).Mine? ==> p.Paid?
    ensures Next(p, e).Ready? ==> e == ReadyAsked(true)
  {
  }

  lemma {:induction false} CollectingBounds(t: Trace)
    requires PhaseOf(t) != Wrong && Collecting(t)
    ensures Wins(t) == Writes(t) + if PhaseOf(t).Mine? then 1 else 0
    ensures Writes(t) <= HOOK_MESSAGES
    ensures PhaseOf(t).Ready? || PhaseOf(t).Paid? || PhaseOf(t).Mine? ==> Writes(t) < HOOK_MESSAGES
    decreases |t|
  {
    if t != [] {
      StepAt(t, |t| - 1);
      assert t[..|t|] == t;
      CollectingBounds(t[..|t| - 1]);
      WinStep(PhaseOf(t[..|t| - 1]), t[|t| - 1]);
    }
  }

  /** In a hook call the won claims are exactly the returned notes, and there are at most five. */
  lemma HookCallBounded(w: World, saved: map<string, nat>)
    requires var t := Poll(w, false, Memory(saved, map[], {}), []).t; Collecting(t)
    ensures var t := Poll(w, false, Memory(saved, map[], {}), []).t;
            Wins(t) == Writes(t) <= HOOK_MESSAGES
  {
    var t := Poll(w, false, Memory(saved, map[], {}), []).t;
    PollKeeps(w, false, Memory(saved, map[], {}), []);
    CollectingBounds(t);
  }
}
