/** Complete accounting: which messages a poll passes, with which outcome, and how far the
    position goes. */
module PollerAccounts {
  import opened Text
  import opened WakeRule
  import opened LoopGuard
  import opened PollerModel
  import opened PollerTrace
  import opened PollerHistory

  // ---- One message: the lazy decision is the wake rule ----

  function ParentOf(w: World, room: RoomId, m: Message): Option<Message>
  {
    if m.replyTo != 0 then w.parent(room.key, m.replyTo) else None
  }

  lemma LookParentFinds(w: World, room: RoomId, m: Message, t: Trace)
    ensures var l := LookParent(w, room, m, t);
            var p := ParentOf(w, room, m);
            l.mentions.Some? ==>
              PlainReply(m, l.parent)
              == PlainReply(m, if p.Some? then ClassifyParent(w.self, room.kind, p.value, m.sender, w.mentions(p.value.id)) else NotOwn)
  {
  }

  /** Where the lookups come through, what they found decides as complete knowledge would. */
  lemma LookFinds(w: World, room: RoomId, m: Message, now: int, t: Trace)
    ensures var l := Look(w, room, m, t);
            l.mentions.Some? ==>
              ShouldWake(w.self, room.kind, m, l.mentions.value, l.parent, now)
              == Wakes(w.self, room.kind, m, ParentOf(w, room, m), w.mentions, now)
  {
    LookParentFinds(w, room, m, t);
  }

  lemma UnwokenDecides(w: World, room: RoomId, m: Message, now: int)
    requires !WakeCandidate(w.self, room.kind, m, now)
    ensures !Wakes(w.self, room.kind, m, ParentOf(w, room, m), w.mentions, now)
  {
  }

  /** However many lookups handle skips, its verdict is the wake rule on complete knowledge, then
      the loop guard, then the delivery. */
  lemma {:induction false} HandleDecides(w: World, room: RoomId, m: Message, st: Memory, t: Trace)
    ensures var v := Handle(w, room, m, st, t).verdict;
            var wakes := Wakes(w.self, room.kind, m, ParentOf(w, room, m), w.mentions, Ask(w, t).now);
            var held := w.enforce && Holds(RoomOf(Listen(w, st, room.key, m), room.key).streak);
            match v
            case Past(OwnPost) => Own(w.self, m)
            case Past(Unwoken) => !Own(w.self, m) && !wakes
            case Past(Held) => wakes && held
            case Past(Delivered) => wakes && !held
            case Past(Taken) => wakes && !held
            case Stalled => wakes && !held
            case Failed => !Own(w.self, m)
  {
    var st1, now := Listen(w, st, room.key, m), Ask(w, t).now;
    var hold := Holds(RoomOf(st1, room.key).streak);
    var t1 := t + [Heard(room.key, m, hold)];
    if WakeCandidate(w.self, room.kind, m, now) {
      LookFinds(w, room, m, now, t1);
    } else {
      UnwokenDecides(w, room, m, now);
    }
  }

  /** A stalled delivery has claimed nothing; a failed one has either not won its claim or failed
      in the write right behind it. */
  lemma StallsBeforeTheClaim(w: World, m: Message, t: Trace)
    ensures var o := Deliver(w, m, t);
            && (o.verdict.Stalled? ==> forall k :: |t| <= k < |o.t| ==> !o.t[k].Claimed?)
            && (o.verdict.Failed? ==> forall k :: |t| <= k < |o.t| && o.t[k].Claimed? && o.t[k].answer.Won? ==>
                  k + 1 < |o.t| && o.t[k + 1] == Notified(m.id, false))
  {
  }

  // ---- Which steps touch positions and cursors ----

  predicate IsSilent(e: Event)
  {
    !e.Passed? && !e.CursorSet? && !e.CursorRead? && !e.Crashed?
  }

  /** t' goes on from t without a word about positions and cursors. */
  ghost predicate Silent(t: Trace, t': Trace)
  {
    t <= t' && forall k :: |t| <= k < |t'| ==> IsSilent(t'[k])
  }

  lemma DeliverSilent(w: World, m: Message, t: Trace)
    ensures Silent(t, Deliver(w, m, t).t)
  {
  }

  lemma LookSilent(w: World, room: RoomId, m: Message, t: Trace)
    ensures Silent(t, Look(w, room, m, t).t)
  {
    assert Silent(t, LookParent(w, room, m, t).t);
  }

  lemma SilentJoin(t: Trace, t1: Trace, t2: Trace)
    requires Silent(t, t1) && Silent(t1, t2)
    ensures Silent(t, t2)
  {
  }

  lemma DecideSilent(w: World, room: RoomId, m: Message, now: int, hold: bool, st: Memory, t: Trace)
    ensures var h := Decide(w, room, m, now, hold, st, t); Silent(t, h.t) && h.st.pos == st.pos
  {
    if WakeCandidate(w.self, room.kind, m, now) {
      LookSilent(w, room, m, t);
      var l := Look(w, room, m, t);
      DeliverSilent(w, m, l.t);
      SilentJoin(t, l.t, Deliver(w, m, l.t).t);
      SilentJoin(t, l.t, Hold(w, room.key, m.id, st, l.t).t);
    }
  }

  lemma HandleSilent(w: World, room: RoomId, m: Message, st: Memory, t: Trace)
    ensures Silent(t, Handle(w, room, m, st, t).t)
    ensures Handle(w, room, m, st, t).st.pos == st.pos
  {
    var st1 := Listen(w, st, room.key, m);
    var hold := Holds(RoomOf(st1, room.key).streak);
    var t1 := t + [Heard(room.key, m, hold)];
    DecideSilent(w, room, m, Ask(w, t).now, hold, st1, t1);
    SilentJoin(t, t1, Handle(w, room, m, st, t).t);
  }

  /** A handler that leaves positions and cursors alone. */
  ghost predicate Modest(handle: Handler)
  {
    forall room, m, st, t {:trigger handle(room, m, st, t)} ::
      Silent(t, handle(room, m, st, t).t) && handle(room, m, st, t).st.pos == st.pos
  }

  lemma HandlingModest(w: World)
    ensures Modest(Handling(w))
  {
    forall room, m, st, t
      ensures Silent(t, Handling(w)(room, m, st, t).t) && Handling(w)(room, m, st, t).st.pos == st.pos
    {
      HandleSilent(w, room, m, st, t);
    }
  }

  // ---- The messages passed in a room, in order ----

  function Passes(t: Trace, key: string): seq<nat>
    decreases |t|
  {
    if t == [] then []
    else
      var before, e := Passes(t[..|t| - 1], key), t[|t| - 1];
      if e.Passed? && e.room == key then before + [e.id] else before
  }

  lemma PassesOne(t: Trace, e: Event, key: string)
    ensures Passes(t + [e], key) == if e.Passed? && e.room == key then Passes(t, key) + [e.id] else Passes(t, key)
  {
    assert (t + [e])[..|t|] == t;
  }

  lemma {:induction false} PassesSilent(t: Trace, t': Trace, key: string)
    requires Silent(t, t')
    ensures Passes(t', key) == Passes(t, key)
    decreases |t'|
  {
    if |t'| == |t| {
      assert t' == t;
    } else {
      PassesSilent(t, t'[..|t'| - 1], key);
    }
  }

  function Ids(msgs: seq<Message>, k: nat, n: nat): (ids: seq<nat>)
    requires k <= n <= |msgs|
    ensures |ids| == n - k && forall i :: 0 <= i < n - k ==> ids[i] == msgs[k + i].id
  {
    seq<nat>(n - k, i requires 0 <= i < n - k => msgs[k + i].id)
  }

  /** The state and trace after messages k to n of a batch were passed, as room `key` sees it. */
  ghost predicate PassedUpTo(key: string, msgs: seq<Message>, k: nat, n: nat, st: Memory, t: Trace, st': Memory, t': Trace)
  {
    && k <= n <= |msgs| && t <= t'
    && Passes(t', key) == Passes(t, key) + Ids(msgs, k, n)
    && PosOf(st', key) == if n == k then PosOf(st, key) else msgs[n - 1].id
  }

  lemma NothingPassed(key: string, msgs: seq<Message>, k: nat, st: Memory, t: Trace, st': Memory, t': Trace)
    requires k <= |msgs| && st'.pos == st.pos && Silent(t, t')
    ensures PassedUpTo(key, msgs, k, k, st, t, st', t')
  {
    PassesSilent(t, t', key);
    assert Ids(msgs, k, k) == [];
  }

  /** One more message: handled silently, then passed. */
  lemma OnePassed(w: World, key: string, msgs: seq<Message>, k: nat, fate: Fate, s: Sweep, st: Memory, t: Trace,
                  h: Memory, ht: Trace)
    requires k < |msgs| && h.pos == st.pos && Silent(t, ht)
    ensures var a := Advance(w, key, msgs[k].id, fate, s, h, ht);
            PassedUpTo(key, msgs, k, k + 1, st, t, a.st, a.t)
  {
    var id := msgs[k].id;
    var t1 := ht + [Passed(key, id, fate)];
    assert Ids(msgs, k, k + 1) == [id];
    PassesSilent(t, ht, key);
    PassesOne(ht, Passed(key, id, fate), key);
    PassesOne(t1, CursorSet(key, id, Ask(w, t1).ok), key);
  }

  lemma PassedOn(key: string, msgs: seq<Message>, k: nat, n: nat, st: Memory, t: Trace, st1: Memory, t1: Trace, st': Memory, t': Trace)
    requires PassedUpTo(key, msgs, k, k + 1, st, t, st1, t1) && PassedUpTo(key, msgs, k + 1, n, st1, t1, st', t')
    ensures PassedUpTo(key, msgs, k, n, st, t, st', t')
  {
    assert Ids(msgs, k, k + 1) + Ids(msgs, k + 1, n) == Ids(msgs, k, n);
    assert Passes(t, key) + Ids(msgs, k, k + 1) + Ids(msgs, k + 1, n) == Passes(t, key) + Ids(msgs, k, n);
  }

  /** The message that this step of a sweep passes, if it passes one. */
  predicate Moves(w: World, handle: Handler, room: RoomId, m: Message, st: Memory, t: Trace)
  {
    Ask(w, t).flag && handle(room, m, st, t + [AliveAsked(true)]).verdict.Past?
  }

  lemma MovePasses(w: World, handle: Handler, room: RoomId, msgs: seq<Message>, k: nat, s: Sweep, st: Memory, t: Trace)
    requires Modest(handle) && k < |msgs|
    ensures var v := MoveOf(w, handle, room, msgs[k], s, st, t);
            var n := if Moves(w, handle, room, msgs[k], st, t) then k + 1 else k;
            PassedUpTo(room.key, msgs, k, n, st, t, v.st, v.t) && (v.on ==> n == k + 1 && v.s.pos == msgs[k].id)
  {
    var alive := Ask(w, t).flag;
    var t1 := t + [AliveAsked(alive)];
    if !alive {
      NothingPassed(room.key, msgs, k, st, t, st, t1);
    } else {
      var h := handle(room, msgs[k], st, t1);
      SilentJoin(t, t1, h.t);
      if h.verdict.Past? {
        OnePassed(w, room.key, msgs, k, h.verdict.fate, s, st, t, h.st, h.t);
      } else {
        NothingPassed(room.key, msgs, k, st, t, h.st, h.t);
      }
    }
  }

  /** A sweep passes a front part of its batch, each message once and in order, and in no other
      room. */
  lemma {:induction false} SweepPasses(w: World, handle: Handler, room: RoomId, msgs: seq<Message>, k: nat, s: Sweep, st: Memory, t: Trace) returns (n: nat)
    requires Modest(handle) && k <= |msgs| && Rising(msgs) && (forall j :: k <= j < |msgs| ==> s.pos < msgs[j].id)
    ensures var r := SweepBatch(w, handle, room, msgs, k, s, st, t);
            PassedUpTo(room.key, msgs, k, n, st, t, r.st, r.t)
    decreases |msgs| - k
  {
    n := k;
    if k == |msgs| {
      NothingPassed(room.key, msgs, k, st, t, st, t);
    } else {
      var v := MoveOf(w, handle, room, msgs[k], s, st, t);
      MovePasses(w, handle, room, msgs, k, s, st, t);
      var j := k + 1;
      n := if Moves(w, handle, room, msgs[k], st, t) then j else k;
      if v.on {
        n := SweepPasses(w, handle, room, msgs, j, v.s, v.st, v.t);
        var r := SweepBatch(w, handle, room, msgs, j, v.s, v.st, v.t);
        PassedOn(room.key, msgs, k, n, st, t, v.st, v.t, r.st, r.t);
      }
    }
  }

  /** Nothing happens in another room. */
  ghost predicate Elsewhere(key: string, st: Memory, t: Trace, st': Memory, t': Trace)
  {
    t <= t' && PosOf(st', key) == PosOf(st, key) && Passes(t', key) == Passes(t, key)
  }

  lemma AdvanceElsewhere(w: World, key: string, id: nat, fate: Fate, s: Sweep, st: Memory, t: Trace, h: Memory, ht: Trace, other: string)
    requires other != key && h.pos == st.pos && Silent(t, ht)
    ensures var a := Advance(w, key, id, fate, s, h, ht); Elsewhere(other, st, t, a.st, a.t)
  {
    var t1 := ht + [Passed(key, id, fate)];
    PassesSilent(t, ht, other);
    PassesOne(ht, Passed(key, id, fate), other);
    PassesOne(t1, CursorSet(key, id, Ask(w, t1).ok), other);
  }

  lemma SilentElsewhere(key: string, st: Memory, t: Trace, st': Memory, t': Trace)
    requires Silent(t, t') && st'.pos == st.pos
    ensures Elsewhere(key, st, t, st', t')
  {
    PassesSilent(t, t', key);
  }

  lemma ElsewhereJoin(key: string, st: Memory, t: Trace, st1: Memory, t1: Trace, st2: Memory, t2: Trace)
    requires Elsewhere(key, st, t, st1, t1) && Elsewhere(key, st1, t1, st2, t2)
    ensures Elsewhere(key, st, t, st2, t2)
  {
  }

  lemma MoveElsewhere(w: World, handle: Handler, room: RoomId, m: Message, s: Sweep, st: Memory, t: Trace, key: string)
    requires Modest(handle) && key != room.key
    ensures var v := MoveOf(w, handle, room, m, s, st, t); Elsewhere(key, st, t, v.st, v.t)
  {
    var alive := Ask(w, t).flag;
    var t1 := t + [AliveAsked(alive)];
    if !alive {
      SilentElsewhere(key, st, t, st, t1);
    } else {
      var h := handle(room, m, st, t1);
      SilentJoin(t, t1, h.t);
      if h.verdict.Past? {
        AdvanceElsewhere(w, room.key, m.id, h.verdict.fate, s, st, t, h.st, h.t, key);
      } else {
        SilentElsewhere(key, st, t, h.st, h.t);
      }
    }
  }

  lemma {:induction false} SweepElsewhere(w: World, handle: Handler, room: RoomId, msgs: seq<Message>, k: nat, s: Sweep, st: Memory, t: Trace, key: string)
    requires Modest(handle) && k <= |msgs| && key != room.key
    ensures var r := SweepBatch(w, handle, room, msgs, k, s, st, t); Elsewhere(key, st, t, r.st, r.t)
    decreases |msgs| - k
  {
    if k < |msgs| {
      var j := k + 1;
      if msgs[k].id <= s.pos {
        SweepElsewhere(w, handle, room, msgs, j, s, st, t, key);
      } else {
        var v := MoveOf(w, handle, room, msgs[k], s, st, t);
        MoveElsewhere(w, handle, room, msgs[k], s, st, t, key);
        if v.on {
          SweepElsewhere(w, handle, room, msgs, j, v.s, v.st, v.t, key);
          var r := SweepBatch(w, handle, room, msgs, j, v.s, v.st, v.t);
          ElsewhereJoin(key, st, t, v.st, v.t, r.st, r.t);
        }
      }
    }
  }

  /** A message that stalls or fails ends the sweep: neither it nor any later one is passed, and
      the position stays. */
  lemma {:induction false} StallEndsTheSweep(w: World, handle: Handler, room: RoomId, msgs: seq<Message>, k: nat, s: Sweep, st: Memory, t: Trace)
    requires Modest(handle) && k < |msgs| && s.pos < msgs[k].id
    requires !handle(room, msgs[k], st, t + [AliveAsked(true)]).verdict.Past?
    ensures var r := SweepBatch(w, handle, room, msgs, k, s, st, t);
            r.st.pos == st.pos && t <= r.t && forall i :: |t| <= i < |r.t| ==> !r.t[i].Passed? && !r.t[i].CursorSet?
  {
    var t1 := t + [AliveAsked(true)];
    assert Silent(t1, handle(room, msgs[k], st, t1).t);
  }
}
