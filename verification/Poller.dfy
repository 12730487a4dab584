/** The poller as it runs: fields updated step by step, proved to behave as PollerModel says. */
module Poller {
  import opened Text
  import opened WakeRule
  import opened LoopGuard
  import opened PollerModel
  import opened PollerReports

  /** A poller with its memory. `trace` records what it has asked and done; every answer of its
      world depends on how far that is. */
  class Poller {
    const w: World
    var pos: map<string, nat>
    var rooms: map<string, Room>
    var noticed: set<string>
    var trace: Trace

    constructor (w: World)
      ensures this.w == w && Mem() == NEWBORN && trace == []
    {
      this.w := w;
      pos, rooms, noticed, trace := map[], map[], {}, [];
    }

    ghost function Mem(): Memory
      reads this
    {
      Memory(pos, rooms, noticed)
    }

    /** Positions, and SetPositions: what a hook call keeps for the next one. */
    method Positions() returns (out: map<string, nat>)
      ensures out == pos
    {
      out := pos;
    }

    method SetPositions(saved: map<string, nat>)
      modifies this`pos
      ensures pos == saved
    {
      pos := saved;
    }

    method Log(e: Event)
      modifies this`trace
      ensures trace == old(trace) + [e]
    {
      trace := trace + [e];
    }

    /** loopState */
    method LoopState(key: string, m: Message) returns (hold: bool)
      modifies this`rooms, this`noticed
      ensures Mem() == Listen(w, old(Mem()), key, m)
      ensures hold == Holds(RoomOf(Mem(), key).streak)
    {
      if key !in rooms {
        rooms := rooms[key := EMPTY_ROOM];
      }
      var r := rooms[key];
      if m.id <= r.lastId {
        return Holds(r.streak);
      }
      var t := Add(w.novel, r.t, m);
      rooms := rooms[key := Room(t, m.id, t.streak)];
      if !Holds(t.streak) {
        noticed := noticed - {key};
      }
      return Holds(t.streak);
    }

    /** loopHolds */
    method LoopHolds(key: string, id: nat, hold: bool) returns (held: bool)
      modifies this`noticed, this`trace
      ensures held == (hold && w.enforce)
      ensures !held ==> Mem() == old(Mem()) && trace == old(trace)
      ensures held ==> Turn(Past(Held), Mem(), trace) == Hold(w, key, id, old(Mem()), old(trace))
    {
      if !hold || !w.enforce {
        return false;
      }
      if w.canNotice && key !in noticed {
        noticed := noticed + {key};
        Log(NoticePosted(key, id, Ask(w, trace).ok));
      }
      return true;
    }

    /** The parent message and the mentions, each fetched only when the decision needs it. */
    method LookUp(room: RoomId, m: Message) returns (ok: bool, mentions: seq<string>, parent: Parent)
      modifies this`trace
      ensures var l := Look(w, room, m, old(trace));
              && trace == l.t && ok == l.mentions.Some?
              && (ok ==> mentions == l.mentions.value && parent == l.parent)
    {
      ok, mentions, parent := false, [], NotOwn;
      if m.replyTo != 0 && !Attention(m) && !m.human {
        if !Ask(w, trace).ok {
          Log(LookupFailed);
          return;
        }
        Log(Looked(m.replyTo));
        var found := w.parent(room.key, m.replyTo);
        if found.Some? && Own(w.self, found.value) {
          var parentMentions := [];
          if !Attention(found.value) && found.value.replyTo == 0 && NeedsMentions(room.kind) {
            if !Ask(w, trace).ok {
              Log(LookupFailed);
              return;
            }
            Log(Looked(found.value.id));
            parentMentions := w.mentions(found.value.id);
          }
          parent := ClassifyParent(w.self, room.kind, found.value, m.sender, parentMentions);
        }
      }
      if NeedsMentions(room.kind) {
        if !Ask(w, trace).ok {
          Log(LookupFailed);
          return;
        }
        Log(Looked(m.id));
        mentions := w.mentions(m.id);
      }
      ok := true;
    }

    /** The emit callback: the claim, then the write. `wrote` says the notification went out,
        `lost` that another poller has the message, `notEmitted` that nothing was written. */
    method EmitText(id: nat) returns (wrote: bool, lost: bool, failed: bool, notEmitted: bool)
      modifies this`trace
      ensures var answer := Ask(w, old(trace)).claim;
              var claimed := old(trace) + [PollerModel.Claimed(id, answer)];
              && lost == answer.Lost? && notEmitted == !answer.Won?
              && wrote == (answer.Won? && Ask(w, claimed).ok)
              && failed == (answer.Broken? || (answer.Won? && !wrote))
              && trace == if answer.Won? then claimed + [PollerModel.Notified(id, wrote)] else claimed
    {
      var answer := Ask(w, trace).claim;
      Log(Claimed(id, answer));
      if answer.Broken? {
        return false, false, true, true;
      }
      if answer.Lost? {
        return false, true, false, true;
      }
      var ok := Ask(w, trace).ok;
      Log(Notified(id, ok));
      return ok, false, !ok, false;
    }

    /** From Notifier.Ready to the end of handle. */
    method DeliverNow(m: Message) returns (v: Verdict)
      modifies this`trace
      ensures Outcome(v, trace) == Deliver(w, m, old(trace))
    {
      var ready := Ask(w, trace).flag;
      Log(ReadyAsked(ready));
      if !ready {
        return Stalled;
      }
      var grant := Ask(w, trace).grant;
      if grant.Unreadable? {
        Log(BudgetFailed(m.id));
        return Failed;
      }
      if m.body == "" || grant.Exhausted? {
        Log(Refused(m.id));
        return Stalled;
      }
      Log(Reserved(m.id));
      var wrote, lost, failed, notEmitted := EmitText(m.id);
      if notEmitted {
        Log(Returned(m.id, Ask(w, trace).ok));
      } else if wrote {
        Log(Booked(m.id, Ask(w, trace).ok));
      }
      if wrote {
        return Past(Delivered);
      } else if lost {
        return Past(Taken);
      }
      assert failed;
      return Failed;
    }

    method HandleMessage(room: RoomId, m: Message) returns (v: Verdict)
      modifies this`rooms, this`noticed, this`trace
      ensures Turn(v, Mem(), trace) == Handle(w, room, m, old(Mem()), old(trace))
      ensures v.Past? ==> (v.fate.OwnPost? <==> Own(w.self, m))
    {
      var now := Ask(w, trace).now;
      var hold := LoopState(room.key, m);
      Log(Heard(room.key, m, hold));
      if !WakeCandidate(w.self, room.kind, m, now) {
        return Past(if Own(w.self, m) then OwnPost else Unwoken);
      }
      var ok, mentions, parent := LookUp(room, m);
      if !ok {
        return Failed;
      }
      if !ShouldWake(w.self, room.kind, m, mentions, parent, now) {
        return Past(Unwoken);
      }
      var held := LoopHolds(room.key, m.id, hold);
      if held {
        return Past(Held);
      }
      v := DeliverNow(m);
    }

    /** A message is behind the poller: its position moves, and the shared cursor follows while
        everything in this sweep was delivered or own post. */
    method MoveOn(key: string, m: Message, fate: Fate, s: Sweep) returns (failed: bool, s': Sweep)
      requires fate.OwnPost? <==> Own(w.self, m)
      modifies this`pos, this`trace
      ensures Step(failed, s', Mem(), trace) == Advance(w, key, m.id, fate, s, old(Mem()), old(trace))
    {
      pos := pos[key := m.id];
      s' := s.(pos := m.id, progress := s.progress || fate.Delivered?);
      Log(Passed(key, m.id, fate));
      if fate.Delivered? {
        if s.contiguous && m.id > s.cursor {
          var ok := Ask(w, trace).ok;
          Log(CursorSet(key, m.id, ok));
          return !ok, s'.(cursor := m.id);
        }
      } else if !Own(w.self, m) {
        s' := s'.(contiguous := false);
      }
      failed := false;
    }

    /** The body of the loop over a batch: `on` says that it goes on. */
    method SweepOne(room: RoomId, m: Message, s: Sweep) returns (on: bool, failed: bool, s': Sweep)
      modifies this`pos, this`rooms, this`noticed, this`trace
      ensures Move(on, failed, s', Mem(), trace) == MoveOf(w, Handling(w), room, m, s, old(Mem()), old(trace))
    {
      s' := s;
      var alive := Ask(w, trace).flag;
      Log(AliveAsked(alive));
      if !alive {
        return false, true, s';
      }
      var v := HandleMessage(room, m);
      if !v.Past? {
        return false, v.Failed?, s';
      }
      failed, s' := MoveOn(room.key, m, v.fate, s);
      on := !failed;
    }

    /** The loop over a batch. */
    method SweepOver(room: RoomId, msgs: seq<Message>, start: Sweep) returns (progress: bool, failed: bool)
      modifies this`pos, this`rooms, this`noticed, this`trace
      ensures Round(progress, failed, Mem(), trace) == SweepBatch(w, Handling(w), room, msgs, 0, start, old(Mem()), old(trace))
    {
      var s, k := start, 0;
      ghost var all := SweepBatch(w, Handling(w), room, msgs, 0, start, Mem(), trace);
      while k < |msgs|
        invariant 0 <= k <= |msgs|
        invariant SweepBatch(w, Handling(w), room, msgs, k, s, Mem(), trace) == all
      {
        if msgs[k].id > s.pos {
          var on;
          on, failed, s := SweepOne(room, msgs[k], s);
          if !on {
            return s.progress, failed;
          }
        }
        k := k + 1;
      }
      return s.progress, false;
    }

    /** pollRoom */
    method PollOne(room: RoomId) returns (progress: bool, failed: bool)
      modifies this`pos, this`rooms, this`noticed, this`trace
      ensures Round(progress, failed, Mem(), trace) == PollRoom(w, Handling(w), room, false, old(Mem()), old(trace))
    {
      var a := Ask(w, trace);
      if !a.ok {
        Log(LookupFailed);
        return false, true;
      }
      Log(CursorRead(room.key, a.cursor));
      var at := if room.key in pos then pos[room.key] else 0;
      if a.cursor > at {
        at := a.cursor;
      }
      var b := Ask(w, trace);
      if !b.ok {
        Log(LookupFailed);
        return false, true;
      }
      var msgs := Batch(w.log(room.key), b.visible, at);
      Log(InboxRead(room.key, at, |msgs|));
      progress, failed := SweepOver(room, msgs, Sweep(false, at, a.cursor, true));
    }

    /** Poll */
    method PollAll() returns (active: bool, failed: bool)
      modifies this`pos, this`rooms, this`noticed, this`trace
      ensures Round(active, failed, Mem(), trace) == PollerModel.Poll(w, false, old(Mem()), old(trace))
      ensures Reports(old(trace), trace, active, failed)
    {
      PollReports(w, false, Mem(), trace);
      active, failed := false, false;
      var ready := Ask(w, trace).flag;
      Log(ReadyAsked(ready));
      if !ready {
        return;
      }
      var ok := Ask(w, trace).ok;
      var here := w.rooms(|trace|);
      Log(RoomsAsked(ok));
      if !ok {
        failed := true;
        return;
      }
      var k := 0;
      ghost var all := SweepRooms(w, Handling(w), here, 0, false, Round(false, false, Mem(), trace));
      while k < |here|
        invariant 0 <= k <= |here|
        invariant SweepRooms(w, Handling(w), here, k, false, Round(active, failed, Mem(), trace)) == all
      {
        var alive := Ask(w, trace).flag;
        Log(AliveAsked(alive));
        if !alive {
          failed := true;
          return;
        }
        var seen, err := PollOne(here[k]);
        active, failed := active || seen, failed || err;
        k := k + 1;
      }
    }
  }

  /** coordInboxContext: one poll of a fresh poller from the positions saved by the last hook call. */
  method HookPoll(w: World, saved: map<string, nat>) returns (pos: map<string, nat>, trace: Trace)
    ensures var r := PollerModel.Poll(w, false, Memory(saved, map[], {}), []);
            pos == r.st.pos && trace == r.t
  {
    var p := new Poller(w);
    p.SetPositions(saved);
    var _, _ := p.PollAll();
    pos := p.Positions();
    trace := p.trace;
  }
}
