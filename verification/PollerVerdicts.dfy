/** Why a message is passed, stalls or fails: the events its handling adds to the trace, and what
    the world answered when they were asked. */
module PollerVerdicts {
  import opened Text
  import opened WakeRule
  import opened LoopGuard
  import opened PollerModel
  import opened PollerTrace
  import opened PollerHistory
  import opened PollerAccounts

  // ---- Events tell what was answered ----

  predicate Truth(w: World, e: Event, i: nat)
  {
    var a := w.answers(i);
    match e
    case ReadyAsked(ready) => ready == a.flag
    case AliveAsked(alive) => alive == a.flag
    case RoomsAsked(ok) => ok == a.ok
    case CursorRead(_, cursor) => a.ok && cursor == a.cursor
    case InboxRead(_, _, _) => a.ok
    case LookupFailed => !a.ok
    case Looked(_) => a.ok
    case NoticePosted(_, _, ok) => ok == a.ok
    case Refused(_) => !a.grant.Unreadable?
    case BudgetFailed(_) => a.grant.Unreadable?
    case Reserved(_) => a.grant.Granted?
    case Claimed(_, answer) => answer == a.claim
    case Returned(_, ok) => ok == a.ok
    case Notified(_, ok) => ok == a.ok
    case Booked(_, ok) => ok == a.ok
    case CursorSet(_, _, ok) => ok == a.ok
    case _ => true
  }

  ghost predicate Truthful(w: World, t: Trace, t': Trace)
  {
    t <= t' && forall i :: |t| <= i < |t'| ==> Truth(w, t'[i], i)
  }

  lemma TrueOne(w: World, t: Trace, e: Event)
    requires Truth(w, e, |t|)
    ensures Truthful(w, t, t + [e])
  {
  }

  lemma TrueJoin(w: World, t: Trace, t1: Trace, t2: Trace)
    requires Truthful(w, t, t1) && Truthful(w, t1, t2)
    ensures Truthful(w, t, t2)
  {
  }

  // ---- The last word on a message ----

  predicate LastIs(t: Trace, e: Event) { |t| > 0 && t[|t| - 1] == e }

  /** The claim of this message was answered so, and its reservation went back. */
  predicate GaveBack(t: Trace, id: nat, answer: Claim)
  {
    |t| > 1 && t[|t| - 2] == Claimed(id, answer) && t[|t| - 1].Returned? && t[|t| - 1].id == id
  }

  predicate FailedBy(t: Trace, id: nat)
  {
    LastIs(t, LookupFailed) || LastIs(t, BudgetFailed(id)) || LastIs(t, Notified(id, false)) || GaveBack(t, id, Broken)
  }

  predicate StalledBy(t: Trace, id: nat) { LastIs(t, ReadyAsked(false)) || LastIs(t, Refused(id)) }

  predicate SentBy(t: Trace, id: nat)
  {
    |t| > 1 && t[|t| - 2] == Notified(id, true) && t[|t| - 1].Booked? && t[|t| - 1].id == id
  }

  /** The message was heard, looked into or held, and nothing more. */
  predicate LeftAt(t: Trace)
  {
    |t| > 0 && (t[|t| - 1].Heard? || t[|t| - 1].Looked? || t[|t| - 1].NoticePosted?)
  }

  predicate Tells(v: Verdict, t: Trace, id: nat)
  {
    match v
    case Failed => FailedBy(t, id)
    case Stalled => StalledBy(t, id)
    case Past(Delivered) => SentBy(t, id)
    case Past(Taken) => GaveBack(t, id, Lost)
    case Past(_) => LeftAt(t)
  }

  lemma WriteTells(w: World, id: nat, t: Trace)
    ensures var o := Write(w, id, t); Truthful(w, t, o.t) && Tells(o.verdict, o.t, id)
  {
  }

  lemma ReturnTells(w: World, id: nat, answer: Claim, t: Trace)
    requires answer.Lost? || answer.Broken?
    requires LastIs(t, Claimed(id, answer))
    ensures var o := Return(w, id, answer, t); Truthful(w, t, o.t) && Tells(o.verdict, o.t, id)
  {
    TrueOne(w, t, Returned(id, Ask(w, t).ok));
  }

  lemma EmitTells(w: World, id: nat, t: Trace)
    ensures var o := Emit(w, id, t); Truthful(w, t, o.t) && Tells(o.verdict, o.t, id)
  {
    var answer := Ask(w, t).claim;
    var t1 := t + [Claimed(id, answer)];
    TrueOne(w, t, Claimed(id, answer));
    if answer.Won? {
      WriteTells(w, id, t1);
      TrueJoin(w, t, t1, Write(w, id, t1).t);
    } else {
      ReturnTells(w, id, answer, t1);
      TrueJoin(w, t, t1, Return(w, id, answer, t1).t);
    }
  }

  /** What the budget did with this message. */
  ghost predicate Budgeted(w: World, m: Message, t: Trace, t': Trace)
  {
    && t <= t'
    && (forall i :: |t| <= i < |t'| && t'[i].Reserved? ==> m.body != "")
    && (forall i :: |t| <= i < |t'| && t'[i].Refused? ==> m.body == "" || w.answers(i).grant.Exhausted?)
  }

  lemma EmitHasNoBudget(w: World, id: nat, t: Trace)
    ensures var o := Emit(w, id, t);
            t <= o.t && forall i :: |t| <= i < |o.t| ==> !o.t[i].Reserved? && !o.t[i].Refused?
  {
    var answer := Ask(w, t).claim;
    var t1 := t + [Claimed(id, answer)];
    if answer.Won? {
      assert t1 <= Write(w, id, t1).t;
    } else {
      assert t1 <= Return(w, id, answer, t1).t;
    }
  }

  lemma BudgetOne(w: World, m: Message, t: Trace, e: Event)
    requires e.Reserved? ==> m.body != ""
    requires e.Refused? ==> m.body == "" || Ask(w, t).grant.Exhausted?
    ensures Budgeted(w, m, t, t + [e])
  {
  }

  lemma BudgetJoin(w: World, m: Message, t: Trace, t1: Trace, t2: Trace)
    requires Budgeted(w, m, t, t1) && Budgeted(w, m, t1, t2)
    ensures Budgeted(w, m, t, t2)
  {
  }

  lemma PaidTells(w: World, m: Message, t: Trace)
    requires Ask(w, t).grant.Granted? && m.body != ""
    ensures var o := Emit(w, m.id, t + [Reserved(m.id)]);
            Truthful(w, t, o.t) && Tells(o.verdict, o.t, m.id) && Budgeted(w, m, t, o.t)
  {
    var t1 := t + [Reserved(m.id)];
    TrueOne(w, t, Reserved(m.id));
    BudgetOne(w, m, t, Reserved(m.id));
    EmitTells(w, m.id, t1);
    EmitHasNoBudget(w, m.id, t1);
    TrueJoin(w, t, t1, Emit(w, m.id, t1).t);
    BudgetJoin(w, m, t, t1, Emit(w, m.id, t1).t);
  }

  lemma SpendTells(w: World, m: Message, t: Trace)
    ensures var o := Spend(w, m, t); Truthful(w, t, o.t) && Tells(o.verdict, o.t, m.id) && Budgeted(w, m, t, o.t)
  {
    var grant := Ask(w, t).grant;
    if grant.Unreadable? {
      TrueOne(w, t, BudgetFailed(m.id));
      BudgetOne(w, m, t, BudgetFailed(m.id));
    } else if m.body == "" || grant.Exhausted? {
      TrueOne(w, t, Refused(m.id));
      BudgetOne(w, m, t, Refused(m.id));
    } else {
      PaidTells(w, m, t);
    }
  }

  lemma DeliverTells(w: World, m: Message, t: Trace)
    ensures var o := Deliver(w, m, t); Truthful(w, t, o.t) && Tells(o.verdict, o.t, m.id) && Budgeted(w, m, t, o.t)
  {
    var ready := Ask(w, t).flag;
    var t1 := t + [ReadyAsked(ready)];
    TrueOne(w, t, ReadyAsked(ready));
    BudgetOne(w, m, t, ReadyAsked(ready));
    if ready {
      SpendTells(w, m, t1);
      TrueJoin(w, t, t1, Spend(w, m, t1).t);
      BudgetJoin(w, m, t, t1, Spend(w, m, t1).t);
    }
  }

  // ---- What has to be looked up ----

  /** The parent can matter. */
  predicate AsksParent(m: Message) { m.replyTo != 0 && !Attention(m) && !m.human }

  /** And so can whom it mentions. */
  predicate AsksMentions(w: World, room: RoomId, parent: Message)
  {
    Own(w.self, parent) && !Attention(parent) && parent.replyTo == 0 && NeedsMentions(room.kind)
  }

  /** The ids looked up for a message, in order. */
  function Needed(w: World, room: RoomId, m: Message): seq<nat>
  {
    ParentNeeded(w, room, m) + if NeedsMentions(room.kind) then [m.id] else []
  }

  function ParentNeeded(w: World, room: RoomId, m: Message): seq<nat>
  {
    var parent := w.parent(room.key, m.replyTo);
    if !AsksParent(m) then []
    else if parent.Some? && AsksMentions(w, room, parent.value) then [m.replyTo, parent.value.id]
    else [m.replyTo]
  }

  function Lookups(ids: seq<nat>): (t: Trace)
    ensures |t| == |ids| && forall i :: 0 <= i < |ids| ==> t[i] == Looked(ids[i])
  {
    seq<Event>(|ids|, i requires 0 <= i < |ids| => Looked(ids[i]))
  }

  /** These were looked up one after the other, up to the first that failed. */
  ghost predicate LookedUp(ids: seq<nat>, t: Trace, found: bool, t': Trace)
  {
    if found then t' == t + Lookups(ids)
    else exists n :: 0 <= n < |ids| && t' == t + Lookups(ids[..n]) + [LookupFailed]
  }

  lemma FailedAt(ids: seq<nat>, n: nat, t: Trace, done: Trace)
    requires n < |ids| && done == t + Lookups(ids[..n])
    ensures LookedUp(ids, t, false, done + [LookupFailed])
  {
  }

  lemma LookParentTells(w: World, room: RoomId, m: Message, t: Trace)
    ensures var l := LookParent(w, room, m, t);
            LookedUp(ParentNeeded(w, room, m), t, l.mentions.Some?, l.t) && Truthful(w, t, l.t)
  {
    var ids, t1 := ParentNeeded(w, room, m), t + [Looked(m.replyTo)];
    if AsksParent(m) {
      assert Lookups(ids[..0]) == [] && t + [] == t;
      assert Lookups(ids[..1]) == [Looked(m.replyTo)];
      if !Ask(w, t).ok {
        FailedAt(ids, 0, t, t);
      } else if |ids| == 2 {
        assert Lookups(ids) == [Looked(m.replyTo)] + [Looked(ids[1])];
        if !Ask(w, t1).ok {
          FailedAt(ids, 1, t, t1);
        }
      } else {
        assert ids[..1] == ids;
      }
    } else {
      assert t + Lookups(ids) == t;
    }
  }

  lemma MoreNeeded(ids: seq<nat>, id: nat, t: Trace, t1: Trace, ok: bool)
    requires LookedUp(ids, t, true, t1)
    ensures LookedUp(ids + [id], t, ok, t1 + [if ok then Looked(id) else LookupFailed])
  {
    if ok {
      assert Lookups(ids + [id]) == Lookups(ids) + [Looked(id)];
    } else {
      assert (ids + [id])[..|ids|] == ids;
      FailedAt(ids + [id], |ids|, t, t1);
    }
  }

  lemma FailedEarlier(ids: seq<nat>, more: seq<nat>, t: Trace, t': Trace)
    requires LookedUp(ids, t, false, t')
    ensures LookedUp(ids + more, t, false, t')
  {
    var n :| 0 <= n < |ids| && t' == t + Lookups(ids[..n]) + [LookupFailed];
    assert (ids + more)[..n] == ids[..n];
  }

  /** Handling looks up what can matter, in order, and nothing else. */
  lemma LooksUp(w: World, room: RoomId, m: Message, t: Trace)
    ensures var l := Look(w, room, m, t);
            LookedUp(Needed(w, room, m), t, l.mentions.Some?, l.t) && Truthful(w, t, l.t)
  {
    var p, ids := LookParent(w, room, m, t), ParentNeeded(w, room, m);
    LookParentTells(w, room, m, t);
    if !NeedsMentions(room.kind) {
      assert ids + [] == ids;
    } else if p.mentions.None? {
      FailedEarlier(ids, [m.id], t, p.t);
    } else {
      var ok := Ask(w, p.t).ok;
      var e := if ok then Looked(m.id) else LookupFailed;
      MoreNeeded(ids, m.id, t, p.t, ok);
      TrueOne(w, p.t, e);
      TrueJoin(w, t, p.t, p.t + [e]);
    }
  }

  // ---- Handling a message ----

  lemma LooksLeave(w: World, ids: seq<nat>, m: Message, t: Trace, found: bool, t': Trace)
    requires LookedUp(ids, t, found, t') && LeftAt(t)
    ensures if found then LeftAt(t') else LastIs(t', LookupFailed)
    ensures Budgeted(w, m, t, t')
  {
    if found {
      LookupsLeave(w, ids, m, t);
    } else {
      var n :| 0 <= n < |ids| && t' == t + Lookups(ids[..n]) + [LookupFailed];
      LookupsLeave(w, ids[..n], m, t);
      BudgetOne(w, m, t + Lookups(ids[..n]), LookupFailed);
      BudgetJoin(w, m, t, t + Lookups(ids[..n]), t');
    }
  }

  lemma LookupsLeave(w: World, ids: seq<nat>, m: Message, t: Trace)
    requires LeftAt(t)
    ensures LeftAt(t + Lookups(ids)) && Budgeted(w, m, t, t + Lookups(ids))
  {
    var more := Lookups(ids);
    assert forall i :: |t| <= i < |t + more| ==> (t + more)[i] == more[i - |t|];
  }

  /** A verdict, and what the trace says about how it came. */
  ghost predicate Came(w: World, m: Message, v: Verdict, t: Trace, t': Trace)
  {
    Truthful(w, t, t') && Tells(v, t', m.id) && Budgeted(w, m, t, t')
  }

  lemma CameBehind(w: World, m: Message, v: Verdict, t: Trace, t1: Trace, t': Trace)
    requires Truthful(w, t, t1) && Budgeted(w, m, t, t1) && Came(w, m, v, t1, t')
    ensures Came(w, m, v, t, t')
  {
    TrueJoin(w, t, t1, t');
    BudgetJoin(w, m, t, t1, t');
  }

  lemma HoldTells(w: World, key: string, m: Message, st: Memory, t: Trace)
    requires LeftAt(t)
    ensures var h := Hold(w, key, m.id, st, t); Came(w, m, h.verdict, t, h.t)
  {
    var e := NoticePosted(key, m.id, Ask(w, t).ok);
    TrueOne(w, t, e);
    BudgetOne(w, m, t, e);
  }

  lemma DecideTells(w: World, room: RoomId, m: Message, now: int, hold: bool, st: Memory, t: Trace)
    requires LeftAt(t)
    ensures var h := Decide(w, room, m, now, hold, st, t); Came(w, m, h.verdict, t, h.t)
  {
    if WakeCandidate(w.self, room.kind, m, now) {
      var l := Look(w, room, m, t);
      LooksUp(w, room, m, t);
      LooksLeave(w, Needed(w, room, m), m, t, l.mentions.Some?, l.t);
      if l.mentions.Some? && ShouldWake(w.self, room.kind, m, l.mentions.value, l.parent, now) {
        if hold && w.enforce {
          var h := Hold(w, room.key, m.id, st, l.t);
          HoldTells(w, room.key, m, st, l.t);
          CameBehind(w, m, h.verdict, t, l.t, h.t);
        } else {
          var d := Deliver(w, m, l.t);
          DeliverTells(w, m, l.t);
          CameBehind(w, m, d.verdict, t, l.t, d.t);
        }
      }
    }
  }

  lemma HandleTells(w: World, room: RoomId, m: Message, st: Memory, t: Trace)
    ensures var h := Handle(w, room, m, st, t); Came(w, m, h.verdict, t, h.t) && |t| < |h.t|
  {
    var st1 := Listen(w, st, room.key, m);
    var hold := Holds(RoomOf(st1, room.key).streak);
    var e := Heard(room.key, m, hold);
    var h := Decide(w, room, m, Ask(w, t).now, hold, st1, t + [e]);
    TrueOne(w, t, e);
    BudgetOne(w, m, t, e);
    DecideTells(w, room, m, Ask(w, t).now, hold, st1, t + [e]);
    CameBehind(w, m, h.verdict, t, t + [e], h.t);
  }

  /** The last word names one verdict, up to why a message was left. */
  lemma TellsOneVerdict(v: Verdict, v': Verdict, t: Trace, id: nat)
    requires Tells(v, t, id) && Tells(v', t, id)
    ensures v == v' || LeftAt(t)
    ensures LeftAt(t) ==> v.Past? && v.fate in {OwnPost, Unwoken, Held}
  {
  }

  ghost predicate WouldWake(w: World, room: RoomId, m: Message, now: int)
  {
    Wakes(w.self, room.kind, m, ParentOf(w, room, m), w.mentions, now)
  }

  predicate WouldHold(w: World, r: Room, m: Message) { w.enforce && Holds(Hear(w.novel, r, m).streak) }

  /** Every verdict, exactly: an error where the last word is one, else by the wake rule on complete
      knowledge, the loop guard, and the last word of the delivery. */
  lemma VerdictExactly(w: World, room: RoomId, m: Message, st: Memory, t: Trace)
    ensures var h := Handle(w, room, m, st, t);
            var wakes, held := WouldWake(w, room, m, Ask(w, t).now), WouldHold(w, RoomOf(st, room.key), m);
            && Truthful(w, t, h.t) && |t| < |h.t| && Budgeted(w, m, t, h.t)
            && (h.verdict.Failed? <==> FailedBy(h.t, m.id))
            && (h.verdict == Past(OwnPost) <==> !FailedBy(h.t, m.id) && Own(w.self, m))
            && (h.verdict == Past(Unwoken) <==> !FailedBy(h.t, m.id) && !Own(w.self, m) && !wakes)
            && (h.verdict == Past(Held) <==> !FailedBy(h.t, m.id) && wakes && held)
            && (h.verdict.Stalled? <==> wakes && !held && StalledBy(h.t, m.id))
            && (h.verdict == Past(Taken) <==> wakes && !held && GaveBack(h.t, m.id, Lost))
            && (h.verdict == Past(Delivered) <==> wakes && !held && SentBy(h.t, m.id))
  {
    HandleTells(w, room, m, st, t);
    HandleDecides(w, room, m, st, t);
    OwnWakesNobody(w, room, m, Ask(w, t).now);
    AllVerdicts(Handle(w, room, m, st, t).verdict, Handle(w, room, m, st, t).t, m.id);
  }

  lemma OwnWakesNobody(w: World, room: RoomId, m: Message, now: int)
    ensures Own(w.self, m) ==> !WouldWake(w, room, m, now)
  {
  }

  lemma AllVerdicts(v: Verdict, t: Trace, id: nat)
    requires Tells(v, t, id)
    ensures v.Failed? <==> FailedBy(t, id)
    ensures v.Stalled? <==> StalledBy(t, id)
    ensures v == Past(Taken) <==> GaveBack(t, id, Lost)
    ensures v == Past(Delivered) <==> SentBy(t, id)
  {
    if FailedBy(t, id) {
      TellsOneVerdict(v, Failed, t, id);
    }
    if StalledBy(t, id) {
      TellsOneVerdict(v, Stalled, t, id);
    }
    if GaveBack(t, id, Lost) {
      TellsOneVerdict(v, Past(Taken), t, id);
    }
    if SentBy(t, id) {
      TellsOneVerdict(v, Past(Delivered), t, id);
    }
  }
}
