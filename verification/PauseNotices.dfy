/** The resume notice, exactly: when a round of the syncer sends it. */
module PauseNotices {
  import opened Text
  import opened AckLog
  import opened PauseModel
  import opened PauseRuns

  /** This process saw the control active. */
  predicate SawActive(t: Trace, id: nat)
  {
    exists k :: 0 <= k < |t| && t[k].Asked? && t[k].ok && t[k].active.Some? && t[k].active.value.id == id
  }

  /** The notice for it went out. */
  predicate WasTold(t: Trace, id: nat) { exists k :: 0 <= k < |t| && t[k] == Told(id, true) }

  /** What the server now says calls for a notice. */
  predicate NoticeDue(w: World, t: Trace, a: Answer)
  {
    && w.hasNotifier && a.ok && a.active.None? && a.resumed.Some? && a.resumed.value.resumedAt != ""
    && SawActive(t, a.resumed.value.id) && !WasTold(t, a.resumed.value.id)
  }

  /** The round ends with the attempt, or with a channel that was not ready for it. */
  predicate Attempted(w: World, id: nat, t: Trace)
  {
    var last := |t| - 1;
    || (last >= 0 && t[last] == ReadyAsked(false) && !w.answers(last).ready)
    || (last >= 1 && t[last - 1] == ReadyAsked(true) && w.answers(last - 1).ready && t[last] == Told(id, w.answers(last).ok))
  }

  predicate NothingSaid(t: Trace, t': Trace)
  {
    t <= t' && forall k :: |t| <= k < |t'| ==> !t'[k].Told? && !t'[k].ReadyAsked?
  }

  lemma {:induction false} WatchedIs(t: Trace, id: nat)
    ensures id in Watched(t) <==> SawActive(t, id)
    decreases |t|
  {
    if id in Watched(t) {
      var k := WatchedFrom(t, id);
    }
    if t != [] {
      var before, last := t[..|t| - 1], |t| - 1;
      WatchedIs(before, id);
      if k :| 0 <= k < |t| && t[k].Asked? && t[k].ok && t[k].active.Some? && t[k].active.value.id == id {
        if k < last {
          assert before[k] == t[k];
        }
      }
    }
  }

  lemma {:induction false} AnnouncedIs(t: Trace, id: nat)
    ensures id in Announced(t) <==> WasTold(t, id)
    decreases |t|
  {
    if t != [] {
      var before, last := t[..|t| - 1], |t| - 1;
      AnnouncedIs(before, id);
      if k :| 0 <= k < |t| && t[k] == Told(id, true) {
        if k < last {
          assert before[k] == t[k];
        }
      }
      if k :| 0 <= k < |before| && before[k] == Told(id, true) {
        assert t[k] == before[k];
      }
    }
  }

  lemma {:induction false} ReportSilent(w: World, acks: seq<Ack>, k: nat, offset: nat, t: Trace)
    requires k <= |acks|
    ensures NothingSaid(t, ReportFrom(w, acks, k, offset, t).t)
    decreases |acks| - k
  {
    if k < |acks| {
      var a, j := acks[k], k + 1;
      var t1 := t + [Reported(a.end, a.control, Ask(w, t).outcome)];
      ReportSilent(w, acks, j, a.end, t);
      ReportSilent(w, acks, j, a.end, t1);
    }
  }

  lemma ReportAcksSilent(w: World, st: State, t: Trace)
    ensures var r := ReportAcks(w, st, t);
            NothingSaid(t, r.t) && r.st.seen == st.seen && r.st.announced == st.announced
  {
    var r := ReadLog(w.parse, Grow(st.acks, Ask(w, t).grown), st.offset);
    ReportSilent(w, r.acks, 0, st.offset, t + [Read(|r.acks|)]);
  }

  /** A lifted control that was seen active and is not announced yet. */
  predicate Announces(w: World, st: State, resumed: Option<Control>)
  {
    && w.hasNotifier && resumed.Some? && resumed.value.resumedAt != ""
    && resumed.value.id in st.seen && resumed.value.id !in st.announced
  }

  /** The end of a round that lifts. */
  lemma AnnounceExactly(w: World, st: State, resumed: Option<Control>, t: Trace)
    ensures var r := Announce(w, st, resumed, t);
            if Announces(w, st, resumed)
            then t < r.t && Attempted(w, resumed.value.id, r.t)
            else r.t == t
  {
  }

  lemma MirrorSilent(w: World, st: State, c: Control, t: Trace, t1: Trace)
    requires NothingSaid(t, t1) && t < t1
    ensures var m := Mirror(w, st, c, t1);
            t < m.t && NothingSaid(t, m.t) && t < ReportAcks(w, m.st, m.t).t && NothingSaid(t, ReportAcks(w, m.st, m.t).t)
  {
    var m := Mirror(w, st, c, t1);
    ReportAcksSilent(w, m.st, m.t);
    assert |t| < |t1| <= |m.t|;
  }

  lemma AfterReport(w: World, st: State, resumed: Option<Control>, t: Trace)
    ensures var r := ReportAcks(w, st, t); var l := Lift(w, r.st, resumed, r.t);
            t < l.t &&
            if Announces(w, st, resumed)
            then Attempted(w, resumed.value.id, l.t) else NothingSaid(t, l.t)
  {
    var r := ReportAcks(w, st, t);
    ReportAcksSilent(w, st, t);
    LiftExactly(w, r.st, resumed, r.t);
  }

  /** What a round says of the notice, given what it calls for. */
  predicate Spoke(w: World, due: bool, resumed: Option<Control>, t: Trace, t': Trace)
  {
    t < t' && if due then resumed.Some? && Attempted(w, resumed.value.id, t') else NothingSaid(t, t')
  }

  lemma SpokeLater(w: World, due: bool, resumed: Option<Control>, t: Trace, e: Event, t': Trace)
    requires Spoke(w, due, resumed, t + [e], t') && !e.Told? && !e.ReadyAsked?
    ensures Spoke(w, due, resumed, t, t')
  {
    assert forall k :: |t| <= k < |t + [e]| ==> t'[k] == e;
  }

  lemma LiftSpoke(w: World, st: State, resumed: Option<Control>, t: Trace, t1: Trace, due: bool)
    requires due <==> Announces(w, st, resumed)
    ensures var r := ReportAcks(w, st, t1); Spoke(w, due, resumed, t1, Lift(w, r.st, resumed, r.t).t)
  {
    AfterReport(w, st, resumed, t1);
  }

  /** The same in terms of the syncer's memory. */
  predicate Calls(w: World, st: State, a: Answer)
  {
    a.ok && a.active.None? && Announces(w, st, a.resumed)
  }

  lemma DueIs(w: World, st: State, t: Trace, a: Answer)
    requires st.seen == Watched(t) && st.announced == Announced(t)
    ensures NoticeDue(w, t, a) <==> Calls(w, st, a)
  {
    if a.resumed.Some? {
      WatchedIs(t, a.resumed.value.id);
      AnnouncedIs(t, a.resumed.value.id);
    }
  }

  lemma RoundSpeaks(w: World, st: State, t: Trace)
    ensures var a := w.answers(|t|); Spoke(w, Calls(w, st, a), a.resumed, t, Sync(w, st, t).t)
  {
    var a := Ask(w, t);
    var e := Asked(a.ok, a.active, a.resumed);
    if !a.ok {
      assert Sync(w, st, t).t == t + [e];
    } else if a.active.Some? {
      MirrorSilent(w, st, a.active.value, t, t + [e]);
    } else {
      LiftSpoke(w, st, a.resumed, t, t + [e], Calls(w, st, a));
      SpokeLater(w, Calls(w, st, a), a.resumed, t, e, Sync(w, st, t).t);
    }
  }

  lemma RoundExactly(w: World, st: State, t: Trace)
    requires st.seen == Watched(t) && st.announced == Announced(t)
    ensures var a := w.answers(|t|); Spoke(w, NoticeDue(w, t, a), a.resumed, t, Sync(w, st, t).t)
  {
    DueIs(w, st, t, w.answers(|t|));
    RoundSpeaks(w, st, t);
  }

  lemma LiftExactly(w: World, st: State, resumed: Option<Control>, t: Trace)
    ensures var l := Lift(w, st, resumed, t);
            t < l.t &&
            if Announces(w, st, resumed)
            then Attempted(w, resumed.value.id, l.t) else NothingSaid(t, l.t)
  {
    var gone := Ask(w, t).ok;
    var t1 := t + [Removed(gone)];
    var cleared := Ask(w, t1).ok;
    var st1 := st.(flag := if gone then Nothing else st.flag, acks := if cleared then None else st.acks, offset := 0);
    AnnounceExactly(w, st1, resumed, t1 + [Cleared(cleared)]);
  }

  /** In every round of every run: if the server says that a control is lifted which this process saw
      active and has not announced, the round asks the channel and, if that is ready, tries; otherwise
      the channel is not even asked. */
  lemma NoticeComes(w: World, st: State, n: nat)
    requires Starts(st)
    ensures var t, t' := Syncs(w, st, n).t, Syncs(w, st, n + 1).t;
            t < t' && if NoticeDue(w, t, w.answers(|t|)) then Attempted(w, w.answers(|t|).resumed.value.id, t') else NothingSaid(t, t')
  {
    var r := Syncs(w, st, n);
    RunRecalls(w, st, n);
    RoundExactly(w, r.st, r.t);
  }
}
