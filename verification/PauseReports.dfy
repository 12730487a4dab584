/** What a round of the pause syncer reports to the server, and when it fails. */
module PauseReports {
  import opened Text
  import opened AckLog
  import opened PauseModel

  /** The acks with a control the server can know. */
  function Known(acks: seq<Ack>, k: nat): seq<Ack>
    requires k <= |acks|
    decreases |acks| - k
  {
    if k == |acks| then [] else (if acks[k].control > 0 then [acks[k]] else []) + Known(acks, k + 1)
  }

  function ReportOf(w: World, a: Ack, n: nat): Event { Reported(a.end, a.control, w.answers(n).outcome) }

  /** The first n of these acks, each with what the server said to it. */
  function ReportsOf(w: World, acks: seq<Ack>, n: nat, t: Trace): (r: Trace)
    requires n <= |acks|
    ensures |r| == n && forall i :: 0 <= i < n ==> r[i] == ReportOf(w, acks[i], |t| + i)
  {
    seq<Event>(n, i requires 0 <= i < n => ReportOf(w, acks[i], |t| + i))
  }

  /** These were reported one after the other, up to the first that broke. */
  ghost predicate ReportedAll(w: World, acks: seq<Ack>, n: nat, t: Trace, failed: bool, t': Trace)
  {
    && n <= |acks| && t' == t + ReportsOf(w, acks, n, t)
    && (forall i :: |t| <= i < |t| + n - 1 ==> !w.answers(i).outcome.Broken?)
    && (failed <==> n > 0 && w.answers(|t| + n - 1).outcome.Broken?)
    && (!failed ==> n == |acks|)
  }

  lemma OneMoreReported(w: World, a: Ack, rest: seq<Ack>, n: nat, t: Trace, failed: bool, t': Trace)
    requires ReportedAll(w, rest, n, t + [ReportOf(w, a, |t|)], failed, t') && !w.answers(|t|).outcome.Broken?
    ensures ReportedAll(w, [a] + rest, n + 1, t, failed, t')
  {
    OneMoreReport(w, a, rest, n, t);
    var t1 := t + [ReportOf(w, a, |t|)];
    assert |t1| == |t| + 1;
  }

  lemma OneMoreReport(w: World, a: Ack, rest: seq<Ack>, n: nat, t: Trace)
    requires n <= |rest|
    ensures t + [ReportOf(w, a, |t|)] + ReportsOf(w, rest, n, t + [ReportOf(w, a, |t|)]) == t + ReportsOf(w, [a] + rest, n + 1, t)
  {
    var first := ReportOf(w, a, |t|);
    var more, both := ReportsOf(w, rest, n, t + [first]), ReportsOf(w, [a] + rest, n + 1, t);
    assert both[0] == first;
    forall i | 1 <= i < n + 1 ensures both[i] == more[i - 1] {
      assert ([a] + rest)[i] == rest[i - 1] && |t| + i == |t + [first]| + (i - 1);
    }
    assert both == [first] + more;
    assert t + [first] + more == t + ([first] + more);
  }

  lemma OneBroken(w: World, a: Ack, rest: seq<Ack>, t: Trace)
    requires w.answers(|t|).outcome.Broken?
    ensures ReportedAll(w, [a] + rest, 1, t, true, t + [ReportOf(w, a, |t|)])
  {
    assert ReportsOf(w, [a] + rest, 1, t) == [ReportOf(w, a, |t|)];
  }

  lemma {:induction false} LoopReports(w: World, acks: seq<Ack>, k: nat, offset: nat, t: Trace) returns (n: nat)
    requires k <= |acks|
    ensures var p := ReportFrom(w, acks, k, offset, t); ReportedAll(w, Known(acks, k), n, t, p.failed, p.t)
    decreases |acks| - k
  {
    n := 0;
    if k == |acks| {
      assert t + ReportsOf(w, [], 0, t) == t;
    } else {
      var a, j := acks[k], k + 1;
      var rest := Known(acks, j);
      if a.control <= 0 {
        n := LoopReports(w, acks, j, a.end, t);
        assert [] + rest == rest;
      } else if w.answers(|t|).outcome.Broken? {
        OneBroken(w, a, rest, t);
        n := 1;
      } else {
        var m := LoopReports(w, acks, j, a.end, t + [ReportOf(w, a, |t|)]);
        var p := ReportFrom(w, acks, j, a.end, t + [ReportOf(w, a, |t|)]);
        OneMoreReported(w, a, rest, m, t, p.failed, p.t);
        n := m + 1;
      }
    }
  }

  /** reportAcks tells the server of every line behind the offset that names a control, in order and no
      other, each with the server's answer, up to the first answer that breaks; only that makes it fail. */
  lemma ReportsExactly(w: World, st: State, t: Trace) returns (n: nat)
    ensures var acks := ReadLog(w.parse, Grow(st.acks, Ask(w, t).grown), st.offset).acks;
            var r := ReportAcks(w, st, t);
            ReportedAll(w, Known(acks, 0), n, t + [Read(|acks|)], r.failed, r.t)
  {
    var acks := ReadLog(w.parse, Grow(st.acks, Ask(w, t).grown), st.offset).acks;
    n := LoopReports(w, acks, 0, st.offset, t + [Read(|acks|)]);
  }

  // ---- When a round fails ----

  predicate Failing(e: Event)
  {
    match e
    case Asked(ok, _, _) => !ok
    case Wrote(_, ok) => !ok
    case Reported(_, _, outcome) => outcome.Broken?
    case Told(_, ok) => !ok
    case _ => false
  }

  ghost predicate Fails(t: Trace, t': Trace, failed: bool)
  {
    t <= t' && (failed <==> exists i :: |t| <= i < |t'| && Failing(t'[i]))
  }

  lemma FailOne(t: Trace, e: Event)
    ensures Fails(t, t + [e], Failing(e))
  {
    assert (t + [e])[|t|] == e;
  }

  lemma FailJoin(t: Trace, t1: Trace, t2: Trace, a: bool, b: bool)
    requires Fails(t, t1, a) && Fails(t1, t2, b)
    ensures Fails(t, t2, a || b)
  {
    assert forall i :: 0 <= i < |t1| ==> t2[i] == t1[i];
  }

  lemma FailMore(t: Trace, t1: Trace, e: Event, a: bool)
    requires Fails(t, t1, a)
    ensures Fails(t, t1 + [e], a || Failing(e))
  {
    FailOne(t1, e);
    FailJoin(t, t1, t1 + [e], a, Failing(e));
  }

  lemma {:induction false} LoopFails(w: World, acks: seq<Ack>, k: nat, offset: nat, t: Trace)
    requires k <= |acks|
    ensures var p := ReportFrom(w, acks, k, offset, t); Fails(t, p.t, p.failed)
    decreases |acks| - k
  {
    if k < |acks| {
      var a, j := acks[k], k + 1;
      var e := ReportOf(w, a, |t|);
      LoopFails(w, acks, j, a.end, t);
      LoopFails(w, acks, j, a.end, t + [e]);
      FailOne(t, e);
      FailJoin(t, t + [e], ReportFrom(w, acks, j, a.end, t + [e]).t, Failing(e), ReportFrom(w, acks, j, a.end, t + [e]).failed);
    }
  }

  lemma ReportFails(w: World, st: State, t: Trace)
    ensures var r := ReportAcks(w, st, t); Fails(t, r.t, r.failed)
  {
    var acks := ReadLog(w.parse, Grow(st.acks, Ask(w, t).grown), st.offset).acks;
    var p := ReportFrom(w, acks, 0, st.offset, t + [Read(|acks|)]);
    LoopFails(w, acks, 0, st.offset, t + [Read(|acks|)]);
    FailOne(t, Read(|acks|));
    FailJoin(t, t + [Read(|acks|)], p.t, false, p.failed);
  }

  lemma LiftFails(w: World, st: State, resumed: Option<Control>, t: Trace)
    ensures var r := Lift(w, st, resumed, t); Fails(t, r.t, r.failed)
  {
    var t1 := t + [Removed(Ask(w, t).ok)];
    var t2 := t1 + [Cleared(Ask(w, t1).ok)];
    var t3 := t2 + [ReadyAsked(Ask(w, t2).ready)];
    FailOne(t, Removed(Ask(w, t).ok));
    FailMore(t, t1, Cleared(Ask(w, t1).ok), false);
    FailMore(t, t2, ReadyAsked(Ask(w, t2).ready), false);
    if resumed.Some? {
      FailMore(t, t3, Told(resumed.value.id, Ask(w, t3).ok), false);
    }
  }

  lemma MirrorFails(w: World, st: State, c: Control, t: Trace)
    ensures var m := Mirror(w, st, c, t); Fails(t, m.t, m.failed)
  {
    FailOne(t, Wrote(c.id, Ask(w, t).ok));
  }

  /** A round fails exactly when the server did not answer, the flag could not be written, a report broke
      or the notice could not be sent; files that would not go are no failure. */
  lemma FailsExactly(w: World, st: State, t: Trace)
    ensures var r := Sync(w, st, t); Fails(t, r.t, r.failed)
  {
    var a := Ask(w, t);
    var e := Asked(a.ok, a.active, a.resumed);
    var t1 := t + [e];
    FailOne(t, e);
    if a.ok {
      if a.active.Some? {
        var m := Mirror(w, st, a.active.value, t1);
        MirrorFails(w, st, a.active.value, t1);
        FailJoin(t, t1, m.t, false, m.failed);
        ReportFails(w, m.st, m.t);
        FailJoin(t, m.t, ReportAcks(w, m.st, m.t).t, m.failed, ReportAcks(w, m.st, m.t).failed);
      } else {
        var r := ReportAcks(w, st, t1);
        var l := Lift(w, r.st, a.resumed, r.t);
        ReportFails(w, st, t1);
        LiftFails(w, r.st, a.resumed, r.t);
        FailJoin(t, t1, r.t, false, r.failed);
        FailJoin(t, r.t, l.t, r.failed, l.failed);
      }
    }
  }

  // ---- When the flag is written ----

  ghost predicate NothingWritten(t: Trace, t': Trace)
  {
    t <= t' && forall i :: |t| <= i < |t'| ==> !t'[i].Wrote?
  }

  lemma {:induction false} LoopWritesNothing(w: World, acks: seq<Ack>, k: nat, offset: nat, t: Trace)
    requires k <= |acks|
    ensures NothingWritten(t, ReportFrom(w, acks, k, offset, t).t)
    decreases |acks| - k
  {
    if k < |acks| {
      var a, j := acks[k], k + 1;
      LoopWritesNothing(w, acks, j, a.end, t);
      LoopWritesNothing(w, acks, j, a.end, t + [ReportOf(w, a, |t|)]);
    }
  }

  lemma ReportWritesNothing(w: World, st: State, t: Trace)
    ensures NothingWritten(t, ReportAcks(w, st, t).t)
  {
    var acks := ReadLog(w.parse, Grow(st.acks, Ask(w, t).grown), st.offset).acks;
    LoopWritesNothing(w, acks, 0, st.offset, t + [Read(|acks|)]);
  }

  lemma LiftWritesNothing(w: World, st: State, resumed: Option<Control>, t: Trace)
    ensures NothingWritten(t, Lift(w, st, resumed, t).t)
  {
  }

  lemma WrittenJoin(t: Trace, t1: Trace, t2: Trace)
    requires NothingWritten(t, t1) && NothingWritten(t1, t2)
    ensures NothingWritten(t, t2)
  {
  }

  /** The flag is written exactly in the rounds in which the server has an active control that the flag
      does not name, right behind the server's answer and once. */
  lemma WritesExactly(w: World, st: State, t: Trace)
    ensures var a, t' := w.answers(|t|), Sync(w, st, t).t;
            if a.ok && a.active.Some? && ReadFlag(st.flag) != Some(a.active.value.id)
            then |t| + 2 <= |t'| && t'[|t| + 1] == Wrote(a.active.value.id, w.answers(|t| + 1).ok) && NothingWritten(t'[..|t| + 2], t')
            else NothingWritten(t, t')
  {
    var a := Ask(w, t);
    var t1 := t + [Asked(a.ok, a.active, a.resumed)];
    if a.ok {
      if a.active.Some? {
        var m := Mirror(w, st, a.active.value, t1);
        ReportWritesNothing(w, m.st, m.t);
        BehindMirror(w, a.active.value, st, t1, m, Sync(w, st, t).t);
      } else {
        var r := ReportAcks(w, st, t1);
        ReportWritesNothing(w, st, t1);
        LiftWritesNothing(w, r.st, a.resumed, r.t);
        WrittenJoin(t1, r.t, Lift(w, r.st, a.resumed, r.t).t);
        WrittenJoin(t, t1, Sync(w, st, t).t);
      }
    }
  }

  lemma BehindMirror(w: World, c: Control, st: State, t: Trace, m: Round, t': Trace)
    requires m == Mirror(w, st, c, t) && NothingWritten(m.t, t')
    ensures if ReadFlag(st.flag) != Some(c.id)
            then |t| + 1 <= |t'| && t'[|t|] == Wrote(c.id, w.answers(|t|).ok) && NothingWritten(t'[..|t| + 1], t')
            else NothingWritten(t, t')
  {
    if ReadFlag(st.flag) != Some(c.id) {
      assert m.t == t + [Wrote(c.id, w.answers(|t|).ok)];
      assert t'[..|t| + 1] == m.t;
    }
  }
}
