/** How often the pause syncer settles a line of the ack log: once per generation of the file,
    except where the file could not be cleared. */
module PauseLogs {
  import opened Text
  import opened AckLog
  import opened PauseModel
  import opened PauseRuns

  // ---- Passes over a generation of the log ----

  /** A generation of the log lasts until the file is cleared. A clear that fails only sends the
      offset back to the start: it ends a pass over the same generation. Here: the passes of the
      current generation before the one going on, by the ends of the lines they settled. */
  function Earlier(t: Trace): seq<seq<nat>>
    decreases |t|
  {
    if t == [] then []
    else
      var before, e := t[..|t| - 1], t[|t| - 1];
      if !e.Cleared? then Earlier(before) else if e.ok then [] else Earlier(before) + [Settled(before)]
  }

  /** The passes of each generation that is over. */
  function Closed(t: Trace): seq<seq<seq<nat>>>
    decreases |t|
  {
    if t == [] then []
    else
      var before, e := t[..|t| - 1], t[|t| - 1];
      if e.Cleared? && e.ok then Closed(before) + [Earlier(before) + [Settled(before)]] else Closed(before)
  }

  /** The passes of every generation so far. */
  function Generations(t: Trace): seq<seq<seq<nat>>> { Closed(t) + [Earlier(t) + [Settled(t)]] }

  /** All lines settled in a generation. */
  function Joined(passes: seq<seq<nat>>): seq<nat>
    decreases |passes|
  {
    if passes == [] then [] else Joined(passes[..|passes| - 1]) + passes[|passes| - 1]
  }

  predicate EachOnce(s: seq<nat>) { forall i, k :: 0 <= i < k < |s| ==> s[i] != s[k] }

  /** At most one pass settled anything: no clear that failed stands between two settled lines. */
  predicate OnePass(passes: seq<seq<nat>>)
  {
    forall i, k :: 0 <= i < k < |passes| ==> passes[i] == [] || passes[k] == []
  }

  predicate Increasing(s: seq<nat>) { forall i, k :: 0 <= i < k < |s| ==> s[i] < s[k] }

  /** Every pass settled a front part of the same lines. */
  ghost predicate OverOne(passes: seq<seq<nat>>, lines: seq<nat>)
  {
    Increasing(lines) && forall i :: 0 <= i < |passes| ==> passes[i] <= lines
  }

  ghost predicate OverSome(passes: seq<seq<nat>>) { exists lines :: OverOne(passes, lines) }

  lemma {:induction false} JoinedHas(passes: seq<seq<nat>>, i: nat, x: nat) returns (at: nat)
    requires i < |passes| && x in passes[i]
    ensures at < |Joined(passes)| && Joined(passes)[at] == x
    decreases |passes|
  {
    var last := |passes| - 1;
    if i == last {
      var k :| 0 <= k < |passes[i]| && passes[i][k] == x;
      at := |Joined(passes[..last])| + k;
    } else {
      at := JoinedHas(passes[..last], i, x);
    }
  }

  lemma {:induction false} JoinedFront(passes: seq<seq<nat>>, n: nat)
    requires n <= |passes|
    ensures Joined(passes[..n]) <= Joined(passes)
    decreases |passes|
  {
    if n < |passes| {
      JoinedFront(passes[..|passes| - 1], n);
      assert passes[..|passes| - 1][..n] == passes[..n];
    } else {
      assert passes[..n] == passes;
    }
  }

  /** What two passes settled stands twice in the whole. */
  lemma JoinedTwice(passes: seq<seq<nat>>, i: nat, k: nat, x: nat)
    requires i < k < |passes| && x in passes[i] && x in passes[k]
    ensures !EachOnce(Joined(passes))
  {
    var front := passes[..k + 1];
    var at := JoinedHas(passes[..k], i, x);
    var j :| 0 <= j < |passes[k]| && passes[k][j] == x;
    JoinedFront(passes, k + 1);
    assert front[..k] == passes[..k] && front[k] == passes[k];
    assert Joined(front) == Joined(passes[..k]) + passes[k];
    assert Joined(passes)[at] == Joined(front)[at] == x;
    assert Joined(passes)[|Joined(passes[..k])| + j] == Joined(front)[|Joined(passes[..k])| + j] == x;
  }

  /** Where one pass settled anything, it is the whole. */
  lemma {:induction false} JoinedOne(passes: seq<seq<nat>>)
    requires OnePass(passes)
    ensures Joined(passes) == [] || Joined(passes) in passes
    ensures (forall i :: 0 <= i < |passes| ==> passes[i] == []) ==> Joined(passes) == []
    decreases |passes|
  {
    if passes != [] {
      var front, p := passes[..|passes| - 1], passes[|passes| - 1];
      JoinedOne(front);
      if p == [] {
        assert Joined(passes) == Joined(front);
      } else {
        assert forall i :: 0 <= i < |front| ==> front[i] == passes[i] == [];
        assert Joined(passes) == p;
      }
    }
  }

  /** Passes over the same lines settle none twice exactly when at most one settled any: each
      starts with the first line. */
  lemma OnceExactly(passes: seq<seq<nat>>, lines: seq<nat>)
    requires OverOne(passes, lines)
    ensures EachOnce(Joined(passes)) <==> OnePass(passes)
  {
    if OnePass(passes) {
      JoinedOne(passes);
      if Joined(passes) != [] {
        var i :| 0 <= i < |passes| && passes[i] == Joined(passes);
        assert Increasing(passes[i]);
      }
    } else {
      var i, k :| 0 <= i < k < |passes| && passes[i] != [] && passes[k] != [];
      assert passes[i][0] == lines[0] == passes[k][0];
      JoinedTwice(passes, i, k, lines[0]);
    }
  }

  // ---- Over any run ----

  /** The lines with a control in the log. */
  function LinesOf(w: World, st: State): seq<nat> { Ends(ReadFrom(w.parse, LogText(st), 0).acks) }

  ghost predicate Sorted(w: World, st: State, t: Trace)
  {
    && (forall i :: 0 <= i < |Earlier(t)| ==> Earlier(t)[i] <= LinesOf(w, st))
    && (forall i :: 0 <= i < |Closed(t)| ==> OverSome(Closed(t)[i]))
  }

  predicate NoClear(t: Trace, t': Trace)
  {
    t <= t' && forall k :: |t| <= k < |t'| ==> !t'[k].Cleared?
  }

  lemma {:induction false} NoClearSame(t: Trace, t': Trace)
    requires NoClear(t, t')
    ensures Earlier(t') == Earlier(t) && Closed(t') == Closed(t)
    decreases |t'|
  {
    if |t'| == |t| {
      assert t' == t;
    } else {
      NoClearSame(t, t'[..|t'| - 1]);
    }
  }

  lemma LinesIncrease(w: World, st: State)
    ensures Increasing(LinesOf(w, st))
  {
    EndsGrow(w.parse, LogText(st), 0);
    EndsRise(LogText(st), ReadFrom(w.parse, LogText(st), 0).acks, 0, ReadFrom(w.parse, LogText(st), 0).next);
  }

  /** Hooks append: the lines before stay. */
  lemma LinesGrow(w: World, st: State, more: string)
    ensures LinesOf(w, st) <= LinesOf(w, st.(acks := Grow(st.acks, more)))
  {
    var a, b := LogText(st), LogText(st.(acks := Grow(st.acks, more)));
    assert b == a + more;
    ReadOn(w.parse, a, b, 0);
    EndsJoin(ReadFrom(w.parse, a, 0).acks, ReadFrom(w.parse, b, ReadFrom(w.parse, a, 0).next).acks);
  }

  /** The pass going on settles a front part too. */
  lemma PassIsFront(w: World, st: State, t: Trace)
    requires Kept(w, st, t)
    ensures Settled(t) <= LinesOf(w, st)
  {
    FrontReads(w.parse, LogText(st), 0, st.offset);
    EndsJoin(Front(w.parse, LogText(st), st.offset), ReadFrom(w.parse, LogText(st), st.offset).acks);
  }

  lemma {:induction false} ReportNoClear(w: World, acks: seq<Ack>, k: nat, offset: nat, t: Trace)
    requires k <= |acks|
    ensures NoClear(t, ReportFrom(w, acks, k, offset, t).t)
    decreases |acks| - k
  {
    if k < |acks| {
      var a := acks[k];
      ReportNoClear(w, acks, k + 1, a.end, t);
      ReportNoClear(w, acks, k + 1, a.end, t + [Reported(a.end, a.control, Ask(w, t).outcome)]);
    }
  }

  lemma ReportSorts(w: World, st: State, t: Trace)
    requires Sorted(w, st, t)
    ensures var r := ReportAcks(w, st, t); Sorted(w, r.st, r.t)
  {
    var more := Ask(w, t).grown;
    var file := Grow(st.acks, more);
    var acks := ReadLog(w.parse, file, st.offset).acks;
    ReportNoClear(w, acks, 0, st.offset, t + [Read(|acks|)]);
    var r := ReportAcks(w, st, t);
    NoClearSame(t, r.t);
    LinesGrow(w, st, more);
    assert LogText(r.st) == LogText(st.(acks := file));
  }

  lemma ClearSorts(w: World, st: State, st': State, t: Trace, ok: bool)
    requires Kept(w, st, t) && Sorted(w, st, t) && st'.acks == if ok then None else st.acks
    ensures Sorted(w, st', t + [Cleared(ok)])
  {
    var t' := t + [Cleared(ok)];
    assert t'[..|t|] == t;
    PassIsFront(w, st, t);
    LinesIncrease(w, st);
    assert OverOne(Earlier(t) + [Settled(t)], LinesOf(w, st));
    assert !ok ==> LogText(st') == LogText(st);
  }

  lemma AnnounceSorts(w: World, st: State, resumed: Option<Control>, t: Trace)
    requires Sorted(w, st, t)
    ensures var r := Announce(w, st, resumed, t); Sorted(w, r.st, r.t)
  {
    var r := Announce(w, st, resumed, t);
    NoClearSame(t, r.t);
    assert LogText(r.st) == LogText(st);
  }

  lemma LiftSorts(w: World, st: State, resumed: Option<Control>, t: Trace)
    requires Kept(w, st, t) && Sorted(w, st, t)
    ensures var r := Lift(w, st, resumed, t); Sorted(w, r.st, r.t)
  {
    var gone := Ask(w, t).ok;
    var t1 := t + [Removed(gone)];
    var cleared := Ask(w, t1).ok;
    var st1 := st.(flag := if gone then Nothing else st.flag, acks := if cleared then None else st.acks, offset := 0);
    NoClearSame(t, t1);
    QuietKeeps(w, st, t, Removed(gone));
    ClearSorts(w, st, st1, t1, cleared);
    AnnounceSorts(w, st1, resumed, t1 + [Cleared(cleared)]);
  }

  lemma SyncSorts(w: World, st: State, t: Trace)
    requires Kept(w, st, t) && Sorted(w, st, t)
    ensures var r := Sync(w, st, t); Sorted(w, r.st, r.t)
  {
    var a := Ask(w, t);
    var t1 := t + [Asked(a.ok, a.active, a.resumed)];
    NoClearSame(t, t1);
    QuietKeeps(w, st, t, Asked(a.ok, a.active, a.resumed));
    assert Sorted(w, st, t1);
    if a.ok {
      if a.active.Some? {
        var m := Mirror(w, st, a.active.value, t1);
        NoClearSame(t1, m.t);
        assert LogText(m.st) == LogText(st);
        ReportSorts(w, m.st, m.t);
      } else {
        ReportSorts(w, st, t1);
        ReportKeeps(w, st, t1);
        var r := ReportAcks(w, st, t1);
        LiftSorts(w, r.st, a.resumed, r.t);
      }
    }
  }

  lemma RunSorts(w: World, st: State, n: nat)
    requires Starts(st)
    ensures var r := Syncs(w, st, n); Kept(w, r.st, r.t) && Sorted(w, r.st, r.t)
  {
    ghost var inv := (s: State, t: Trace) => Kept(w, s, t) && Sorted(w, s, t);
    StartKept(w, st);
    forall s, t | inv(s, t) ensures inv(SyncOf(w)(s, t).st, SyncOf(w)(s, t).t) {
      SyncKeeps(w, s, t);
      SyncSorts(w, s, t);
    }
    RoundsKeep(SyncOf(w), inv, st, n);
    assert inv(Rounds(SyncOf(w), st, n).st, Rounds(SyncOf(w), st, n).t);
  }

  /** Over any number of rounds, with any failures and appends in between, and for every generation
      of the log: no line was recorded or rejected twice if and only if no clear that failed stands
      between two lines that were. */
  lemma OncePerGeneration(w: World, st: State, n: nat, i: nat)
    requires Starts(st) && i < |Generations(Syncs(w, st, n).t)|
    ensures var g := Generations(Syncs(w, st, n).t)[i]; EachOnce(Joined(g)) <==> OnePass(g)
  {
    RunSorts(w, st, n);
    var r := Syncs(w, st, n);
    var g := Generations(r.t)[i];
    if i < |Closed(r.t)| {
      var lines :| OverOne(g, lines);
      OnceExactly(g, lines);
    } else {
      PassIsFront(w, r.st, r.t);
      LinesIncrease(w, r.st);
      OnceExactly(g, LinesOf(w, r.st));
    }
  }

  // ---- Lines that are recorded ----

  predicate IsSettled(e: Event) { e.Reported? && !e.outcome.Broken? }

  /** Two lines settled since the last end of a pass stand among the settled ones, in this order. */
  lemma {:induction false} SettledHas(t: Trace, i: nat, j: nat) returns (a: nat, b: nat)
    requires i <= j < |t| && IsSettled(t[i]) && IsSettled(t[j]) && forall m :: i < m < |t| ==> !t[m].Cleared?
    ensures a <= b < |Settled(t)| && (i < j ==> a < b) && Settled(t)[a] == t[i].end && Settled(t)[b] == t[j].end
    decreases |t|
  {
    var last := |t| - 1;
    if j < last {
      a, b := SettledHas(t[..last], i, j);
    } else {
      b := |Settled(t[..last])|;
      a := b;
      if i < j {
        var c;
        a, c := SettledHas(t[..last], i, i);
      }
    }
  }

  /** The pass that a clear ends is one of its generation's. */
  lemma {:induction false} PassListed(t: Trace, m: nat)
    requires m < |t| && t[m].Cleared?
    ensures Settled(t[..m]) in Earlier(t) || exists g :: 0 <= g < |Closed(t)| && Settled(t[..m]) in Closed(t)[g]
    decreases |t|
  {
    var last := |t| - 1;
    var pass := Settled(t[..m]);
    if m < last {
      PassListed(t[..last], m);
      assert t[..last][..m] == t[..m];
    }
    if t[last].Cleared? && t[last].ok {
      var passes := Earlier(t[..last]) + [Settled(t[..last])];
      assert passes[|Earlier(t[..last])|] == Settled(t[..last]);
      assert Closed(t)[|Closed(t[..last])|] == passes;
    }
    if m < last && pass !in Earlier(t[..last]) {
      var g :| 0 <= g < |Closed(t[..last])| && pass in Closed(t[..last])[g];
      assert Closed(t)[g] == Closed(t[..last])[g];
    }
  }

  /** The lines of a pass increase, up to its end or the end of the run. */
  lemma PassIncreases(w: World, st: State, n: nat, m: nat)
    requires Starts(st)
    requires var t := Syncs(w, st, n).t; m <= |t| && (m < |t| ==> t[m].Cleared?)
    ensures Increasing(Settled(Syncs(w, st, n).t[..m]))
  {
    RunSorts(w, st, n);
    var r := Syncs(w, st, n);
    LinesIncrease(w, r.st);
    if m == |r.t| {
      assert r.t[..m] == r.t;
      PassIsFront(w, r.st, r.t);
    } else {
      PassListed(r.t, m);
      if Settled(r.t[..m]) !in Earlier(r.t) {
        var g :| 0 <= g < |Closed(r.t)| && Settled(r.t[..m]) in Closed(r.t)[g];
        var lines :| OverOne(Closed(r.t)[g], lines);
      }
    }
  }

  /** The end of the pass in which step j lies. */
  function PassEnd(t: Trace, j: nat): (m: nat)
    requires j <= |t|
    ensures j <= m <= |t| && (m < |t| ==> t[m].Cleared?) && forall k :: j <= k < m ==> !t[k].Cleared?
    decreases |t| - j
  {
    if j == |t| || t[j].Cleared? then j else PassEnd(t, j + 1)
  }

  /** Without a clear in between, two settled lines are different ones. */
  lemma OnePassOnce(w: World, st: State, n: nat, i: nat, j: nat)
    requires Starts(st)
    requires var t := Syncs(w, st, n).t;
             i < j < |t| && IsSettled(t[i]) && IsSettled(t[j]) && forall m :: i < m < j ==> !t[m].Cleared?
    ensures var t := Syncs(w, st, n).t; t[i].end < t[j].end
  {
    var t := Syncs(w, st, n).t;
    var m := PassEnd(t, j);
    PassIncreases(w, st, n, m);
    var a, b := SettledHas(t[..m], i, j);
  }

  /** This step records the line that ends here. */
  predicate Records(e: Event, line: nat) { e.Reported? && e.end == line && e.outcome.Recorded? }

  /** The log is not cleared from step i to step j: they belong to one generation of it. */
  predicate OneLog(t: Trace, i: nat, j: nat) { forall k :: i <= k < j && k < |t| ==> t[k] != Cleared(true) }

  ghost predicate TwiceRecorded(t: Trace, line: nat, i: nat, j: nat)
  {
    i < j < |t| && Records(t[i], line) && Records(t[j], line) && OneLog(t, i, j)
  }

  ghost predicate RecordedAcross(t: Trace, line: nat, i: nat, m: nat, j: nat)
  {
    i < m < j < |t| && t[m] == Cleared(false) && Records(t[i], line) && Records(t[j], line) && OneLog(t, i, j)
  }

  /** When a line is recorded twice, exactly, over any run: if and only if it is recorded on both sides
      of a clear that failed. No retry, append or failed report in between does it. */
  lemma TwiceExactly(w: World, st: State, n: nat, line: nat)
    requires Starts(st)
    ensures var t := Syncs(w, st, n).t;
            (exists i, j :: TwiceRecorded(t, line, i, j)) <==> (exists i, m, j :: RecordedAcross(t, line, i, m, j))
  {
    var t := Syncs(w, st, n).t;
    if exists i, m, j :: RecordedAcross(t, line, i, m, j) {
      var i, m, j :| RecordedAcross(t, line, i, m, j);
      assert TwiceRecorded(t, line, i, j);
    }
    if exists i, j :: TwiceRecorded(t, line, i, j) {
      var i, j :| TwiceRecorded(t, line, i, j);
      var m := ClearBetween(w, st, n, i, j);
      assert RecordedAcross(t, line, i, m, j);
    }
  }

  lemma ClearBetween(w: World, st: State, n: nat, i: nat, j: nat) returns (m: nat)
    requires Starts(st)
    requires var t := Syncs(w, st, n).t;
             i < j < |t| && IsSettled(t[i]) && IsSettled(t[j]) && t[i].end == t[j].end && OneLog(t, i, j)
    ensures var t := Syncs(w, st, n).t; i < m < j && t[m] == Cleared(false)
  {
    var t := Syncs(w, st, n).t;
    if forall k :: i < k < j ==> !t[k].Cleared? {
      OnePassOnce(w, st, n, i, j);
      assert false;
    } else {
      m :| i < m < j && t[m].Cleared?;
    }
  }

  // ---- A line that is recorded twice ----

  /** A control, then none, and a log file that cannot be removed. */
  function Stuck(): World
  {
    World((i: nat) => Answer(i != 7, if i == 0 then Some(Control(2, "")) else None, None,
                             if i == 2 then "x\n" else "", Recorded, false),
          (line: string) => if line == "x\n" then Some((1, "x")) else None, false)
  }

  lemma StuckReads(w: World, file: string)
    requires w == Stuck() && file == "x\n"
    ensures ReadFrom(w.parse, file, 0) == Reading([Ack(1, "x", 2)], 2) && ReadFrom(w.parse, file, 2) == Reading([], 2)
  {
    assert LineEnd(file, 1) == 2 && LineEnd(file, 0) == 2;
    assert file[0..2] == "x\n";
  }

  lemma StuckReport(w: World, t: Trace)
    requires w == Stuck() && |t| != 7
    ensures ReportFrom(w, [Ack(1, "x", 2)], 0, 0, t) == Report(false, 2, t + [Reported(2, 1, Recorded)])
    ensures ReportFrom(w, [], 0, 2, t) == Report(false, 2, t)
  {
    var acks := [Ack(1, "x", 2)];
    assert ReportFrom(w, acks, 1, 2, t + [Reported(2, 1, Recorded)]) == Report(false, 2, t + [Reported(2, 1, Recorded)]);
  }

  const START := State(Nothing, None, 0, {}, {})
  const AFTER_ONE := State(Regular(2), Some("x\n"), 2, {2}, {})
  const AFTER_TWO := State(Nothing, Some("x\n"), 0, {2}, {})
  const LINE := Reported(2, 1, Recorded)
  const ONE := [Asked(true, Some(Control(2, "")), None), Wrote(2, true), Read(1), LINE]
  const TWO := [Asked(true, None, None), Read(0), Removed(true), Cleared(false)]
  const THREE := [Asked(true, None, None), Read(1), LINE, Removed(true), Cleared(true)]

  lemma RoundOne()
    ensures Sync(Stuck(), START, []) == Round(false, AFTER_ONE, ONE)
  {
    var w := Stuck();
    var t := [Asked(true, Some(Control(2, "")), None), Wrote(2, true)];
    assert [] + [Asked(true, Some(Control(2, "")), None)] + [Wrote(2, true)] == t;
    var m := Mirror(w, START, Control(2, ""), [Asked(true, Some(Control(2, "")), None)]);
    assert m == Round(false, START.(seen := {2}, flag := Regular(2)), t);
    StuckReads(w, "x\n");
    StuckReport(w, t + [Read(1)]);
    assert t + [Read(1)] + [LINE] == ONE;
  }

  lemma RoundTwo()
    ensures Sync(Stuck(), AFTER_ONE, ONE) == Round(false, AFTER_TWO, ONE + TWO)
  {
    var w := Stuck();
    var t := ONE + [Asked(true, None, None)];
    StuckReads(w, "x\n");
    StuckReport(w, t + [Read(0)]);
    assert "x\n" + "" == "x\n";
    assert ReportAcks(w, AFTER_ONE, t) == Round(false, AFTER_ONE, t + [Read(0)]);
    assert t + [Read(0)] + [Removed(true)] + [Cleared(false)] == ONE + TWO;
  }

  lemma RoundThree()
    ensures Sync(Stuck(), AFTER_TWO, ONE + TWO).t == ONE + TWO + THREE
  {
    var w := Stuck();
    var t := ONE + TWO + [Asked(true, None, None)];
    StuckReads(w, "x\n");
    StuckReport(w, t + [Read(1)]);
    assert "x\n" + "" == "x\n";
    assert ReportAcks(w, AFTER_TWO, t).t == t + [Read(1)] + [LINE];
    assert t + [Read(1)] + [LINE] + [Removed(true)] + [Cleared(true)] == ONE + TWO + THREE;
  }

  lemma ThreeRounds() returns (n: nat)
    ensures Syncs(Stuck(), START, n).t == ONE + TWO + THREE
  {
    n := 3;
    RoundOne();
    RoundTwo();
    RoundThree();
    assert Syncs(Stuck(), START, 1) == Round(false, AFTER_ONE, ONE);
    assert Syncs(Stuck(), START, 2) == Round(false, AFTER_TWO, ONE + TWO);
  }

  /** A line recorded twice, and the log not cleared in between. */
  ghost predicate TwiceIn(t: Trace, i: nat, k: nat)
  {
    i < k < |t| && t[i] == LINE && t[k] == LINE && forall j :: i < j < k ==> t[j] != Cleared(true)
  }

  lemma Between(a: Trace, b: Trace, c: Trace)
    requires |a| == 4 && |b| == 4 && |c| == 5 && a[3] == LINE && c[2] == LINE
    requires (forall j :: 0 <= j < 4 ==> b[j] != Cleared(true)) && c[0] != Cleared(true) && c[1] != Cleared(true)
    ensures TwiceIn(a + b + c, 3, 10)
  {
    var t := a + b + c;
    assert t[3] == a[3] && t[10] == c[2] && t[8] == c[0] && t[9] == c[1];
    assert forall j :: 4 <= j < 8 ==> t[j] == b[j - 4];
  }

  /** Three rounds of one process over one file: the same line is recorded in the first and in the
      last, and the file was never cleared in between. */
  lemma RecordedTwice()
    ensures exists w: World, st: State, n: nat, i: nat, k: nat :: Starts(st) && TwiceIn(Syncs(w, st, n).t, i, k)
  {
    var n := ThreeRounds();
    Between(ONE, TWO, THREE);
    assert Starts(START) && TwiceIn(Syncs(Stuck(), START, n).t, 3, 10);
  }
}
