/** What every run of the pause syncer keeps: the ack log is reported line by line, the flag
    follows the server, a resume is announced once. */
module PauseRuns {
  import opened Text
  import opened AckLog
  import opened PauseModel

  // ---- The acks ----

  /** The ends of the lines that were recorded or permanently rejected in this pass over the log, in
      order. A pass ends when a control is over and the log is to be cleared: the offset goes back
      to the start, whether the file went or not. */
  function Settled(t: Trace): seq<nat>
    decreases |t|
  {
    if t == [] then []
    else
      var before, e := Settled(t[..|t| - 1]), t[|t| - 1];
      if e.Cleared? then []
      else if e.Reported? && !e.outcome.Broken? then before + [e.end]
      else before
  }

  lemma SettledOne(t: Trace, e: Event)
    ensures Settled(t + [e]) == if e.Cleared? then []
                                else if e.Reported? && !e.outcome.Broken? then Settled(t) + [e.end] else Settled(t)
  {
    assert (t + [e])[..|t|] == t;
  }

  /** The ends of the lines that name a control. */
  function Ends(acks: seq<Ack>): seq<nat>
    decreases |acks|
  {
    if acks == [] then []
    else
      var a := acks[|acks| - 1];
      if a.control > 0 then Ends(acks[..|acks| - 1]) + [a.end] else Ends(acks[..|acks| - 1])
  }

  lemma {:induction false} EndsJoin(a: seq<Ack>, b: seq<Ack>)
    ensures Ends(a + b) == Ends(a) + Ends(b)
    decreases |b|
  {
    if b == [] {
      assert a + b == a;
    } else {
      EndsJoin(a, b[..|b| - 1]);
      assert (a + b)[..|a + b| - 1] == a + b[..|b| - 1];
    }
  }

  function LogText(st: State): string { match st.acks case None => "" case Some(text) => text }

  /** The acks on the lines before an offset. */
  function Front(parse: LineParser, file: string, offset: nat): seq<Ack>
    requires offset <= |file|
  {
    ReadFrom(parse, file[..offset], 0).acks
  }

  /** The offset is a line boundary, and exactly the lines with a control before it are settled,
      each once and in order. */
  ghost predicate Kept(w: World, st: State, t: Trace)
  {
    && (st.acks.None? ==> st.offset == 0)
    && Boundary(LogText(st), st.offset)
    && Settled(t) == Ends(Front(w.parse, LogText(st), st.offset))
  }

  /** Two splits of one rising sequence at the same point are the same. */
  lemma {:induction false} SplitOnce(a: seq<Ack>, b: seq<Ack>, c: seq<Ack>, d: seq<Ack>, at: nat)
    requires a + b == c + d
    requires forall k :: 0 <= k < |a| ==> a[k].end <= at
    requires forall k :: 0 <= k < |c| ==> c[k].end <= at
    requires forall k :: 0 <= k < |b| ==> b[k].end > at
    requires forall k :: 0 <= k < |d| ==> d[k].end > at
    ensures a == c && b == d
  {
    CutOnce(a + b, at, |a|, |c|);
    assert (a + b)[..|a|] == a && (c + d)[..|c|] == c;
    assert (a + b)[|a|..] == b && (c + d)[|c|..] == d;
  }

  /** Exactly the first n acks end at or before `at`. */
  ghost predicate CutAt(s: seq<Ack>, at: nat, n: nat)
  {
    n <= |s| && forall k :: 0 <= k < |s| ==> (s[k].end <= at <==> k < n)
  }

  lemma CutOnce(s: seq<Ack>, at: nat, n: nat, m: nat)
    requires CutAt(s, at, n) && CutAt(s, at, m)
    ensures n == m
  {
    assert n < |s| ==> (s[n].end <= at <==> n < m);
    assert m < |s| ==> (s[m].end <= at <==> m < n);
  }

  /** The split of a rising sequence behind its k-th new ack. */
  lemma SplitBehind(front: seq<Ack>, acks: seq<Ack>, k: nat, before: seq<Ack>, rest: seq<Ack>, offset: nat)
    requires k < |acks| && front + acks == before + rest
    requires forall i :: 0 <= i < |front| ==> front[i].end <= offset
    requires forall i :: 0 <= i < |acks| ==> offset < acks[i].end
    requires forall i, j :: 0 <= i < j < |acks| ==> acks[i].end < acks[j].end
    requires forall i :: 0 <= i < |before| ==> before[i].end <= acks[k].end
    requires forall i :: 0 <= i < |rest| ==> acks[k].end < rest[i].end
    ensures before == front + acks[..k + 1]
  {
    assert front + acks == (front + acks[..k + 1]) + acks[k + 1..];
    SplitOnce(before, rest, front + acks[..k + 1], acks[k + 1..], acks[k].end);
  }

  /** What lies before the k-th found ack: what lay before the offset, and the acks before it. */
  lemma FrontAt(parse: LineParser, file: string, offset: nat, k: nat)
    requires Boundary(file, offset)
    requires k < |ReadFrom(parse, file, offset).acks|
    ensures var acks := ReadFrom(parse, file, offset).acks;
            Boundary(file, acks[k].end) && Front(parse, file, acks[k].end) == Front(parse, file, offset) + acks[..k + 1]
  {
    var acks := ReadFrom(parse, file, offset).acks;
    var e := acks[k].end;
    EndsGrow(parse, file, offset);
    FrontReads(parse, file, 0, offset);
    FrontReads(parse, file, 0, e);
    EndsGrow(parse, file[..e], 0);
    EndsGrow(parse, file, e);
    EndsGrow(parse, file[..offset], 0);
    SplitBehind(Front(parse, file, offset), acks, k, Front(parse, file, e), ReadFrom(parse, file, e).acks, offset);
  }

  lemma FrontAtEnd(parse: LineParser, file: string, offset: nat)
    requires Boundary(file, offset)
    ensures var r := ReadFrom(parse, file, offset);
            Boundary(file, r.next) && Front(parse, file, r.next) == Front(parse, file, offset) + r.acks
  {
    var r := ReadFrom(parse, file, offset);
    StopsAtBoundary(parse, file, offset);
    ReadOn(parse, file, file, offset);
    assert |r.acks| == |r.acks| + |ReadFrom(parse, file, r.next).acks|;
    FrontReads(parse, file, 0, offset);
    FrontReads(parse, file, 0, r.next);
    assert Front(parse, file, r.next) + [] == Front(parse, file, r.next);
  }

  /** The ends of the lines with a control from the k-th ack up to the n-th. */
  function EndsFrom(acks: seq<Ack>, k: nat, n: nat): seq<nat>
    requires k <= n <= |acks|
    decreases n - k
  {
    if k == n then []
    else if acks[k].control > 0 then [acks[k].end] + EndsFrom(acks, k + 1, n)
    else EndsFrom(acks, k + 1, n)
  }

  lemma {:induction false} EndsFromFront(acks: seq<Ack>, k: nat, n: nat)
    requires k <= n <= |acks|
    ensures Ends(acks[..n]) == Ends(acks[..k]) + EndsFrom(acks, k, n)
    decreases n - k
  {
    if k < n {
      EndsFromFront(acks, k + 1, n);
      assert acks[..k + 1][..k] == acks[..k];
    }
  }

  /** The loop settles a front part of the acks; it stops early only behind a failure, with the
      offset behind the last settled line. */
  lemma {:induction false} ReportSettles(w: World, acks: seq<Ack>, k: nat, offset: nat, t: Trace) returns (n: nat)
    requires k <= |acks|
    ensures var p := ReportFrom(w, acks, k, offset, t);
            && k <= n <= |acks|
            && Settled(p.t) == Settled(t) + EndsFrom(acks, k, n)
            && p.offset == (if n == k then offset else acks[n - 1].end)
            && (!p.failed ==> n == |acks|)
    decreases |acks| - k
  {
    n := k;
    if k < |acks| {
      var a := acks[k];
      var outcome := Ask(w, t).outcome;
      var t1 := t + [Reported(a.end, a.control, outcome)];
      SettledOne(t, Reported(a.end, a.control, outcome));
      if a.control <= 0 {
        n := ReportSettles(w, acks, k + 1, a.end, t);
      } else if !outcome.Broken? {
        n := ReportSettles(w, acks, k + 1, a.end, t1);
        Regrouped(Settled(t), [a.end], EndsFrom(acks, k + 1, n));
      }
    }
  }

  lemma Regrouped(a: seq<nat>, b: seq<nat>, c: seq<nat>)
    ensures a + b + c == a + (b + c)
  {
  }

  /** Hooks append; what was settled stays settled. */
  lemma GrowKeeps(w: World, st: State, t: Trace, more: string)
    requires Kept(w, st, t)
    ensures Kept(w, st.(acks := Grow(st.acks, more)), t)
  {
    var text := LogText(st);
    assert (text + more)[..st.offset] == text[..st.offset];
    assert LogText(st.(acks := Grow(st.acks, more))) == text + more;
  }

  lemma ReportKeeps(w: World, st: State, t: Trace)
    requires Kept(w, st, t)
    ensures var r := ReportAcks(w, st, t); Kept(w, r.st, r.t)
  {
    var file := Grow(st.acks, Ask(w, t).grown);
    GrowKeeps(w, st, t, Ask(w, t).grown);
    var r := ReadLog(w.parse, file, st.offset);
    var t1 := t + [Read(|r.acks|)];
    SettledOne(t, Read(|r.acks|));
    var n := ReportSettles(w, r.acks, 0, st.offset, t1);
    LogKeeps(w, st.(acks := file), t, r, n, ReportFrom(w, r.acks, 0, st.offset, t1));
  }

  /** The books after a read and its report. */
  lemma LogKeeps(w: World, st: State, t: Trace, r: Reading, n: nat, p: Report)
    requires Kept(w, st, t) && r == ReadLog(w.parse, st.acks, st.offset) && n <= |r.acks|
    requires Settled(p.t) == Settled(t) + EndsFrom(r.acks, 0, n)
    requires p.offset == (if n == 0 then st.offset else r.acks[n - 1].end) && (!p.failed ==> n == |r.acks|)
    ensures Kept(w, st.(offset := if p.failed then p.offset else r.next), p.t)
  {
    if st.acks.Some? {
      SettledFront(w.parse, st.acks.value, st.offset, n);
    }
  }

  /** Which offset goes with n settled acks of a read. */
  lemma SettledFront(parse: LineParser, file: string, offset: nat, n: nat)
    requires Boundary(file, offset) && n <= |ReadFrom(parse, file, offset).acks|
    ensures var r := ReadFrom(parse, file, offset);
            var at := if n == 0 then offset else r.acks[n - 1].end;
            && Boundary(file, at)
            && Ends(Front(parse, file, at)) == Ends(Front(parse, file, offset)) + EndsFrom(r.acks, 0, n)
    ensures var r := ReadFrom(parse, file, offset);
            && Boundary(file, r.next)
            && Ends(Front(parse, file, r.next)) == Ends(Front(parse, file, offset)) + EndsFrom(r.acks, 0, |r.acks|)
  {
    var r := ReadFrom(parse, file, offset);
    var front := Front(parse, file, offset);
    FrontAtEnd(parse, file, offset);
    FrontEnds(front, r.acks, |r.acks|);
    assert r.acks[..|r.acks|] == r.acks;
    if n > 0 {
      FrontAt(parse, file, offset, n - 1);
      FrontEnds(front, r.acks, n);
    }
  }

  lemma FrontEnds(front: seq<Ack>, acks: seq<Ack>, n: nat)
    requires n <= |acks|
    ensures Ends(front + acks[..n]) == Ends(front) + EndsFrom(acks, 0, n)
  {
    EndsJoin(front, acks[..n]);
    EndsFromFront(acks, 0, n);
    assert acks[..0] == [];
  }

  lemma {:induction false} QuietKeeps(w: World, st: State, t: Trace, e: Event)
    requires Kept(w, st, t) && !e.Cleared? && !e.Reported?
    ensures Kept(w, st, t + [e])
  {
    SettledOne(t, e);
  }

  /** Only log, offset and trace matter. */
  lemma SameLog(w: World, st: State, st': State, t: Trace)
    requires Kept(w, st, t) && st'.acks == st.acks && st'.offset == st.offset
    ensures Kept(w, st', t)
  {
    assert LogText(st') == LogText(st);
  }

  lemma MirrorKeeps(w: World, st: State, c: Control, t: Trace)
    requires Kept(w, st, t)
    ensures var r := Mirror(w, st, c, t); Kept(w, r.st, r.t)
  {
    var r := Mirror(w, st, c, t);
    QuietKeeps(w, st, t, Wrote(c.id, Ask(w, t).ok));
    SameLog(w, st, r.st, r.t);
  }

  lemma LiftKeeps(w: World, st: State, resumed: Option<Control>, t: Trace)
    requires Kept(w, st, t)
    ensures var r := Lift(w, st, resumed, t); Kept(w, r.st, r.t)
  {
    var gone := Ask(w, t).ok;
    var t1 := t + [Removed(gone)];
    var cleared := Ask(w, t1).ok;
    var t2 := t1 + [Cleared(cleared)];
    var st1 := st.(flag := if gone then Nothing else st.flag, acks := if cleared then None else st.acks, offset := 0);
    SettledOne(t1, Cleared(cleared));
    assert LogText(st1)[..0] == "";
    assert Kept(w, st1, t2);
    if resumed.Some? {
      var t3 := t2 + [ReadyAsked(Ask(w, t2).ready)];
      QuietKeeps(w, st1, t2, ReadyAsked(Ask(w, t2).ready));
      QuietKeeps(w, st1, t3, Told(resumed.value.id, Ask(w, t3).ok));
    }
  }

  lemma SyncKeeps(w: World, st: State, t: Trace)
    requires Kept(w, st, t)
    ensures var r := Sync(w, st, t); Kept(w, r.st, r.t)
  {
    var a := Ask(w, t);
    var t1 := t + [Asked(a.ok, a.active, a.resumed)];
    QuietKeeps(w, st, t, Asked(a.ok, a.active, a.resumed));
    if a.ok {
      if a.active.Some? {
        MirrorKeeps(w, st, a.active.value, t1);
        var m := Mirror(w, st, a.active.value, t1);
        ReportKeeps(w, m.st, m.t);
      } else {
        ReportKeeps(w, st, t1);
        var r := ReportAcks(w, st, t1);
        LiftKeeps(w, r.st, a.resumed, r.t);
      }
    }
  }

  /** A process starts with its offset at 0 and nothing reported. */
  predicate Starts(st: State) { st.offset == 0 && st.seen == {} && st.announced == {} }

  lemma StartKept(w: World, st: State)
    requires Starts(st)
    ensures Kept(w, st, [])
  {
    assert LogText(st)[..0] == "";
  }

  /** What every round keeps holds after any number of them. */
  lemma {:induction false} RoundsKeep(sync: Syncing, inv: (State, Trace) -> bool, st: State, n: nat)
    requires inv(st, [])
    requires forall s, t {:trigger inv(s, t)} :: inv(s, t) ==> inv(sync(s, t).st, sync(s, t).t)
    ensures var r := Rounds(sync, st, n); inv(r.st, r.t)
    decreases n
  {
    if n > 0 {
      RoundsKeep(sync, inv, st, n - 1);
    }
  }

  lemma RunKeeps(w: World, st: State, n: nat)
    requires Starts(st)
    ensures var r := Syncs(w, st, n); Kept(w, r.st, r.t)
  {
    ghost var inv := (s: State, t: Trace) => Kept(w, s, t);
    StartKept(w, st);
    forall s, t | inv(s, t) ensures inv(SyncOf(w)(s, t).st, SyncOf(w)(s, t).t) {
      SyncKeeps(w, s, t);
    }
    RoundsKeep(SyncOf(w), inv, st, n);
    assert inv(Rounds(SyncOf(w), st, n).st, Rounds(SyncOf(w), st, n).t);
  }

  /** The ack log over any number of rounds, with any failures and appends in between: the offset
      is a line boundary, and the lines that name a control before it are, in order and each
      exactly once, the ones that were recorded or rejected in this pass over the log. How passes
      over the same file add up is the subject of PauseLogs. */
  lemma AckLogSettled(w: World, st: State, n: nat)
    requires Starts(st)
    ensures var r := Syncs(w, st, n);
            && Boundary(LogText(r.st), r.st.offset)
            && Settled(r.t) == Ends(Front(w.parse, LogText(r.st), r.st.offset))
            && forall j, k :: 0 <= j < k < |Settled(r.t)| ==> Settled(r.t)[j] < Settled(r.t)[k]
  {
    RunKeeps(w, st, n);
    var r := Syncs(w, st, n);
    var front := LogText(r.st)[..r.st.offset];
    EndsGrow(w.parse, front, 0);
    EndsRise(front, ReadFrom(w.parse, front, 0).acks, 0, |front|);
  }

  lemma {:induction false} EndsRise(file: string, acks: seq<Ack>, low: nat, high: nat)
    requires Rising(file, acks, low, high)
    ensures forall j, k :: 0 <= j < k < |Ends(acks)| ==> Ends(acks)[j] < Ends(acks)[k]
    ensures forall k :: 0 <= k < |Ends(acks)| ==> Ends(acks)[k] <= if acks == [] then 0 else acks[|acks| - 1].end
    decreases |acks|
  {
    if acks != [] {
      EndsRise(file, acks[..|acks| - 1], low, high);
    }
  }

  // ---- The flag ----

  /** After a round that ended well, the gate denies exactly while the server has an active
      control; a round that could not ask changes nothing. */
  lemma GateFollowsServer(w: World, st: State, t: Trace, agent: string)
    requires agent != ""
    ensures var a, r := Ask(w, t), Sync(w, st, t);
            && (!a.ok ==> r.failed && r.st == st)
            && (a.ok && a.active.Some? && !r.failed ==>
                  Gates(agent, r.st.flag) && ReadFlag(r.st.flag) == Some(a.active.value.id))
            && (a.ok && a.active.None? && LiftWorked(w, st, t) ==>
                  !Gates(agent, r.st.flag) && r.st.acks.None? && r.st.offset == 0)
  {
    if Ask(w, t).ok && Ask(w, t).active.None? && LiftWorked(w, st, t) {
      LiftEnds(w, st, t);
    }
  }

  /** The disk let both files go in this round. */
  predicate LiftWorked(w: World, st: State, t: Trace)
  {
    var a := Ask(w, t);
    var r := ReportAcks(w, st, t + [Asked(a.ok, a.active, a.resumed)]);
    Ask(w, r.t).ok && Ask(w, r.t + [Removed(true)]).ok
  }

  lemma LiftEnds(w: World, st: State, t: Trace)
    requires LiftWorked(w, st, t) && Ask(w, t).ok && Ask(w, t).active.None?
    ensures var r := Sync(w, st, t); r.st.flag == Nothing && r.st.acks == None && r.st.offset == 0
  {
  }

  // ---- The resume notice ----

  /** Controls that were seen active so far. */
  function Watched(t: Trace): set<nat>
    decreases |t|
  {
    if t == [] then {}
    else
      var before, e := Watched(t[..|t| - 1]), t[|t| - 1];
      if e.Asked? && e.ok && e.active.Some? then before + {e.active.value.id} else before
  }

  /** Controls whose notice went out so far. */
  function Announced(t: Trace): set<nat>
    decreases |t|
  {
    if t == [] then {}
    else
      var before, e := Announced(t[..|t| - 1]), t[|t| - 1];
      if e.Told? && e.ok then before + {e.id} else before
  }

  /** Every notice was for a control seen active and not yet announced. */
  predicate ToldRightly(t: Trace)
    decreases |t|
  {
    t == [] ||
    (var before, e := t[..|t| - 1], t[|t| - 1];
     ToldRightly(before) && (e.Told? ==> e.id in Watched(before) && e.id !in Announced(before)))
  }

  ghost predicate Recalls(st: State, t: Trace)
  {
    st.seen == Watched(t) && st.announced == Announced(t) && ToldRightly(t)
  }

  predicate Mute(e: Event) { !e.Asked? && !e.Told? }

  lemma {:induction false} MuteKeeps(st: State, t: Trace, t': Trace)
    requires Recalls(st, t) && t <= t' && (forall k :: |t| <= k < |t'| ==> Mute(t'[k]))
    ensures Recalls(st, t')
    decreases |t'|
  {
    if |t'| == |t| {
      assert t' == t;
    } else {
      MuteKeeps(st, t, t'[..|t'| - 1]);
    }
  }

  lemma {:induction false} ReportMute(w: World, acks: seq<Ack>, k: nat, offset: nat, t: Trace)
    requires k <= |acks|
    ensures var p := ReportFrom(w, acks, k, offset, t);
            t <= p.t && forall i :: |t| <= i < |p.t| ==> Mute(p.t[i])
    decreases |acks| - k
  {
    if k < |acks| {
      var a := acks[k];
      ReportMute(w, acks, k + 1, a.end, t);
      ReportMute(w, acks, k + 1, a.end, t + [Reported(a.end, a.control, Ask(w, t).outcome)]);
    }
  }

  lemma ReportRecalls(w: World, st: State, t: Trace)
    requires Recalls(st, t)
    ensures var r := ReportAcks(w, st, t); Recalls(r.st, r.t)
  {
    var file := Grow(st.acks, Ask(w, t).grown);
    var r := ReadLog(w.parse, file, st.offset);
    ReportMute(w, r.acks, 0, st.offset, t + [Read(|r.acks|)]);
    MuteKeeps(st, t, ReportAcks(w, st, t).t);
  }

  lemma AnnounceRecalls(w: World, st: State, resumed: Option<Control>, t: Trace)
    requires Recalls(st, t)
    ensures var r := Announce(w, st, resumed, t); Recalls(r.st, r.t)
  {
    var t1 := t + [ReadyAsked(Ask(w, t).ready)];
    MuteKeeps(st, t, t1);
    if resumed.Some? {
      assert (t1 + [Told(resumed.value.id, Ask(w, t1).ok)])[..|t1|] == t1;
    }
  }

  lemma SyncRecalls(w: World, st: State, t: Trace)
    requires Recalls(st, t)
    ensures var r := Sync(w, st, t); Recalls(r.st, r.t)
  {
    var a := Ask(w, t);
    var t1 := t + [Asked(a.ok, a.active, a.resumed)];
    assert t1[..|t|] == t;
    if a.ok && a.active.Some? {
      var c := a.active.value;
      var m := Mirror(w, st, c, t1);
      var st1 := st.(seen := st.seen + {c.id});
      assert Recalls(st1, t1);
      MuteKeeps(st1, t1, m.t);
      ReportRecalls(w, m.st, m.t);
    } else if a.ok {
      assert Recalls(st, t1);
      ReportRecalls(w, st, t1);
      var r := ReportAcks(w, st, t1);
      LiftRecalls(w, r.st, a.resumed, r.t);
    }
  }

  lemma LiftRecalls(w: World, st: State, resumed: Option<Control>, t: Trace)
    requires Recalls(st, t)
    ensures var r := Lift(w, st, resumed, t); Recalls(r.st, r.t)
  {
    var gone := Ask(w, t).ok;
    var t1 := t + [Removed(gone)];
    var cleared := Ask(w, t1).ok;
    var st1 := st.(flag := if gone then Nothing else st.flag, acks := if cleared then None else st.acks, offset := 0);
    MuteKeeps(st, t, t1 + [Cleared(cleared)]);
    AnnounceRecalls(w, st1, resumed, t1 + [Cleared(cleared)]);
  }

  lemma RunRecalls(w: World, st: State, n: nat)
    requires Starts(st)
    ensures var r := Syncs(w, st, n); Recalls(r.st, r.t)
  {
    ghost var inv := (s: State, t: Trace) => Recalls(s, t);
    forall s, t | inv(s, t) ensures inv(SyncOf(w)(s, t).st, SyncOf(w)(s, t).t) {
      SyncRecalls(w, s, t);
    }
    RoundsKeep(SyncOf(w), inv, st, n);
    assert inv(Rounds(SyncOf(w), st, n).st, Rounds(SyncOf(w), st, n).t);
  }

  lemma {:induction false} ToldAt(t: Trace, j: nat)
    requires ToldRightly(t) && j < |t| && t[j].Told?
    ensures t[j].id in Watched(t[..j]) && t[j].id !in Announced(t[..j])
    decreases |t|
  {
    if j < |t| - 1 {
      ToldAt(t[..|t| - 1], j);
      assert t[..|t| - 1][..j] == t[..j];
    }
  }

  lemma {:induction false} AnnouncedHas(t: Trace, i: nat)
    requires i < |t| && t[i].Told? && t[i].ok
    ensures t[i].id in Announced(t)
    decreases |t|
  {
    if i < |t| - 1 {
      AnnouncedHas(t[..|t| - 1], i);
    }
  }

  lemma {:induction false} WatchedFrom(t: Trace, id: nat) returns (k: nat)
    requires id in Watched(t)
    ensures k < |t| && t[k].Asked? && t[k].ok && t[k].active.Some? && t[k].active.value.id == id
    decreases |t|
  {
    var last := |t| - 1;
    if id in Watched(t[..last]) {
      k := WatchedFrom(t[..last], id);
    } else {
      k := last;
    }
  }

  /** Every notice attempt, the first one too, is for a control this process saw active before. */
  lemma NoticeSeen(w: World, st: State, n: nat, j: nat) returns (k: nat)
    requires Starts(st)
    requires var t := Syncs(w, st, n).t; j < |t| && t[j].Told?
    ensures var t := Syncs(w, st, n).t;
            k < j && t[k].Asked? && t[k].ok && t[k].active.Some? && t[k].active.value.id == t[j].id
  {
    RunRecalls(w, st, n);
    var t := Syncs(w, st, n).t;
    ToldAt(t, j);
    k := WatchedFrom(t[..j], t[j].id);
  }

  /** A resume notice is sent successfully at most once per control: behind a success there is not
      even another attempt, and each attempt is for a control this process saw active. */
  lemma NoticeOnce(w: World, st: State, n: nat, i: nat, j: nat) returns (k: nat)
    requires Starts(st)
    requires var t := Syncs(w, st, n).t; i < j < |t| && t[i].Told? && t[i].ok && t[j].Told?
    ensures var t := Syncs(w, st, n).t;
            && t[i].id != t[j].id
            && k < j && t[k].Asked? && t[k].ok && t[k].active.Some? && t[k].active.value.id == t[j].id
  {
    RunRecalls(w, st, n);
    var t := Syncs(w, st, n).t;
    ToldAt(t, j);
    AnnouncedHas(t[..j], i);
    k := NoticeSeen(w, st, n, j);
  }
}
