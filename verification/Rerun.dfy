/** Which runs a resume makes again: those whose newest record comes from an agent that failed
    without leaving a stream. */
module Rerun {
  import opened Text
  import opened Journal
  import opened Grading
  import opened Campaign
  import opened RawStreams
  import opened Handover
  import opened Resume

  /** The environment was there, the agent answered with an error, and it left no stream. */
  predicate LeftNothing(a: Attempt)
  {
    a.environment.None? && (a.error.Some? || a.transcript.agentError != "") && a.transcript.rawPath == ""
  }

  /** What the journal keeps of a run of this slot that met this. */
  function Kept(j: Judge, name: string, slot: Slot, a: Attempt): Record
  {
    Stored(RunOne(j, name, slot.task, slot.arm, slot.rep, a))
  }

  /** This is the newest record of the slot in this ledger. */
  ghost predicate LastKept(j: Judge, name: string, slot: Slot, a: Attempt, led: seq<Record>)
  {
    exists i :: 0 <= i < |led| && led[i] == Kept(j, name, slot, a) && Newest(led, i)
  }

  predicate NoneKept(slot: Slot, led: seq<Record>)
  {
    forall i :: 0 <= i < |led| ==> KeyOf(led[i]) != SlotKey(slot)
  }

  /** How many records of this run there are. */
  function CountOf(rs: seq<Record>, k: Key): nat
    decreases |rs|
  {
    if rs == [] then 0 else CountOf(rs[..|rs| - 1], k) + if KeyOf(rs[|rs| - 1]) == k then 1 else 0
  }

  lemma CountMore(rs: seq<Record>, r: Record, k: Key)
    ensures CountOf(rs + [r], k) == CountOf(rs, k) + if KeyOf(r) == k then 1 else 0
  {
    assert (rs + [r])[..|rs|] == rs;
  }

  lemma NewestMore(rs: seq<Record>, r: Record, k: Key)
    ensures NewestOf(rs + [r], k) == if KeyOf(r) == k then Some(r) else NewestOf(rs, k)
  {
    assert (rs + [r])[..|rs|] == rs;
  }

  /** Another slot's turn says nothing of this run. */
  lemma OtherSlot(run: Runner, c: Coding, w: Encounters, slot: Slot, s: Segment, k: Key)
    requires Keyed(run) && SlotKey(slot) != k
    ensures var e := RunSlot(run, c, w, slot, s); CountOf(e.made, k) == CountOf(s.made, k) && NewestOf(e.led, k) == NewestOf(s.led, k)
  {
    var r := run(slot, w(slot, |s.made|).attempt);
    CountMore(s.made, r, k);
    NewestMore(s.led, r, k);
  }

  lemma {:induction false} OtherSlots(run: Runner, c: Coding, w: Encounters, slots: seq<Slot>, s: Segment, k: Key)
    requires Keyed(run) && forall i :: 0 <= i < |slots| ==> SlotKey(slots[i]) != k
    ensures var e := RunSlots(run, c, w, slots, s); CountOf(e.made, k) == CountOf(s.made, k) && NewestOf(e.led, k) == NewestOf(s.led, k)
    decreases |slots|
  {
    if slots != [] {
      var before := slots[..|slots| - 1];
      OtherSlots(run, c, w, before, s, k);
      OtherSlot(run, c, w, slots[|slots| - 1], RunSlots(run, c, w, before, s), k);
    }
  }

  /** Its own turn, while the segment goes on. */
  lemma OwnSlot(run: Runner, c: Coding, w: Encounters, slot: Slot, s: Segment)
    requires Keyed(run) && !s.stopped
    ensures CountOf(RunSlot(run, c, w, slot, s).made, SlotKey(slot))
            == CountOf(s.made, SlotKey(slot)) + if IsDone(s.led, SlotKey(slot)) then 0 else 1
  {
    CountMore(s.made, run(slot, w(slot, |s.made|).attempt), SlotKey(slot));
  }

  lemma OwnTurn(run: Runner, c: Coding, w: Encounters, before: seq<Slot>, slot: Slot, s: Segment)
    requires Keyed(run) && (forall i :: 0 <= i < |before| ==> SlotKey(before[i]) != SlotKey(slot))
    requires !RunSlots(run, c, w, before, s).stopped
    ensures CountOf(RunSlot(run, c, w, slot, RunSlots(run, c, w, before, s)).made, SlotKey(slot))
            == CountOf(s.made, SlotKey(slot)) + if IsDone(s.led, SlotKey(slot)) then 0 else 1
  {
    OtherSlots(run, c, w, before, s, SlotKey(slot));
    OwnSlot(run, c, w, slot, RunSlots(run, c, w, before, s));
  }

  lemma {:induction false} MadeUpTo(run: Runner, c: Coding, w: Encounters, plan: seq<Slot>, i: nat, n: nat, s: Segment)
    requires Keyed(run) && DistinctSlots(plan) && i < n <= |plan| && !RunSlots(run, c, w, plan[..i], s).stopped
    ensures CountOf(RunSlots(run, c, w, plan[..n], s).made, SlotKey(plan[i]))
            == CountOf(s.made, SlotKey(plan[i])) + if IsDone(s.led, SlotKey(plan[i])) then 0 else 1
    decreases n
  {
    var m := n - 1;
    assert plan[..n] == plan[..m] + [plan[m]];
    OneMore(run, c, w, plan[..m], plan[m], s);
    if m == i {
      OwnTurn(run, c, w, plan[..i], plan[i], s);
    } else {
      MadeUpTo(run, c, w, plan, i, m, s);
      OtherSlot(run, c, w, plan[m], RunSlots(run, c, w, plan[..m], s), SlotKey(plan[i]));
    }
  }

  lemma KeptKey(j: Judge, name: string, slot: Slot, a: Attempt)
    ensures KeyOf(Kept(j, name, slot, a)) == SlotKey(slot)
  {
  }

  lemma KeptIsDone(j: Judge, name: string, slot: Slot, a: Attempt, led: seq<Record>)
    requires LastKept(j, name, slot, a, led)
    ensures IsDone(led, SlotKey(slot)) <==> !LeftNothing(a)
  {
    var r := Kept(j, name, slot, a);
    KeptKey(j, name, slot, a);
    var i :| 0 <= i < |led| && led[i] == r && Newest(led, i);
    NewestIs(led, i);
    KeptLeft(j, name, slot, a);
  }

  lemma KeptLeft(j: Judge, name: string, slot: Slot, a: Attempt)
    ensures Unattempted(Kept(j, name, slot, a)) <==> LeftNothing(a)
  {
  }

  /** A segment that opens the journal and comes to a slot makes that run again, once, if and only if
      there is no record of it or the newest comes from an agent that failed and left nothing. A run
      whose environment was missing stays as it is, and so does one that left its stream. */
  lemma RerunExactly(j: Judge, name: string, c: Coding, plan: seq<Slot>, file: string, x: Stretch, i: nat, last: Option<Attempt>)
    requires DistinctSlots(plan) && Load(c, file).Some? && i < |plan| && i < x.cut
    requires !SegmentOf(RunnerOf(j, name), c, plan, file, Stretch(x.w, i)).stopped
    requires var led := Load(c, file).value;
             if last.Some? then LastKept(j, name, plan[i], last.value, led) else NoneKept(plan[i], led)
    ensures CountOf(SegmentOf(RunnerOf(j, name), c, plan, file, x).made, SlotKey(plan[i]))
            == if last.None? || LeftNothing(last.value) then 1 else 0
  {
    var led, k := Load(c, file).value, SlotKey(plan[i]);
    RunnerKeyed(j, name);
    if last.Some? {
      KeptIsDone(j, name, plan[i], last.value, led);
    } else {
      NewestIsThere(led, k);
    }
    MadeUpTo(RunnerOf(j, name), c, x.w, plan, i, |FirstSlots(plan, x.cut)|, Fresh(file, led));
    assert plan[..|plan|] == plan;
  }

  /** In the benchmark's terms: the runs made again are those whose command ran and failed with no
      stream to show, because there was nowhere to write it or it could not be written. */
  lemma LeftNothingExactly(agent: Agent, k: Key, e: Event)
    ensures LeftNothing(AttemptOf(agent, k, e)) <==>
              && e.Ran?
              && if agent.path(k) != "" then e.writing.Broken?
                 else var p := agent.parse(e.output);
                      p.error.Some? || (e.exit.Some? && !p.transcript.maxTurns) || p.transcript.agentError != ""
  {
  }
}
