/** Running a campaign's plan, cut anywhere and resumed from its journal. */
module Campaign {
  import opened Text
  import opened Journal
  import opened Grading

  // ---- The order of the arms within a block ----

  function Swap(s: seq<string>, i: nat, k: nat): seq<string>
    requires i < |s| && k < |s|
  {
    s[i := s[k]][k := s[i]]
  }

  /** Where a shuffle puts index i: anywhere up to i. */
  ghost predicate Picks(pick: nat -> nat)
  {
    forall i :: pick(i) <= i
  }

  /** rand.Shuffle from index i downwards. */
  function Shuffled(s: seq<string>, pick: nat -> nat, i: nat): seq<string>
    requires i < |s| || i == 0
    decreases i
  {
    if i == 0 || pick(i) > i then s else Shuffled(Swap(s, i, pick(i)), pick, i - 1)
  }

  /** A shuffle is a permutation. */
  lemma {:induction false} ShuffleKeeps(s: seq<string>, pick: nat -> nat, i: nat)
    requires i < |s| || i == 0
    ensures |Shuffled(s, pick, i)| == |s| && multiset(Shuffled(s, pick, i)) == multiset(s)
    decreases i
  {
    if i > 0 && pick(i) <= i {
      ShuffleKeeps(Swap(s, i, pick(i)), pick, i - 1);
    }
  }

  predicate Distinct(s: seq<string>)
  {
    forall i, k :: 0 <= i < k < |s| ==> s[i] != s[k]
  }

  lemma {:induction false} DistinctCounts(s: seq<string>)
    ensures Distinct(s) <==> forall x :: multiset(s)[x] <= 1
    decreases |s|
  {
    if s != [] {
      var last := |s| - 1;
      DistinctCounts(s[..last]);
      assert s == s[..last] + [s[last]];
      if Distinct(s) {
        assert s[last] !in s[..last];
      }
      if forall x :: multiset(s)[x] <= 1 {
        assert multiset(s)[s[last]] == multiset(s[..last])[s[last]] + 1;
        assert forall x :: multiset(s[..last])[x] <= multiset(s)[x];
        assert forall i :: 0 <= i < last ==> s[..last][i] in multiset(s[..last]);
        assert forall i, k :: 0 <= i < k < last ==> s[..last][i] != s[..last][k];
      }
    }
  }

  lemma ShuffleDistinct(s: seq<string>, pick: nat -> nat, i: nat)
    requires i < |s| || i == 0
    ensures Distinct(Shuffled(s, pick, i)) <==> Distinct(s)
  {
    ShuffleKeeps(s, pick, i);
    DistinctCounts(s);
    DistinctCounts(Shuffled(s, pick, i));
  }

  lemma {:induction false} SamePicks(s: seq<string>, pick: nat -> nat, other: nat -> nat, i: nat)
    requires (i < |s| || i == 0) && forall n: nat :: n <= i ==> pick(n) == other(n)
    ensures Shuffled(s, pick, i) == Shuffled(s, other, i)
    decreases i
  {
    if i > 0 && pick(i) <= i {
      SamePicks(Swap(s, i, pick(i)), pick, other, i - 1);
    }
  }

  lemma FrontCounts(s: seq<string>, i: nat)
    requires i < |s|
    ensures multiset(s[..i + 1]) == multiset(s[..i]) + multiset{s[i]}
  {
    assert s[..i + 1] == s[..i] + [s[i]];
  }

  lemma SwapKeepsFront(s: seq<string>, i: nat, j: nat)
    requires j <= i < |s|
    ensures |Swap(s, i, j)| == |s| && Swap(s, i, j)[i] == s[j] && Swap(s, i, j)[i + 1..] == s[i + 1..]
    ensures multiset(Swap(s, i, j)[..i + 1]) == multiset(s[..i + 1])
  {
    assert Swap(s, i, j)[..i + 1] == Swap(s[..i + 1], i, j);
  }

  /** These agree behind i, and up to there they hold the same. */
  predicate SameUpTo(s: seq<string>, t: seq<string>, i: nat)
    requires i < |s| == |t|
  {
    multiset(s[..i + 1]) == multiset(t[..i + 1]) && s[i + 1..] == t[i + 1..]
  }

  /** The place of what belongs at i, and what is left when it is there. */
  lemma PutRight(s: seq<string>, t: seq<string>, i: nat) returns (j: nat)
    requires 0 < i < |s| == |t| && SameUpTo(s, t, i)
    ensures j <= i && SameUpTo(Swap(s, i, j), t, i - 1)
  {
    FrontCounts(t, i);
    assert t[i] in multiset(s[..i + 1]);
    j :| 0 <= j < i + 1 && s[..i + 1][j] == t[i];
    assert s[j] == t[i];
    SwapKeepsFront(s, i, j);
    OneLess(Swap(s, i, j), t, i);
  }

  lemma OneLess(s: seq<string>, t: seq<string>, i: nat)
    requires 0 < i < |s| == |t| && SameUpTo(s, t, i) && s[i] == t[i]
    ensures SameUpTo(s, t, i - 1)
  {
    FrontCounts(s, i);
    FrontCounts(t, i);
    assert multiset(s[..i]) == multiset(s[..i + 1]) - multiset{s[i]};
    assert multiset(t[..i]) == multiset(t[..i + 1]) - multiset{t[i]};
    assert s[i..] == [s[i]] + s[i + 1..] && t[i..] == [t[i]] + t[i + 1..];
  }

  lemma NothingToSwap(s: seq<string>, t: seq<string>)
    requires 0 < |s| == |t| && SameUpTo(s, t, 0)
    ensures s == t
  {
    assert s[..1] == [s[0]] && t[..1] == [t[0]];
    assert s[0] in multiset(t[..1]);
    assert s == [s[0]] + s[1..] && t == [t[0]] + t[1..];
  }

  lemma {:induction false} PicksFor(s: seq<string>, t: seq<string>, i: nat) returns (pick: nat -> nat)
    requires i < |s| == |t| && SameUpTo(s, t, i)
    ensures Picks(pick) && Shuffled(s, pick, i) == t
    decreases i
  {
    if i == 0 {
      pick := (n: nat) => 0;
      NothingToSwap(s, t);
    } else {
      var j := PutRight(s, t, i);
      var rest := PicksFor(Swap(s, i, j), t, i - 1);
      pick := (n: nat) => if n == i then j else rest(n);
      SamePicks(Swap(s, i, j), pick, rest, i - 1);
    }
  }

  function OrderOf(arms: seq<string>, pick: nat -> nat): seq<string>
  {
    if arms == [] then [] else Shuffled(arms, pick, |arms| - 1)
  }

  /** Every order is possible: some random source shuffles the arms into it, and no source into
      anything else. */
  lemma AnyOrder(arms: seq<string>, order: seq<string>)
    ensures (exists pick: nat -> nat :: Picks(pick) && OrderOf(arms, pick) == order) <==> multiset(order) == multiset(arms)
  {
    if pick: nat -> nat :| Picks(pick) && OrderOf(arms, pick) == order {
      if arms != [] {
        ShuffleKeeps(arms, pick, |arms| - 1);
      }
    }
    if multiset(order) == multiset(arms) {
      assert |multiset(order)| == |multiset(arms)|;
      if arms == [] {
        var pick := (n: nat) => 0;
        assert Picks(pick) && OrderOf(arms, pick) == order;
      } else {
        var last := |arms| - 1;
        assert arms[..last + 1] == arms && order[..last + 1] == order;
        var pick := PicksFor(arms, order, last);
      }
    }
  }

  /** blockOrder: a copy of the arms, shuffled in place. */
  method BlockOrder(arms: seq<string>, pick: nat -> nat) returns (order: array<string>)
    requires Picks(pick)
    ensures fresh(order) && order[..] == OrderOf(arms, pick)
  {
    order := new string[|arms|](i requires 0 <= i < |arms| => arms[i]);
    assert order[..] == arms;
    var i := |arms| - 1;
    while i > 0
      invariant -1 <= i < |arms| && (i == -1 ==> arms == [])
      invariant i >= 0 ==> Shuffled(order[..], pick, i) == OrderOf(arms, pick)
      invariant arms == [] ==> order[..] == []
    {
      ghost var was := order[..];
      order[i], order[pick(i)] := order[pick(i)], order[i];
      assert order[..] == Swap(was, i, pick(i));
      i := i - 1;
    }
  }

  // ---- The plan ----

  /** A campaign; `pick` is the random source of a block, a function of seed, task and
      repetition. */
  datatype Config = Config(name: string, arms: seq<string>, repetitions: nat, tasks: seq<Task>, pick: (nat, nat) -> nat -> nat)

  datatype Slot = Slot(task: Task, arm: string, rep: nat)

  function SlotKey(s: Slot): Key { Key(s.task.id, s.arm, s.rep) }

  function Slots(task: Task, rep: nat, order: seq<string>): (s: seq<Slot>)
    ensures |s| == |order| && forall k :: 0 <= k < |order| ==> s[k] == Slot(task, order[k], rep)
  {
    seq(|order|, k requires 0 <= k < |order| => Slot(task, order[k], rep))
  }

  function BlockOf(c: Config, ti: nat, rep: nat): seq<Slot>
    requires ti < |c.tasks|
  {
    Slots(c.tasks[ti], rep, OrderOf(c.arms, c.pick(ti, rep)))
  }

  /** The slots of the first n tasks in a repetition. */
  function TaskPlan(c: Config, rep: nat, n: nat): seq<Slot>
    requires n <= |c.tasks|
    decreases n
  {
    if n == 0 then [] else TaskPlan(c, rep, n - 1) + BlockOf(c, n - 1, rep)
  }

  /** The slots of repetitions 1 to n. */
  function RepPlan(c: Config, n: nat): seq<Slot>
    decreases n
  {
    if n == 0 then [] else RepPlan(c, n - 1) + TaskPlan(c, n, |c.tasks|)
  }

  function Plan(c: Config): seq<Slot> { RepPlan(c, c.repetitions) }

  // ---- The order of the plan ----

  lemma BlockSize(c: Config, ti: nat, rep: nat)
    requires ti < |c.tasks|
    ensures |BlockOf(c, ti, rep)| == |c.arms|
  {
    if c.arms != [] {
      ShuffleKeeps(c.arms, c.pick(ti, rep), |c.arms| - 1);
      assert |multiset(OrderOf(c.arms, c.pick(ti, rep)))| == |multiset(c.arms)|;
    }
  }

  function Times(n: nat, k: nat): nat { if n == 0 then 0 else Times(n - 1, k) + k }

  lemma {:induction false} TimesIs(n: nat, k: nat)
    ensures Times(n, k) == n * k
  {
    if n > 0 {
      TimesIs(n - 1, k);
      assert (n - 1) * k + k == n * k;
    }
  }

  lemma {:induction false} TaskPlanSize(c: Config, rep: nat, n: nat)
    requires n <= |c.tasks|
    ensures |TaskPlan(c, rep, n)| == Times(n, |c.arms|)
    decreases n
  {
    if n > 0 {
      TaskPlanSize(c, rep, n - 1);
      BlockSize(c, n - 1, rep);
    }
  }

  lemma {:induction false} RepPlanSize(c: Config, n: nat)
    ensures |RepPlan(c, n)| == Times(n, Times(|c.tasks|, |c.arms|))
    decreases n
  {
    if n > 0 {
      RepPlanSize(c, n - 1);
      TaskPlanSize(c, n, |c.tasks|);
    }
  }

  lemma AtFront(a: seq<Slot>, b: seq<Slot>, whole: seq<Slot>, i: nat)
    requires a + b <= whole && i < |b|
    ensures |a| + i < |whole| && whole[|a| + i] == b[i]
  {
    assert (a + b)[|a| + i] == b[i];
  }

  lemma TaskPlanAt(c: Config, rep: nat, ti: nat, k: nat)
    requires ti < |c.tasks| && k < |c.arms|
    ensures |BlockOf(c, ti, rep)| == |c.arms| && Times(ti, |c.arms|) + k < |TaskPlan(c, rep, |c.tasks|)|
    ensures TaskPlan(c, rep, |c.tasks|)[Times(ti, |c.arms|) + k] == BlockOf(c, ti, rep)[k]
  {
    var here := ti + 1;
    TaskPlanSize(c, rep, ti);
    BlockSize(c, ti, rep);
    TaskPlanGrows(c, rep, here, |c.tasks|);
    AtFront(TaskPlan(c, rep, ti), BlockOf(c, ti, rep), TaskPlan(c, rep, |c.tasks|), k);
  }

  /** The slot at this place of the plan. */
  predicate PlannedAt(c: Config, at: nat, slot: Slot) { at < |Plan(c)| && Plan(c)[at] == slot }

  lemma RepSplits(c: Config, rep: nat, before: seq<Slot>, here: seq<Slot>)
    requires 1 <= rep <= c.repetitions && before == RepPlan(c, rep - 1) && here == TaskPlan(c, rep, |c.tasks|)
    ensures before + here <= Plan(c)
  {
    RepPlanGrows(c, rep, c.repetitions);
  }

  lemma RepAt(c: Config, rep: nat, here: seq<Slot>, size: nat, i: nat)
    requires 1 <= rep <= c.repetitions && here == TaskPlan(c, rep, |c.tasks|) && size == Times(|c.tasks|, |c.arms|) && i < |here|
    ensures PlannedAt(c, Times(rep - 1, size) + i, here[i])
  {
    var before := RepPlan(c, rep - 1);
    RepPlanSize(c, rep - 1);
    RepSplits(c, rep, before, here);
    AtFront(before, here, Plan(c), i);
  }

  /** The order of the plan: every repetition goes through the tasks, and every task through the arms
      in the order shuffled for it. */
  lemma PlanAt(c: Config, rep: nat, ti: nat, k: nat)
    requires 1 <= rep <= c.repetitions && ti < |c.tasks| && k < |c.arms|
    ensures |OrderOf(c.arms, c.pick(ti, rep))| == |c.arms|
    ensures PlannedAt(c, Times(rep - 1, Times(|c.tasks|, |c.arms|)) + (Times(ti, |c.arms|) + k),
                      Slot(c.tasks[ti], OrderOf(c.arms, c.pick(ti, rep))[k], rep))
  {
    TaskPlanAt(c, rep, ti, k);
    RepAt(c, rep, TaskPlan(c, rep, |c.tasks|), Times(|c.tasks|, |c.arms|), Times(ti, |c.arms|) + k);
  }

  // ---- Running it ----

  /** What one run meets: the agent's attempt, how its line reached the disk, and whether the
      arm was clean afterwards. */
  datatype Meeting = Meeting(attempt: Attempt, written: nat, synced: bool, clean: bool)

  /** The world of one segment: what the run for this slot meets, as the n-th of the segment. */
  type Encounters = (Slot, nat) -> Meeting

  const FAILURE_LIMIT := 3

  datatype Guard = Guard(succeeded: bool, failures: nat, message: string)

  const NEW_GUARD := Guard(false, 0, "")

  function Observed(g: Guard, r: Record): Guard
  {
    if r.failure.NoFailure? then g.(succeeded := true)
    else if g.succeeded then g
    else g.(failures := g.failures + 1, message := r.message)
  }

  predicate Trips(g: Guard, r: Record)
  {
    !r.failure.NoFailure? && !g.succeeded && Observed(g, r).failures >= FAILURE_LIMIT
  }

  /** A segment so far: the journal's file, the ledger, the records it made, the guard, whether it
      gave up, and the record that could not be written. */
  datatype Segment = Segment(file: string, led: seq<Record>, made: seq<Record>, guard: Guard, stopped: bool, lost: Option<Record>)

  /** A segment that starts with this journal. */
  function Fresh(file: string, led: seq<Record>): Segment { Segment(file, led, [], NEW_GUARD, false, None) }

  predicate Reached(c: Coding, r: Record, m: Meeting)
  {
    c.encode(r).Some? && m.written > |c.encode(r).value| && m.synced
  }

  /** runOne as a value: from a slot and its attempt to the record. */
  type Runner = (Slot, Attempt) -> Record

  function RunnerOf(j: Judge, name: string): Runner
  {
    (slot: Slot, a: Attempt) => RunOne(j, name, slot.task, slot.arm, slot.rep, a)
  }

  function RunSlot(run: Runner, c: Coding, w: Encounters, slot: Slot, s: Segment): Segment
  {
    if s.stopped || IsDone(s.led, SlotKey(slot)) then s
    else
      var m := w(slot, |s.made|);
      var r := run(slot, m.attempt);
      var file := s.file + Landed(c, r, m.written);
      if !Reached(c, r, m) then s.(file := file, made := s.made + [r], stopped := true, lost := Some(r))
      else Segment(file, s.led + [r], s.made + [r], Observed(s.guard, r), Trips(s.guard, r) || !m.clean, None)
  }

  function RunSlots(run: Runner, c: Coding, w: Encounters, slots: seq<Slot>, s: Segment): Segment
    decreases |slots|
  {
    if slots == [] then s
    else RunSlot(run, c, w, slots[|slots| - 1], RunSlots(run, c, w, slots[..|slots| - 1], s))
  }

  lemma OneMore(run: Runner, c: Coding, w: Encounters, slots: seq<Slot>, x: Slot, s: Segment)
    ensures RunSlots(run, c, w, slots + [x], s) == RunSlot(run, c, w, x, RunSlots(run, c, w, slots, s))
  {
    assert (slots + [x])[..|slots|] == slots;
  }

  lemma {:induction false} StoppedStays(run: Runner, c: Coding, w: Encounters, a: seq<Slot>, b: seq<Slot>, s: Segment)
    requires a <= b && RunSlots(run, c, w, a, s).stopped
    ensures RunSlots(run, c, w, b, s) == RunSlots(run, c, w, a, s)
    decreases |b|
  {
    if |b| > |a| {
      StoppedStays(run, c, w, a, b[..|b| - 1], s);
    } else {
      assert a == b;
    }
  }

  predicate AllFailed(rs: seq<Record>)
  {
    forall k :: 0 <= k < |rs| ==> !rs[k].failure.NoFailure?
  }

  /** The first three records of a segment are all failures. */
  predicate ThreeFailed(rs: seq<Record>) { |rs| >= FAILURE_LIMIT && AllFailed(rs[..FAILURE_LIMIT]) }

  ghost predicate Clean(w: Encounters)
  {
    forall slot, n {:trigger w(slot, n)} :: w(slot, n).clean
  }

  /** What the guard knows while a segment goes on. */
  ghost predicate GuardRight(s: Segment)
  {
    && (s.guard.succeeded <==> !AllFailed(s.made)) && s.lost.None?
    && (!s.guard.succeeded ==> s.guard.failures == |s.made| < FAILURE_LIMIT)
  }

  lemma SlotGuarded(run: Runner, c: Coding, w: Encounters, slot: Slot, s: Segment)
    requires !s.stopped && GuardRight(s) && !ThreeFailed(s.made)
    ensures var e := RunSlot(run, c, w, slot, s);
            && (!e.stopped ==> GuardRight(e))
            && (ThreeFailed(e.made) ==> |e.made| == FAILURE_LIMIT && e.stopped)
            && (!IsDone(s.led, SlotKey(slot)) ==>
                  (e.stopped <==> e.lost.Some? || ThreeFailed(e.made) || !w(slot, |s.made|).clean))
            && (Clean(w) ==> (e.stopped <==> e.lost.Some? || ThreeFailed(e.made)))
  {
    if !IsDone(s.led, SlotKey(slot)) {
      var r := run(slot, w(slot, |s.made|).attempt);
      var more := s.made + [r];
      assert more[..|s.made|] == s.made;
      assert AllFailed(more) <==> AllFailed(s.made) && !r.failure.NoFailure? by {
        assert forall k :: 0 <= k < |s.made| ==> more[k] == s.made[k];
        assert more[|s.made|] == r;
      }
      if |s.made| >= FAILURE_LIMIT {
        assert more[..FAILURE_LIMIT] == s.made[..FAILURE_LIMIT];
      } else if |more| == FAILURE_LIMIT {
        assert more[..FAILURE_LIMIT] == more;
      }
    }
  }

  /** A segment whose arms stay clean stops exactly when a record cannot be written, or with its
      third record when all three are failures; nothing later trips the guard, and clean or not, no
      segment goes on behind three failures at its start. */
  lemma {:induction false} StopsAtThird(run: Runner, c: Coding, w: Encounters, slots: seq<Slot>, file: string, led: seq<Record>)
    ensures var e := RunSlots(run, c, w, slots, Fresh(file, led));
            && (!e.stopped ==> GuardRight(e))
            && (ThreeFailed(e.made) ==> |e.made| == FAILURE_LIMIT && e.stopped)
            && (Clean(w) ==> (e.stopped <==> e.lost.Some? || ThreeFailed(e.made)))
    decreases |slots|
  {
    if slots != [] {
      StopsAtThird(run, c, w, slots[..|slots| - 1], file, led);
      var s := RunSlots(run, c, w, slots[..|slots| - 1], Fresh(file, led));
      if !s.stopped {
        SlotGuarded(run, c, w, slots[|slots| - 1], s);
      }
    }
  }

  /** The slot whose run made the segment's last record, if it made one. */
  function LastRun(run: Runner, c: Coding, w: Encounters, slots: seq<Slot>, s0: Segment): Option<Slot>
    decreases |slots|
  {
    if slots == [] then None
    else
      var before := slots[..|slots| - 1];
      if |RunSlots(run, c, w, before, s0).made| < |RunSlots(run, c, w, slots, s0).made| then Some(slots[|slots| - 1])
      else LastRun(run, c, w, before, s0)
  }

  /** The arm was not clean behind the segment's last record. */
  predicate LeftUnclean(run: Runner, c: Coding, w: Encounters, slots: seq<Slot>, s0: Segment)
  {
    UncleanBehind(w, LastRun(run, c, w, slots, s0), |RunSlots(run, c, w, slots, s0).made|)
  }

  predicate UncleanBehind(w: Encounters, last: Option<Slot>, n: nat)
  {
    last.Some? && n > 0 && !w(last.value, n - 1).clean
  }

  lemma OneMoreRun(run: Runner, c: Coding, w: Encounters, slots: seq<Slot>, x: Slot, s0: Segment)
    ensures LastRun(run, c, w, slots + [x], s0)
            == if |RunSlots(run, c, w, slots, s0).made| < |RunSlots(run, c, w, slots + [x], s0).made| then Some(x)
               else LastRun(run, c, w, slots, s0)
  {
    assert (slots + [x])[..|slots|] == slots;
  }

  /** Why a segment stops, exactly: it lost a record, its first three records are failures, or the arm
      of its last record was left unclean. */
  lemma {:induction false} StopsExactly(run: Runner, c: Coding, w: Encounters, slots: seq<Slot>, file: string, led: seq<Record>)
    ensures var e := RunSlots(run, c, w, slots, Fresh(file, led));
            e.stopped <==> e.lost.Some? || ThreeFailed(e.made) || LeftUnclean(run, c, w, slots, Fresh(file, led))
    decreases |slots|
  {
    if slots != [] {
      var before, x, s0 := slots[..|slots| - 1], slots[|slots| - 1], Fresh(file, led);
      assert slots == before + [x];
      StopsExactly(run, c, w, before, file, led);
      StopsAtThird(run, c, w, before, file, led);
      SlotStops(run, c, w, before, x, s0, RunSlots(run, c, w, before, s0));
    }
  }

  /** Why a segment stopped, given the arm's state behind its last record. */
  predicate StopsFor(s: Segment, unclean: bool) { s.stopped <==> s.lost.Some? || ThreeFailed(s.made) || unclean }

  lemma RunMakes(run: Runner, c: Coding, w: Encounters, x: Slot, s: Segment)
    requires !s.stopped && !IsDone(s.led, SlotKey(x))
    ensures |RunSlot(run, c, w, x, s).made| == |s.made| + 1
  {
  }

  lemma LastRuns(run: Runner, c: Coding, w: Encounters, before: seq<Slot>, x: Slot, s0: Segment, n: nat)
    requires |RunSlots(run, c, w, before, s0).made| == n && |RunSlots(run, c, w, before + [x], s0).made| == n + 1
    ensures LeftUnclean(run, c, w, before + [x], s0) <==> !w(x, n).clean
  {
    OneMoreRun(run, c, w, before, x, s0);
  }

  lemma UncleanNow(run: Runner, c: Coding, w: Encounters, before: seq<Slot>, x: Slot, s0: Segment, s: Segment)
    requires s == RunSlots(run, c, w, before, s0) && !s.stopped && !IsDone(s.led, SlotKey(x))
    ensures LeftUnclean(run, c, w, before + [x], s0) <==> !w(x, |s.made|).clean
  {
    OneMore(run, c, w, before, x, s0);
    RunMakes(run, c, w, x, s);
    LastRuns(run, c, w, before, x, s0, |s.made|);
  }

  lemma SameRuns(run: Runner, c: Coding, w: Encounters, before: seq<Slot>, x: Slot, s0: Segment, n: nat)
    requires |RunSlots(run, c, w, before, s0).made| == n && |RunSlots(run, c, w, before + [x], s0).made| == n
    ensures LeftUnclean(run, c, w, before + [x], s0) <==> LeftUnclean(run, c, w, before, s0)
  {
    OneMoreRun(run, c, w, before, x, s0);
  }

  lemma RunSkips(run: Runner, c: Coding, w: Encounters, x: Slot, s: Segment)
    requires s.stopped || IsDone(s.led, SlotKey(x))
    ensures RunSlot(run, c, w, x, s) == s
  {
  }

  lemma UncleanStill(run: Runner, c: Coding, w: Encounters, before: seq<Slot>, x: Slot, s0: Segment, s: Segment)
    requires s == RunSlots(run, c, w, before, s0) && (s.stopped || IsDone(s.led, SlotKey(x)))
    ensures LeftUnclean(run, c, w, before + [x], s0) <==> LeftUnclean(run, c, w, before, s0)
  {
    OneMore(run, c, w, before, x, s0);
    RunSkips(run, c, w, x, s);
    SameRuns(run, c, w, before, x, s0, |s.made|);
  }

  lemma SlotStops(run: Runner, c: Coding, w: Encounters, before: seq<Slot>, x: Slot, s0: Segment, s: Segment)
    requires s == RunSlots(run, c, w, before, s0) && (!s.stopped ==> GuardRight(s) && !ThreeFailed(s.made))
    requires StopsFor(s, LeftUnclean(run, c, w, before, s0))
    ensures StopsFor(RunSlots(run, c, w, before + [x], s0), LeftUnclean(run, c, w, before + [x], s0))
  {
    OneMore(run, c, w, before, x, s0);
    if s.stopped || IsDone(s.led, SlotKey(x)) {
      UncleanStill(run, c, w, before, x, s0, s);
    } else {
      UncleanNow(run, c, w, before, x, s0, s);
      SlotGuarded(run, c, w, x, s);
    }
  }

  class StartupGuard {
    var succeeded: bool
    var failures: nat
    var message: string

    constructor ()
      ensures State() == NEW_GUARD
    {
      succeeded, failures, message := false, 0, "";
    }

    ghost function State(): Guard
      reads this
    {
      Guard(succeeded, failures, message)
    }

    /** observe */
    method Observe(r: Record) returns (stop: bool)
      modifies this
      ensures State() == Observed(old(State()), r) && stop == Trips(old(State()), r)
    {
      if r.failure.NoFailure? {
        succeeded := true;
        return false;
      }
      if succeeded {
        return false;
      }
      failures := failures + 1;
      message := r.message;
      return failures >= FAILURE_LIMIT;
    }
  }

  ghost predicate Fair(c: Config) { forall ti, rep :: Picks(c.pick(ti, rep)) }

  /** These slots have been run: the file, the ledger, the records made, the guard while it goes on, and
      whether it stopped. */
  ghost predicate Stands(run: Runner, c: Coding, w: Encounters, slots: seq<Slot>, start: Segment,
                         file: string, led: seq<Record>, made: seq<Record>, guard: Guard, stop: bool)
  {
    var s := RunSlots(run, c, w, slots, start);
    && s.file == file && s.led == led && s.made == made && s.stopped == stop
    && (!stop ==> s.guard == guard && s.lost.None?)
  }

  lemma OneMoreStands(run: Runner, c: Coding, w: Encounters, slots: seq<Slot>, x: Slot, start: Segment,
                      file: string, led: seq<Record>, made: seq<Record>, guard: Guard)
    requires Stands(run, c, w, slots, start, file, led, made, guard, false)
    ensures var s := RunSlot(run, c, w, x, Segment(file, led, made, guard, false, None));
            Stands(run, c, w, slots + [x], start, s.file, s.led, s.made, s.guard, s.stopped)
  {
    OneMore(run, c, w, slots, x, start);
  }

  lemma StoppedStands(run: Runner, c: Coding, w: Encounters, a: seq<Slot>, b: seq<Slot>, start: Segment,
                      file: string, led: seq<Record>, made: seq<Record>, guard: Guard)
    requires a <= b && Stands(run, c, w, a, start, file, led, made, guard, true)
    ensures Stands(run, c, w, b, start, file, led, made, guard, true)
  {
    StoppedStays(run, c, w, a, b, start);
  }

  /** Run. `valid` is the answer of Validate. */
  method Run(run: Runner, c: Config, valid: bool, w: Encounters, ledger: RunJournal) returns (made: seq<Record>, failed: bool)
    requires Fair(c) && ledger.Valid()
    modifies ledger`file, ledger`records, ledger`done
    ensures ledger.Valid()
    ensures !valid ==> failed && made == [] && ledger.records == old(ledger.records) && ledger.file == old(ledger.file)
    ensures valid ==> var s := RunSlots(run, ledger.c, w, Plan(c), Fresh(old(ledger.file), old(ledger.records)));
                      made == s.made && failed == s.stopped && ledger.records == s.led && ledger.file == s.file
  {
    made, failed := [], true;
    if !valid {
      return;
    }
    var guard := new StartupGuard();
    made, failed := RunPlan(run, c, w, ledger, guard);
  }

  /** The loop over the repetitions. */
  method RunPlan(run: Runner, c: Config, w: Encounters, ledger: RunJournal, guard: StartupGuard) returns (made: seq<Record>, failed: bool)
    requires Fair(c) && ledger.Valid() && guard.State() == NEW_GUARD
    modifies ledger`file, ledger`records, ledger`done, guard
    ensures ledger.Valid()
    ensures Stands(run, ledger.c, w, Plan(c), Fresh(old(ledger.file), old(ledger.records)), ledger.file,
                   ledger.records, made, guard.State(), failed)
  {
    made, failed := [], false;
    ghost var start := Fresh(ledger.file, ledger.records);
    ghost var here: seq<Slot> := [];
    for n := 0 to c.repetitions
      invariant ledger.Valid()
      invariant here == RepPlan(c, n)
      invariant Stands(run, ledger.c, w, here, start, ledger.file, ledger.records, made, guard.State(), false)
      modifies ledger`file, ledger`records, ledger`done, guard
    {
      var rep := n + 1;
      made, failed := RunRepetition(run, c, w, ledger, guard, rep, made, here, start);
      here := PlanStep(c, rep, here);
      if failed {
        StoppedInPlan(run, ledger.c, w, c, rep, here, start, ledger.file, ledger.records, made, guard.State());
        return;
      }
    }
  }

  lemma PlanStep(c: Config, rep: nat, before: seq<Slot>) returns (here: seq<Slot>)
    requires rep > 0 && before == RepPlan(c, rep - 1)
    ensures here == Upto(before, c, rep, |c.tasks|) == RepPlan(c, rep)
  {
    here := RepPlan(c, rep);
  }

  lemma StoppedInPlan(run: Runner, c: Coding, w: Encounters, config: Config, rep: nat, here: seq<Slot>, start: Segment,
                      file: string, led: seq<Record>, made: seq<Record>, guard: Guard)
    requires rep <= config.repetitions && here == RepPlan(config, rep) && Stands(run, c, w, here, start, file, led, made, guard, true)
    ensures Stands(run, c, w, Plan(config), start, file, led, made, guard, true)
  {
    RepPlanGrows(config, rep, config.repetitions);
    StoppedStands(run, c, w, here, Plan(config), start, file, led, made, guard);
  }

  lemma {:induction false} RepPlanGrows(c: Config, m: nat, n: nat)
    requires m <= n
    ensures RepPlan(c, m) <= RepPlan(c, n)
    decreases n
  {
    if m < n {
      RepPlanGrows(c, m, n - 1);
    }
  }

  lemma {:induction false} TaskPlanGrows(c: Config, rep: nat, m: nat, n: nat)
    requires m <= n <= |c.tasks|
    ensures TaskPlan(c, rep, m) <= TaskPlan(c, rep, n)
    decreases n
  {
    if m < n {
      TaskPlanGrows(c, rep, m, n - 1);
    }
  }

  /** The slots so far, with those of the first n tasks of a repetition. */
  function Upto(before: seq<Slot>, c: Config, rep: nat, n: nat): seq<Slot>
    requires n <= |c.tasks|
  {
    before + TaskPlan(c, rep, n)
  }

  lemma BlockInPlan(c: Config, before: seq<Slot>, rep: nat, ti: nat)
    requires ti < |c.tasks|
    ensures Upto(before, c, rep, ti) + BlockOf(c, ti, rep) == Upto(before, c, rep, ti + 1)
  {
    Associates(before, TaskPlan(c, rep, ti), BlockOf(c, ti, rep));
  }

  lemma UptoGrows(c: Config, before: seq<Slot>, rep: nat, n: nat)
    requires n <= |c.tasks|
    ensures Upto(before, c, rep, 0) == before && Upto(before, c, rep, n) <= Upto(before, c, rep, |c.tasks|)
  {
    TaskPlanGrows(c, rep, n, |c.tasks|);
  }

  lemma Associates(a: seq<Slot>, b: seq<Slot>, d: seq<Slot>)
    ensures a + b + d == a + (b + d)
  {
  }

  /** The loop over the tasks. */
  method RunRepetition(run: Runner, c: Config, w: Encounters, ledger: RunJournal, guard: StartupGuard, rep: nat,
                       made: seq<Record>, ghost before: seq<Slot>, ghost start: Segment)
    returns (made': seq<Record>, stop: bool)
    requires Fair(c) && ledger.Valid()
    requires Stands(run, ledger.c, w, before, start, ledger.file, ledger.records, made, guard.State(), false)
    modifies ledger`file, ledger`records, ledger`done, guard
    ensures ledger.Valid()
    ensures Stands(run, ledger.c, w, Upto(before, c, rep, |c.tasks|), start, ledger.file, ledger.records, made', guard.State(), stop)
  {
    made', stop := made, false;
    ghost var here := NoTaskYet(c, before, rep);
    for ti := 0 to |c.tasks|
      invariant ledger.Valid()
      invariant here == Upto(before, c, rep, ti)
      invariant Stands(run, ledger.c, w, here, start, ledger.file, ledger.records, made', guard.State(), false)
      modifies ledger`file, ledger`records, ledger`done, guard
    {
      made', stop := RunTask(run, c, w, ledger, guard, rep, ti, made', before, here, start);
      here := NextTask(c, before, rep, ti);
      if stop {
        StoppedInRep(run, ledger.c, w, c, before, rep, ti + 1, here, start, ledger.file, ledger.records, made', guard.State());
        return;
      }
    }
  }

  lemma NoTaskYet(c: Config, before: seq<Slot>, rep: nat) returns (here: seq<Slot>)
    ensures here == before == Upto(before, c, rep, 0)
  {
    here := before;
  }

  lemma NextTask(c: Config, before: seq<Slot>, rep: nat, ti: nat) returns (here: seq<Slot>)
    requires ti < |c.tasks|
    ensures here == Upto(before, c, rep, ti + 1)
  {
    here := Upto(before, c, rep, ti + 1);
  }

  lemma StoppedInRep(run: Runner, c: Coding, w: Encounters, config: Config, before: seq<Slot>, rep: nat, n: nat, here: seq<Slot>,
                     start: Segment, file: string, led: seq<Record>, made: seq<Record>, guard: Guard)
    requires n <= |config.tasks| && here == Upto(before, config, rep, n) && Stands(run, c, w, here, start, file, led, made, guard, true)
    ensures Stands(run, c, w, Upto(before, config, rep, |config.tasks|), start, file, led, made, guard, true)
  {
    UptoGrows(config, before, rep, n);
    StoppedStands(run, c, w, here, Upto(before, config, rep, |config.tasks|), start, file, led, made, guard);
  }

  /** One block: its order, then its arms. */
  method RunTask(run: Runner, c: Config, w: Encounters, ledger: RunJournal, guard: StartupGuard, rep: nat, ti: nat,
                 made: seq<Record>, ghost before: seq<Slot>, ghost here: seq<Slot>, ghost start: Segment)
    returns (made': seq<Record>, stop: bool)
    requires Fair(c) && ledger.Valid() && ti < |c.tasks| && here == Upto(before, c, rep, ti)
    requires Stands(run, ledger.c, w, here, start, ledger.file, ledger.records, made, guard.State(), false)
    modifies ledger`file, ledger`records, ledger`done, guard
    ensures ledger.Valid()
    ensures Stands(run, ledger.c, w, Upto(before, c, rep, ti + 1), start, ledger.file, ledger.records, made', guard.State(), stop)
  {
    var order := BlockOrder(c.arms, c.pick(ti, rep));
    made', stop := RunBlock(run, w, ledger, guard, c.tasks[ti], rep, order, made, here, start);
    BlockInPlan(c, before, rep, ti);
  }

  lemma ArmInBlock(before: seq<Slot>, block: seq<Slot>, k: nat)
    requires k < |block|
    ensures before + block[..k] + [block[k]] == before + block[..k + 1] <= before + block
  {
    assert block == block[..k + 1] + block[k + 1..];
  }

  lemma WholeBlock(before: seq<Slot>, block: seq<Slot>)
    ensures before + block[..0] == before && before + block[..|block|] == before + block
  {
  }

  /** The loop over a block's arms. */
  method RunBlock(run: Runner, w: Encounters, ledger: RunJournal, guard: StartupGuard, task: Task, rep: nat,
                  order: array<string>, made: seq<Record>, ghost before: seq<Slot>, ghost start: Segment)
    returns (made': seq<Record>, stop: bool)
    requires ledger.Valid()
    requires Stands(run, ledger.c, w, before, start, ledger.file, ledger.records, made, guard.State(), false)
    modifies ledger`file, ledger`records, ledger`done, guard
    ensures ledger.Valid()
    ensures Stands(run, ledger.c, w, before + Slots(task, rep, order[..]), start, ledger.file, ledger.records, made', guard.State(), stop)
  {
    made', stop := made, false;
    ghost var block := Slots(task, rep, order[..]);
    ghost var here := before;
    WholeBlock(before, block);
    for k := 0 to order.Length
      invariant ledger.Valid()
      invariant here == before + block[..k]
      invariant Stands(run, ledger.c, w, here, start, ledger.file, ledger.records, made', guard.State(), false)
      modifies ledger`file, ledger`records, ledger`done, guard
    {
      var slot := Slot(task, order[k], rep);
      OneMoreStands(run, ledger.c, w, here, slot, start, ledger.file, ledger.records, made', guard.State());
      made', stop := RunArm(run, w, ledger, guard, slot, made');
      ArmInBlock(before, block, k);
      here := here + [slot];
      if stop {
        StoppedStands(run, ledger.c, w, here, before + block, start, ledger.file, ledger.records, made', guard.State());
        return;
      }
    }
  }

  /** The body of the loops: skip what is done, else run, record, watch. */
  method RunArm(run: Runner, w: Encounters, ledger: RunJournal, guard: StartupGuard, slot: Slot, made: seq<Record>)
    returns (made': seq<Record>, stop: bool)
    requires ledger.Valid()
    modifies ledger`file, ledger`records, ledger`done, guard
    ensures ledger.Valid()
    ensures var s := RunSlot(run, ledger.c, w, slot, old(Segment(ledger.file, ledger.records, made, guard.State(), false, None)));
            && ledger.file == s.file && ledger.records == s.led && made' == s.made && stop == s.stopped
            && (!stop ==> guard.State() == s.guard)
  {
    var done := ledger.Done(SlotKey(slot));
    if done {
      return made, false;
    }
    var m := w(slot, |made|);
    var r := run(slot, m.attempt);
    made' := made + [r];
    var ok := ledger.Emit(r, m.written, m.synced);
    if !ok {
      return made', true;
    }
    stop := guard.Observe(r);
    if !stop {
      stop := !m.clean;
    }
  }
}
