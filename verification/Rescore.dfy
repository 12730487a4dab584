/** A whole campaign, resumed any number of times and then graded again from its raw streams. */
module Rescore {
  import opened Text
  import opened Journal
  import opened Grading
  import opened Campaign
  import opened Handover
  import opened Resume
  import opened RawStreams

  // ---- The disk beside the journal ----

  /** What one run meets: the agent's command and the disk, how its line reached the journal, and
      whether the arm was clean afterwards. */
  datatype Moment = Moment(event: Event, written: nat, synced: bool, clean: bool)

  /** One call of Run with this agent. */
  datatype Leg = Leg(moments: (Slot, nat) -> Moment, cut: nat)

  function WorldOf(agent: Agent, moments: (Slot, nat) -> Moment): Encounters
  {
    (slot: Slot, n: nat) =>
      var m := moments(slot, n);
      Meeting(AttemptOf(agent, SlotKey(slot), m.event), m.written, m.synced, m.clean)
  }

  function StretchOf(agent: Agent, x: Leg): Stretch { Stretch(WorldOf(agent, x.moments), x.cut) }

  function StretchesOf(agent: Agent, legs: seq<Leg>): (s: seq<Stretch>)
    ensures |s| == |legs| && forall i :: 0 <= i < |legs| ==> s[i] == StretchOf(agent, legs[i])
  {
    seq(|legs|, i requires 0 <= i < |legs| => StretchOf(agent, legs[i]))
  }

  /** The raw streams after a slot: a run that is made writes its own file, a skipped one nothing. */
  function SlotDisk(agent: Agent, moments: (Slot, nat) -> Moment, slot: Slot, s: Segment, disk: Disk): Disk
  {
    if s.stopped || IsDone(s.led, SlotKey(slot)) then disk
    else DiskAfter(agent, SlotKey(slot), moments(slot, |s.made|).event, disk)
  }

  function SlotsDisk(run: Runner, c: Coding, agent: Agent, moments: (Slot, nat) -> Moment, slots: seq<Slot>, s: Segment, disk: Disk): Disk
    decreases |slots|
  {
    if slots == [] then disk
    else
      var before := slots[..|slots| - 1];
      SlotDisk(agent, moments, slots[|slots| - 1], RunSlots(run, c, WorldOf(agent, moments), before, s),
               SlotsDisk(run, c, agent, moments, before, s, disk))
  }

  /** The raw streams after these calls, each on the journal its predecessors left; `start` may hold
      those of an earlier campaign. */
  function DiskLeft(run: Runner, c: Coding, agent: Agent, plan: seq<Slot>, start: Disk, legs: seq<Leg>): Disk
    decreases |legs|
  {
    if legs == [] then start
    else
      var last := |legs| - 1;
      var file := FileLeft(run, c, plan, StretchesOf(agent, legs[..last]));
      var disk := DiskLeft(run, c, agent, plan, start, legs[..last]);
      if Load(c, file).None? then disk
      else SlotsDisk(run, c, agent, legs[last].moments, FirstSlots(plan, legs[last].cut), Fresh(file, Load(c, file).value), disk)
  }

  // ---- Every record has its stream ----

  /** A judge, an agent and a plan, with the tasks to regrade with. */
  datatype Setting = Setting(judge: Judge, name: string, agent: Agent, tasks: seq<Task>, plan: seq<Slot>)
  {
    function Run(): Runner { RunnerOf(judge, name) }

    /** Every run has a file of its own, and the tasks are defined as they were. */
    ghost predicate Sound()
    {
      && Apart(agent.path, plan)
      && forall slot :: slot in plan ==> TaskOf(tasks, slot.task.id) == Some(slot.task)
    }

    predicate Planned(k: Key) { exists slot :: slot in plan && SlotKey(slot) == k }

    /** The record of a planned run, labelled as that run was. */
    predicate Labelled(r: Record)
    {
      r.campaign == name && exists slot :: slot in plan && SlotKey(slot) == KeyOf(r) && slot.task.repo == r.repo
    }

    /** The record regrades to itself on this disk; one that was graded, from the file of its run. */
    ghost predicate Backed(disk: Disk, r: Record)
    {
      && Planned(KeyOf(r)) && Labelled(r) && RegradeOne(judge, ArchiveOf(agent, tasks, disk), Stored(r)) == Some(Stored(r))
      && (Graded(r) ==> r.transcript.rawPath == agent.path(KeyOf(r)))
    }

    ghost predicate AllBacked(disk: Disk, rs: seq<Record>) { forall r :: r in rs ==> Backed(disk, r) }
  }

  /** A run leaves what its own record needs. */
  lemma OwnBacked(x: Setting, slot: Slot, e: Event, disk: Disk)
    requires x.Sound() && slot in x.plan
    ensures var k := SlotKey(slot);
            x.Backed(DiskAfter(x.agent, k, e, disk), RunOne(x.judge, x.name, slot.task, slot.arm, slot.rep, AttemptOf(x.agent, k, e)))
  {
    var k := SlotKey(slot);
    var at := AttemptOf(x.agent, k, e);
    ScoredIsArchived(x.agent, x.tasks, k, e, disk);
    GradingAgrees(x.judge, ArchiveOf(x.agent, x.tasks, DiskAfter(x.agent, k, e, disk)), x.name, slot.task, slot.arm, slot.rep, at);
    assert x.Planned(k);
    assert slot in x.plan && SlotKey(slot) == k;
  }

  /** A run of another key, or one of its own that never reached scoring, needs no other file. */
  lemma OthersStay(x: Setting, k: Key, e: Event, disk: Disk, r: Record)
    requires x.Sound() && x.Planned(k) && x.Backed(disk, r) && (KeyOf(r) == k ==> Unattempted(r))
    ensures x.Backed(DiskAfter(x.agent, k, e, disk), r)
  {
    var after := DiskAfter(x.agent, k, e, disk);
    if Graded(r) {
      var p := x.agent.path(KeyOf(r));
      assert KeyOf(r) != k && p != x.agent.path(k);
      assert p in after <==> p in disk;
      assert p in disk ==> after[p] == disk[p];
    }
  }

  lemma AllStay(x: Setting, k: Key, e: Event, disk: Disk, rs: seq<Record>)
    requires x.Sound() && x.Planned(k) && x.AllBacked(disk, rs) && Settling(rs) && !IsDone(rs, k)
    ensures x.AllBacked(DiskAfter(x.agent, k, e, disk), rs)
  {
    NotDone(rs, k);
    forall r | r in rs ensures x.Backed(DiskAfter(x.agent, k, e, disk), r) {
      OthersStay(x, k, e, disk, r);
    }
  }

  lemma SlotBacked(x: Setting, c: Coding, moments: (Slot, nat) -> Moment, slot: Slot, s: Segment, disk: Disk)
    requires x.Sound() && slot in x.plan && Settling(s.led) && x.AllBacked(disk, s.led + LostOf(s)) && (s.lost.Some? ==> s.stopped)
    ensures var e := RunSlot(x.Run(), c, WorldOf(x.agent, moments), slot, s);
            x.AllBacked(SlotDisk(x.agent, moments, slot, s, disk), e.led + LostOf(e))
  {
    var k := SlotKey(slot);
    if !s.stopped && !IsDone(s.led, k) {
      var e := RunSlot(x.Run(), c, WorldOf(x.agent, moments), slot, s);
      var m := moments(slot, |s.made|);
      assert s.led + LostOf(s) == s.led;
      assert x.Planned(k);
      AllStay(x, k, m.event, disk, s.led);
      OwnBacked(x, slot, m.event, disk);
      assert forall r :: r in e.led + LostOf(e) ==> r in s.led || r == RunOne(x.judge, x.name, slot.task, slot.arm, slot.rep, AttemptOf(x.agent, k, m.event));
    }
  }

  lemma {:induction false} SlotsBacked(x: Setting, c: Coding, moments: (Slot, nat) -> Moment, slots: seq<Slot>, s: Segment, disk: Disk)
    requires x.Sound() && (forall slot :: slot in slots ==> slot in x.plan)
    requires Settling(s.led) && x.AllBacked(disk, s.led) && s.lost.None?
    ensures var e := RunSlots(x.Run(), c, WorldOf(x.agent, moments), slots, s);
            x.AllBacked(SlotsDisk(x.Run(), c, x.agent, moments, slots, s, disk), e.led + LostOf(e)) && (e.lost.Some? ==> e.stopped)
    decreases |slots|
  {
    if slots == [] {
      assert s.led + LostOf(s) == s.led;
    } else {
      var before, slot := slots[..|slots| - 1], slots[|slots| - 1];
      SlotsBacked(x, c, moments, before, s, disk);
      RunnerKeyed(x.judge, x.name);
      SlotsSettle(x.Run(), c, WorldOf(x.agent, moments), before, s);
      assert slot in slots;
      SlotBacked(x, c, moments, slot, RunSlots(x.Run(), c, WorldOf(x.agent, moments), before, s),
                 SlotsDisk(x.Run(), c, x.agent, moments, before, s, disk));
    }
  }

  // ---- Over a whole campaign ----

  /** The file does not hold the answer itself, and the regrader does not need it. */
  lemma StoredBacked(x: Setting, disk: Disk, rs: seq<Record>)
    requires x.AllBacked(disk, rs)
    ensures x.AllBacked(disk, StoredAll(rs))
  {
    forall k | 0 <= k < |rs| ensures x.Backed(disk, StoredAll(rs)[k]) {
      assert rs[k] in rs && Stored(Stored(rs[k])) == Stored(rs[k]);
    }
  }

  lemma LegBacked(x: Setting, c: Coding, file: string, leg: Leg, disk: Disk)
    requires x.Sound() && Load(c, file).Some? && Shaped(c, file) && Settling(Load(c, file).value) && x.AllBacked(disk, Load(c, file).value)
    ensures var s := SegmentOf(x.Run(), c, x.plan, file, StretchOf(x.agent, leg));
            var after := SlotsDisk(x.Run(), c, x.agent, leg.moments, FirstSlots(x.plan, leg.cut), Fresh(file, Load(c, file).value), disk);
            Load(c, s.file).Some? ==> x.AllBacked(after, Load(c, s.file).value)
  {
    var run, slots, s0 := x.Run(), FirstSlots(x.plan, leg.cut), Fresh(file, Load(c, file).value);
    var s := SegmentOf(run, c, x.plan, file, StretchOf(x.agent, leg));
    var after := SlotsDisk(run, c, x.agent, leg.moments, slots, s0, disk);
    SlotsBacked(x, c, leg.moments, slots, s0, disk);
    var k := HandOver(run, c, x.plan, file, StretchOf(x.agent, leg));
    assert s.led + [] == s.led;
    StoredBacked(x, after, s.led + LostOf(s));
    StoredBacked(x, after, s.led);
  }

  /** As long as the journal opens, every record in it is backed by the disk beside it. */
  ghost predicate Supported(x: Setting, c: Coding, file: string, disk: Disk)
  {
    Load(c, file).Some? ==> x.AllBacked(disk, Load(c, file).value)
  }

  lemma LastLeg(x: Setting, c: Coding, file: string, leg: Leg, disk: Disk, left: string, after: Disk)
    requires x.Sound() && Shaped(c, file) && Load(c, file).Some? && Settling(Load(c, file).value) && Supported(x, c, file, disk)
    requires left == SegmentOf(x.Run(), c, x.plan, file, StretchOf(x.agent, leg)).file
    requires after == SlotsDisk(x.Run(), c, x.agent, leg.moments, FirstSlots(x.plan, leg.cut), Fresh(file, Load(c, file).value), disk)
    ensures Supported(x, c, left, after)
  {
    LegBacked(x, c, file, leg, disk);
  }

  function FileAt(x: Setting, c: Coding, legs: seq<Leg>): string
  {
    FileLeft(x.Run(), c, x.plan, StretchesOf(x.agent, legs))
  }

  lemma LegSettles(x: Setting, c: Coding, legs: seq<Leg>)
    ensures var file := FileAt(x, c, legs); Load(c, file).Some? ==> Shaped(c, file) && Settling(Load(c, file).value)
  {
    RunnerKeyed(x.judge, x.name);
    AttemptedOnce(x.Run(), c, x.plan, StretchesOf(x.agent, legs));
  }

  lemma OneMoreLeg(x: Setting, c: Coding, start: Disk, legs: seq<Leg>)
    requires legs != []
    ensures var last := |legs| - 1;
            var file := FileAt(x, c, legs[..last]);
            var disk := DiskLeft(x.Run(), c, x.agent, x.plan, start, legs[..last]);
            if Load(c, file).None? then
              FileAt(x, c, legs) == file && DiskLeft(x.Run(), c, x.agent, x.plan, start, legs) == disk
            else
              && FileAt(x, c, legs) == SegmentOf(x.Run(), c, x.plan, file, StretchOf(x.agent, legs[last])).file
              && DiskLeft(x.Run(), c, x.agent, x.plan, start, legs)
                 == SlotsDisk(x.Run(), c, x.agent, legs[last].moments, FirstSlots(x.plan, legs[last].cut), Fresh(file, Load(c, file).value), disk)
  {
    var last := |legs| - 1;
    assert StretchesOf(x.agent, legs)[..last] == StretchesOf(x.agent, legs[..last]);
  }

  lemma {:induction false} CampaignBacked(x: Setting, c: Coding, start: Disk, legs: seq<Leg>)
    requires x.Sound()
    ensures Supported(x, c, FileAt(x, c, legs), DiskLeft(x.Run(), c, x.agent, x.plan, start, legs))
    decreases |legs|
  {
    if legs != [] {
      var last := |legs| - 1;
      CampaignBacked(x, c, start, legs[..last]);
      OneMoreLeg(x, c, start, legs);
      var file := FileAt(x, c, legs[..last]);
      if Load(c, file).Some? {
        LegSettles(x, c, legs[..last]);
        LastLeg(x, c, file, legs[last], DiskLeft(x.Run(), c, x.agent, x.plan, start, legs[..last]),
                FileAt(x, c, legs), DiskLeft(x.Run(), c, x.agent, x.plan, start, legs));
      }
    }
  }

  /** However a campaign is cut, whatever fails and whatever runs are lost, made again and written
      over: as long as the journal opens, regrading from the raw streams that are on disk by then
      gives its newest records, unchanged. */
  lemma CampaignRegrades(x: Setting, c: Coding, start: Disk, legs: seq<Leg>)
    requires x.Sound()
    ensures var rs := Resumed(x.Run(), c, x.plan, StretchesOf(x.agent, legs));
            var disk := DiskLeft(x.Run(), c, x.agent, x.plan, start, legs);
            rs.Some? ==> RegradeAll(x.judge, ArchiveOf(x.agent, x.tasks, disk), Latest(rs.value)) == Some(Latest(rs.value))
  {
    var rs := Resumed(x.Run(), c, x.plan, StretchesOf(x.agent, legs));
    var a := ArchiveOf(x.agent, x.tasks, DiskLeft(x.Run(), c, x.agent, x.plan, start, legs));
    if rs.Some? {
      CampaignBacked(x, c, start, legs);
      ParsedStored(c, Lines(FileLeft(x.Run(), c, x.plan, StretchesOf(x.agent, legs))));
      forall k | 0 <= k < |rs.value| ensures RegradeOne(x.judge, a, rs.value[k]) == Some(rs.value[k]) {
        assert rs.value[k] in rs.value && StoredAll(rs.value)[k] == rs.value[k];
      }
      RegradeUnchanged(x.judge, a, rs.value);
    }
  }

  // ---- Graded again with other definitions ----

  /** The planned tasks are defined, perhaps otherwise than when they were run. */
  ghost predicate Redefined(x: Setting, now: seq<Task>)
  {
    forall slot :: slot in x.plan ==> TaskOf(now, slot.task.id).Some? && TaskOf(now, slot.task.id).value.repo == slot.task.repo
  }

  function UnderTask(x: Setting, task: Task, slot: Slot, at: Attempt): Record
  {
    Stored(RunOne(x.judge, x.name, task, slot.arm, slot.rep, at))
  }

  /** One record before and after: a judged one is what its run would have recorded under the
      definition of now, any other the same. */
  ghost predicate Rescored(x: Setting, now: seq<Task>, r: Record, r': Record)
  {
    if Graded(r) then exists slot, at :: JudgedAgain(x, now, slot, at, r, r') else r' == r
  }

  ghost predicate JudgedAgain(x: Setting, now: seq<Task>, slot: Slot, at: Attempt, r: Record, r': Record)
  {
    && slot in x.plan && Answered(at) && r == UnderTask(x, slot.task, slot, at)
    && TaskOf(now, slot.task.id).Some? && r' == UnderTask(x, TaskOf(now, slot.task.id).value, slot, at)
  }

  /** The attempt that a judged record and its stream stand for. */
  function AttemptBehind(r: Record, t: Transcript): Attempt
  {
    Attempt(None, t.(rawPath := r.transcript.rawPath, tokens := r.transcript.tokens), None)
  }

  /** A judged record that regrades to itself is the record of that attempt. */
  lemma RecordBehind(x: Setting, disk: Disk, slot: Slot, r: Record)
    requires x.Sound() && slot in x.plan && SlotKey(slot) == KeyOf(r) && slot.task.repo == r.repo && r.campaign == x.name
    requires Graded(r) && Stored(r) == r && RegradeOne(x.judge, ArchiveOf(x.agent, x.tasks, disk), r) == Some(r)
    ensures var p := r.transcript.rawPath;
            p in disk && p != "" && x.agent.parse(disk[p]).error.None? && var at := AttemptBehind(r, x.agent.parse(disk[p]).transcript);
            Answered(at) && r == UnderTask(x, slot.task, slot, at)
  {
    var p := r.transcript.rawPath;
    var t := x.agent.parse(disk[p]).transcript;
    assert FormFrom(x.judge, AttemptBehind(r, t).transcript) == FormFrom(x.judge, t);
  }

  lemma GradedUnder(x: Setting, disk: Disk, now: seq<Task>, slot: Slot, at: Attempt, r: Record)
    requires slot in x.plan && Answered(at) && Stored(r) == r && r == UnderTask(x, slot.task, slot, at)
    requires Redefined(x, now) && r.transcript.rawPath in disk && r.transcript.rawPath != ""
    requires x.agent.parse(disk[r.transcript.rawPath]).error.None?
    requires at == AttemptBehind(r, x.agent.parse(disk[r.transcript.rawPath]).transcript)
    ensures RegradeOne(x.judge, ArchiveOf(x.agent, now, disk), r) == Some(UnderTask(x, TaskOf(now, slot.task.id).value, slot, at))
  {
    var t := x.agent.parse(disk[r.transcript.rawPath]).transcript;
    TaskOfId(now, slot.task.id);
    assert FormFrom(x.judge, at.transcript) == FormFrom(x.judge, t);
  }

  lemma RescoredOne(x: Setting, disk: Disk, now: seq<Task>, r: Record)
    requires x.Sound() && Redefined(x, now) && x.Backed(disk, r) && Stored(r) == r
    ensures var r' := RegradeOne(x.judge, ArchiveOf(x.agent, now, disk), r); r'.Some? && Rescored(x, now, r, r'.value)
  {
    var slot :| slot in x.plan && SlotKey(slot) == KeyOf(r) && slot.task.repo == r.repo;
    if Graded(r) {
      RecordBehind(x, disk, slot, r);
      var at := AttemptBehind(r, x.agent.parse(disk[r.transcript.rawPath]).transcript);
      GradedUnder(x, disk, now, slot, at, r);
      assert JudgedAgain(x, now, slot, at, r, UnderTask(x, TaskOf(now, slot.task.id).value, slot, at));
    }
  }

  ghost predicate AllRescored(x: Setting, now: seq<Task>, rs: seq<Record>, out: seq<Record>)
  {
    |out| == |rs| && forall k :: 0 <= k < |rs| ==> Rescored(x, now, rs[k], out[k])
  }

  /** Every record is backed by this disk, and as the file keeps it. */
  ghost predicate Ready(x: Setting, disk: Disk, rs: seq<Record>)
  {
    forall r :: r in rs ==> x.Backed(disk, r) && Stored(r) == r
  }

  lemma OneMoreRescored(x: Setting, now: seq<Task>, rs: seq<Record>, out: seq<Record>, r: Record, r': Record)
    requires AllRescored(x, now, rs, out) && Rescored(x, now, r, r')
    ensures AllRescored(x, now, rs + [r], out + [r'])
  {
  }

  lemma FrontReady(x: Setting, disk: Disk, rs: seq<Record>, r: Record)
    requires Ready(x, disk, rs + [r])
    ensures Ready(x, disk, rs) && x.Backed(disk, r) && Stored(r) == r
  {
    assert r == (rs + [r])[|rs|];
    assert forall q :: q in rs ==> q in rs + [r];
  }

  lemma {:induction false} RescoredAll(x: Setting, disk: Disk, now: seq<Task>, rs: seq<Record>)
    requires x.Sound() && Redefined(x, now) && Ready(x, disk, rs)
    ensures var out := RegradeAll(x.judge, ArchiveOf(x.agent, now, disk), rs); out.Some? && AllRescored(x, now, rs, out.value)
    decreases |rs|
  {
    if rs != [] {
      var before, r := rs[..|rs| - 1], rs[|rs| - 1];
      var a := ArchiveOf(x.agent, now, disk);
      assert rs == before + [r];
      FrontReady(x, disk, before, r);
      RescoredAll(x, disk, now, before);
      RescoredOne(x, disk, now, r);
      OneMoreRescored(x, now, before, RegradeAll(x.judge, a, before).value, r, RegradeOne(x.judge, a, r).value);
    }
  }

  /** However a campaign is cut and whatever fails: as long as the journal opens, regrading it from its
      streams with the definitions of now gives what it would have recorded under them. */
  lemma CampaignRescores(x: Setting, c: Coding, start: Disk, legs: seq<Leg>, now: seq<Task>)
    requires x.Sound() && Redefined(x, now)
    ensures var rs := Resumed(x.Run(), c, x.plan, StretchesOf(x.agent, legs));
            var disk := DiskLeft(x.Run(), c, x.agent, x.plan, start, legs);
            rs.Some? ==>
              var out := RegradeAll(x.judge, ArchiveOf(x.agent, now, disk), Latest(rs.value));
              out.Some? && |out.value| == |Latest(rs.value)|
              && forall k :: 0 <= k < |out.value| ==> Rescored(x, now, Latest(rs.value)[k], out.value[k])
  {
    var rs := Resumed(x.Run(), c, x.plan, StretchesOf(x.agent, legs));
    var disk := DiskLeft(x.Run(), c, x.agent, x.plan, start, legs);
    if rs.Some? {
      CampaignBacked(x, c, start, legs);
      ParsedStored(c, Lines(FileLeft(x.Run(), c, x.plan, StretchesOf(x.agent, legs))));
      NewestAreStored(x, disk, rs.value);
      RescoredAll(x, disk, now, Latest(rs.value));
    }
  }

  lemma NewestAreStored(x: Setting, disk: Disk, rs: seq<Record>)
    requires x.AllBacked(disk, rs) && StoredAll(rs) == rs
    ensures Ready(x, disk, Latest(rs))
  {
    NewestMembers(rs, |rs|);
    forall r | r in Latest(rs) ensures r in rs && Stored(r) == r {
      var i :| 0 <= i < |rs| && rs[i] == r && Newest(rs, i);
      assert StoredAll(rs)[i] == r;
    }
  }

  // ---- The layout of the benchmark command ----

  /** Slots of these arms and tasks, in counted repetitions. */
  ghost predicate Within(c: Config, slots: seq<Slot>)
  {
    forall x :: x in slots ==> x.arm in c.arms && x.task in c.tasks && x.rep >= 1
  }

  lemma BlockWithin(c: Config, ti: nat, rep: nat)
    requires ti < |c.tasks| && rep >= 1
    ensures Within(c, BlockOf(c, ti, rep))
  {
    var order := OrderOf(c.arms, c.pick(ti, rep));
    if c.arms != [] {
      ShuffleKeeps(c.arms, c.pick(ti, rep), |c.arms| - 1);
    }
    forall k | 0 <= k < |order| ensures order[k] in c.arms {
      assert order[k] in multiset(order);
    }
  }

  lemma {:induction false} TaskPlanWithin(c: Config, rep: nat, n: nat)
    requires n <= |c.tasks| && rep >= 1
    ensures Within(c, TaskPlan(c, rep, n))
    decreases n
  {
    if n > 0 {
      TaskPlanWithin(c, rep, n - 1);
      BlockWithin(c, n - 1, rep);
    }
  }

  lemma {:induction false} RepPlanWithin(c: Config, n: nat)
    ensures Within(c, RepPlan(c, n))
    decreases n
  {
    if n > 0 {
      RepPlanWithin(c, n - 1);
      TaskPlanWithin(c, n, |c.tasks|);
    }
  }

  lemma {:induction false} DefinedOnce(tasks: seq<Task>, t: Task)
    requires t in tasks && forall i, k :: 0 <= i < k < |tasks| ==> tasks[i].id != tasks[k].id
    ensures TaskOf(tasks, t.id) == Some(t)
    decreases |tasks|
  {
    var last := |tasks| - 1;
    if tasks[last].id != t.id {
      DefinedOnce(tasks[..last], t);
    }
  }

  /** The streams of any campaign with distinct tasks lie apart where the benchmark command puts them:
      in a directory per arm (whose name holds no slash), whatever the ids are. */
  lemma BenchmarkIsSound(j: Judge, c: Config, parse: Parser, out: string)
    requires DistinctTasks(c) && forall k :: 0 <= k < |c.arms| ==> '/' !in c.arms[k]
    ensures Setting(j, c.name, Agent(parse, (k: Key) => RawPath(out, k)), c.tasks, Plan(c)).Sound()
  {
    RepPlanWithin(c, c.repetitions);
    LayoutApart(out, Plan(c));
    forall slot | slot in Plan(c) ensures TaskOf(c.tasks, slot.task.id) == Some(slot.task) {
      DefinedOnce(c.tasks, slot.task);
    }
  }
}
