/** From an agent's answer to a record, and from a stored transcript to the same record again. */
module Grading {
  import opened Text
  import opened Journal

  datatype Result<T> = Ok(value: T) | Err(message: string)

  /** A parsed response form; its slots are not part of this model. */
  datatype Form = Form(answers: int)

  const ABSTENTION := Form(0)

  datatype Task = Task(id: string, repo: string, development: bool, facts: int)

  /** ParseForm and Grade. */
  datatype Judge = Judge(parse: string -> Result<Form>, grade: (Task, Form) -> Score)

  /** What one attempt came to: the environment of the arm (None when it is there), then the
      agent's transcript and error. */
  datatype Attempt = Attempt(environment: Option<string>, transcript: Transcript, error: Option<string>)

  const NO_TRANSCRIPT := Transcript("", "", "", false, "", Effort(0, 0, 0, 0, 0), 0)

  /** FormFrom: the final message counts, an earlier form only when that holds none. */
  function FormFrom(j: Judge, t: Transcript): Result<Form>
  {
    var form := j.parse(t.output);
    if form.Ok? || t.formText == "" then form else j.parse(t.formText)
  }

  /** Failure, message and score of a transcript that the agent itself did not fail on. */
  datatype Verdict = Verdict(failure: Failure, message: string, score: Score)

  function Judged(j: Judge, task: Task, t: Transcript): Verdict
  {
    match FormFrom(j, t)
    case Ok(form) => Verdict(NoFailure, "", j.grade(task, form))
    case Err(message) =>
      if t.maxTurns then Verdict(NoFailure, "", j.grade(task, ABSTENTION)) else Verdict(Scoring, message, Unscored)
  }

  function RunOne(j: Judge, campaign: string, task: Task, arm: string, rep: int, a: Attempt): Record
  {
    var blank := Record(campaign, task.id, task.repo, arm, rep, task.development, Unscored, NO_TRANSCRIPT, NoFailure, "");
    if a.environment.Some? then blank.(failure := Infrastructure, message := a.environment.value)
    else
      var r := blank.(transcript := a.transcript);
      if a.error.Some? then r.(failure := Product, message := a.error.value)
      else if a.transcript.agentError != "" then r.(failure := Product, message := a.transcript.agentError)
      else
        var v := Judged(j, task, a.transcript);
        r.(failure := v.failure, message := v.message, score := v.score)
  }

  // ---- Regrading ----

  /** The tasks now, the raw transcript files, and how a file parses (None: it does not). */
  datatype Archive = Archive(tasks: seq<Task>, files: string -> Option<Transcript>)

  /** The definition of a task: the last one with this id. */
  function TaskOf(tasks: seq<Task>, id: string): Option<Task>
    decreases |tasks|
  {
    if tasks == [] then None
    else if tasks[|tasks| - 1].id == id then Some(tasks[|tasks| - 1])
    else TaskOf(tasks[..|tasks| - 1], id)
  }

  /** A record scored again from its transcript; None when that cannot be done. */
  function RegradeOne(j: Judge, a: Archive, r: Record): Option<Record>
  {
    match TaskOf(a.tasks, r.task)
    case None => None
    case Some(task) =>
      if !r.failure.NoFailure? && !r.failure.Scoring? then Some(r)
      else if r.transcript.rawPath == "" then None
      else match a.files(r.transcript.rawPath)
        case None => None
        case Some(t) =>
          var kept := r.(development := task.development,
                         transcript := r.transcript.(effort := t.effort, maxTurns := t.maxTurns, agentError := t.agentError));
          if t.agentError != "" then
            Some(kept.(failure := Product, message := t.agentError, score := Unscored))
          else
            var v := Judged(j, task, t);
            Some(kept.(failure := v.failure, message := v.message, score := v.score))
  }

  function RegradeAll(j: Judge, a: Archive, rs: seq<Record>): Option<seq<Record>>
    decreases |rs|
  {
    if rs == [] then Some([])
    else match RegradeAll(j, a, rs[..|rs| - 1])
      case None => None
      case Some(before) =>
        match RegradeOne(j, a, rs[|rs| - 1]) case Some(r) => Some(before + [r]) case None => None
  }

  /** The task definitions by id. */
  method TasksById(tasks: seq<Task>) returns (byId: map<string, Task>)
    ensures forall id :: (id in byId <==> TaskOf(tasks, id).Some?) && (id in byId ==> Some(byId[id]) == TaskOf(tasks, id))
  {
    byId := map[];
    for i := 0 to |tasks|
      invariant forall id :: (id in byId <==> TaskOf(tasks[..i], id).Some?)
                             && (id in byId ==> Some(byId[id]) == TaskOf(tasks[..i], id))
    {
      byId := byId[tasks[i].id := tasks[i]];
      assert tasks[..i + 1][..i] == tasks[..i];
    }
    assert tasks[..|tasks|] == tasks;
  }

  /** The body of Regrade's loop, for a record whose task is defined. */
  method RegradeRecord(j: Judge, a: Archive, task: Task, r: Record) returns (out: Option<Record>)
    requires TaskOf(a.tasks, r.task) == Some(task)
    ensures out == RegradeOne(j, a, r) && Regraded(j, a, r, out)
  {
    RegradeExactly(j, a, r);
    var record := r;
    if !record.failure.NoFailure? && !record.failure.Scoring? {
      return Some(record);
    }
    record := record.(development := task.development);
    var raw := if record.transcript.rawPath == "" then None else a.files(record.transcript.rawPath);
    if raw.None? {
      return None;
    }
    var t := raw.value;
    record := record.(transcript := record.transcript.(effort := t.effort, maxTurns := t.maxTurns, agentError := t.agentError));
    if t.agentError != "" {
      return Some(record.(failure := Product, message := t.agentError, score := Unscored));
    }
    var form := FormFrom(j, t);
    if form.Err? {
      if t.maxTurns {
        return Some(record.(failure := NoFailure, message := "", score := j.grade(task, ABSTENTION)));
      }
      return Some(record.(failure := Scoring, message := form.message, score := Unscored));
    }
    return Some(record.(failure := NoFailure, message := "", score := j.grade(task, form.value)));
  }

  /** Regrade */
  method Regrade(j: Judge, a: Archive, records: seq<Record>) returns (out: Option<seq<Record>>)
    ensures out == RegradeAll(j, a, Latest(records))
    ensures RegradedEach(j, a, Latest(records), out)
  {
    var byId := TasksById(a.tasks);
    var rs := LatestRunRecords(records);
    var done: seq<Record> := [];
    for i := 0 to |rs|
      invariant RegradeAll(j, a, rs[..i]) == Some(done)
    {
      assert rs[..i + 1][..i] == rs[..i];
      var record := None;
      if rs[i].task in byId {
        record := RegradeRecord(j, a, byId[rs[i].task], rs[i]);
      }
      if record.None? {
        RegradeStops(j, a, rs, i + 1);
        AllRegraded(j, a, rs);
        return None;
      }
      done := done + [record.value];
    }
    assert rs[..|rs|] == rs;
    AllRegraded(j, a, rs);
    out := Some(done);
  }

  lemma {:induction false} RegradeStops(j: Judge, a: Archive, rs: seq<Record>, n: nat)
    requires n <= |rs| && RegradeAll(j, a, rs[..n]).None?
    ensures RegradeAll(j, a, rs).None?
    decreases |rs|
  {
    if n < |rs| {
      assert rs[..|rs| - 1][..n] == rs[..n];
      RegradeStops(j, a, rs[..|rs| - 1], n);
    } else {
      assert rs[..n] == rs;
    }
  }

  // ---- Agreement ----

  /** The raw stream of a run is on disk, and parsing it again gives what the run parsed. The path
      is not in the stream: the run fills it in behind the parser, which leaves it empty. */
  predicate OnDisk(a: Archive, t: Transcript)
  {
    t.rawPath != "" && a.files(t.rawPath) == Some(t.(rawPath := ""))
  }

  /** An attempt that reached scoring left its stream on disk. */
  predicate Archived(a: Archive, at: Attempt)
  {
    at.environment.None? && at.error.None? && at.transcript.agentError == "" ==> OnDisk(a, at.transcript)
  }

  /** For every record runOne makes, stored and then regraded with the same task and judge:
      nothing changes at all. */
  lemma GradingAgrees(j: Judge, a: Archive, campaign: string, task: Task, arm: string, rep: int, at: Attempt)
    requires TaskOf(a.tasks, task.id) == Some(task) && Archived(a, at)
    ensures var r := Stored(RunOne(j, campaign, task, arm, rep, at)); RegradeOne(j, a, r) == Some(r)
  {
    var t := at.transcript;
    assert FormFrom(j, t.(rawPath := "")) == FormFrom(j, t);
  }

  lemma RegradeOneTwice(j: Judge, a: Archive, r: Record)
    ensures var once := RegradeOne(j, a, r);
            once.Some? ==> RegradeOne(j, a, once.value) == once && KeyOf(once.value) == KeyOf(r)
  {
  }

  /** Regrading keeps the keys, one by one. */
  lemma {:induction false} RegradeKeepsKeys(j: Judge, a: Archive, rs: seq<Record>)
    requires RegradeAll(j, a, rs).Some?
    ensures var out := RegradeAll(j, a, rs).value;
            |out| == |rs| && forall k :: 0 <= k < |rs| ==>
              KeyOf(out[k]) == KeyOf(rs[k]) && RegradeOne(j, a, rs[k]) == Some(out[k])
    decreases |rs|
  {
    if rs != [] {
      RegradeKeepsKeys(j, a, rs[..|rs| - 1]);
      RegradeOneTwice(j, a, rs[|rs| - 1]);
    }
  }

  lemma {:induction false} FixedRecords(j: Judge, a: Archive, rs: seq<Record>)
    requires forall k :: 0 <= k < |rs| ==> RegradeOne(j, a, rs[k]) == Some(rs[k])
    ensures RegradeAll(j, a, rs) == Some(rs)
    decreases |rs|
  {
    if rs != [] {
      FixedRecords(j, a, rs[..|rs| - 1]);
      assert rs == rs[..|rs| - 1] + [rs[|rs| - 1]];
    }
  }

  /** Regrade is idempotent, and its result has exactly the keys of the newest records, in their
      order. */
  lemma RegradeIdempotent(j: Judge, a: Archive, records: seq<Record>)
    requires RegradeAll(j, a, Latest(records)).Some?
    ensures var out := RegradeAll(j, a, Latest(records)).value;
            && RegradeAll(j, a, Latest(out)) == Some(out)
            && |out| == |Latest(records)|
            && forall k :: 0 <= k < |out| ==> KeyOf(out[k]) == KeyOf(Latest(records)[k])
  {
    var ls := Latest(records);
    var out := RegradeAll(j, a, ls).value;
    RegradeKeepsKeys(j, a, ls);
    OnePerKey(records, |records|);
    AllNewest(out, |out|);
    assert out[..|out|] == out;
    forall k | 0 <= k < |out| ensures RegradeOne(j, a, out[k]) == Some(out[k]) {
      RegradeOneTwice(j, a, ls[k]);
    }
    FixedRecords(j, a, out);
  }

  /** A campaign whose every record agrees is returned as its newest records, unchanged. */
  lemma RegradeUnchanged(j: Judge, a: Archive, records: seq<Record>)
    requires forall k :: 0 <= k < |records| ==> RegradeOne(j, a, records[k]) == Some(records[k])
    ensures RegradeAll(j, a, Latest(records)) == Some(Latest(records))
  {
    var ls := Latest(records);
    NewestMembers(records, |records|);
    forall k | 0 <= k < |ls| ensures RegradeOne(j, a, ls[k]) == Some(ls[k]) {
      assert ls[k] in ls;
    }
    FixedRecords(j, a, ls);
  }

  // ---- Another task definition ----

  /** The attempt came to an answer that is judged. */
  predicate Answered(at: Attempt)
  {
    at.environment.None? && at.error.None? && at.transcript.agentError == ""
  }

  predicate Graded(r: Record) { r.failure.NoFailure? || r.failure.Scoring? }

  /** Failure and score, from the texts of the transcript: the final message counts if it holds a
      form, else an earlier form, and an exhausted budget without any form is an abstention. */
  predicate ScoredRight(j: Judge, task: Task, t: Transcript, failure: Failure, message: string, score: Score)
  {
    var first, second := j.parse(t.output), j.parse(t.formText);
    var formless := first.Err? && (t.formText == "" || second.Err?);
    && (first.Ok? ==> failure.NoFailure? && message == "" && score == j.grade(task, first.value))
    && (first.Err? && !formless ==> failure.NoFailure? && message == "" && score == j.grade(task, second.value))
    && (formless && t.maxTurns ==> failure.NoFailure? && message == "" && score == j.grade(task, ABSTENTION))
    && (formless && !t.maxTurns ==>
          && failure.Scoring? && score.Unscored?
          && message == if t.formText == "" then first.message else second.message)
  }

  lemma JudgedRight(j: Judge, task: Task, t: Transcript)
    ensures var v := Judged(j, task, t); ScoredRight(j, task, t, v.failure, v.message, v.score)
  {
  }

  /** What becomes of every attempt. */
  lemma RunClassified(j: Judge, campaign: string, task: Task, arm: string, rep: int, at: Attempt)
    ensures var r := RunOne(j, campaign, task, arm, rep, at);
            && KeyOf(r) == Key(task.id, arm, rep) && r.campaign == campaign && r.repo == task.repo && r.development == task.development
            && (at.environment.Some? ==> r.failure.Infrastructure? && r.message == at.environment.value && r.transcript == NO_TRANSCRIPT)
            && (at.environment.None? ==> r.transcript == at.transcript)
            && (at.environment.None? && at.error.Some? ==> r.failure.Product? && r.message == at.error.value)
            && (at.environment.None? && at.error.None? && at.transcript.agentError != "" ==>
                  r.failure.Product? && r.message == at.transcript.agentError)
            && (Answered(at) ==> ScoredRight(j, task, at.transcript, r.failure, r.message, r.score))
            && (!Answered(at) ==> r.score.Unscored?)
            && (Graded(r) <==> Answered(at))
  {
    JudgedRight(j, task, at.transcript);
  }

  /** Regrading with another definition of the task gives what the run would have recorded under it;
      a run that was never judged stays as it is. */
  lemma RegradeFollowsTask(j: Judge, a: Archive, campaign: string, was: Task, now: Task, arm: string, rep: int, at: Attempt)
    requires TaskOf(a.tasks, was.id) == Some(now) && now.repo == was.repo && Archived(a, at)
    ensures RegradeOne(j, a, Stored(RunOne(j, campaign, was, arm, rep, at)))
            == Some(Stored(RunOne(j, campaign, if Answered(at) then now else was, arm, rep, at)))
  {
    TaskOfId(a.tasks, was.id);
    var t := at.transcript;
    assert FormFrom(j, t.(rawPath := "")) == FormFrom(j, t);
  }

  lemma {:induction false} TaskOfId(tasks: seq<Task>, id: string)
    ensures TaskOf(tasks, id).Some? ==> TaskOf(tasks, id).value.id == id
    decreases |tasks|
  {
    if tasks != [] {
      TaskOfId(tasks[..|tasks| - 1], id);
    }
  }

  /** Two records of one run. */
  predicate SameRun(r: Record, s: Record)
  {
    && KeyOf(r) == KeyOf(s) && r.campaign == s.campaign && r.repo == s.repo
    && r.transcript.rawPath == s.transcript.rawPath && r.transcript.tokens == s.transcript.tokens
    && r.transcript.output == s.transcript.output && r.transcript.formText == s.transcript.formText
  }

  /** What a judged record said of its score, its failure or its effort has no say in what it is
      regraded to. */
  lemma RegradeForgets(j: Judge, a: Archive, r: Record, s: Record)
    requires SameRun(r, s) && Graded(r) && Graded(s)
    ensures RegradeOne(j, a, r) == RegradeOne(j, a, s)
  {
  }

  /** What regrading one record comes to: it succeeds if the task is defined and, for a judged record, its
      stream is there; only a judged record changes, and then failure and score are those of the stream
      under the definition of now. */
  predicate Regraded(j: Judge, a: Archive, r: Record, out: Option<Record>)
  {
    var task, t := TaskOf(a.tasks, r.task), a.files(r.transcript.rawPath);
    && (out.Some? <==> task.Some? && (Graded(r) ==> r.transcript.rawPath != "" && t.Some?))
    && (out.Some? && !Graded(r) ==> out.value == r)
    && (out.Some? && Graded(r) ==> RegradedAs(j, task.value, t.value, r, out.value))
  }

  predicate RegradedAs(j: Judge, task: Task, t: Transcript, r: Record, out: Record)
  {
    && SameRun(out, r) && out.development == task.development && out.transcript.effort == t.effort
    && out.transcript.maxTurns == t.maxTurns && out.transcript.agentError == t.agentError
    && if t.agentError != "" then out.failure.Product? && out.message == t.agentError && out.score.Unscored?
       else ScoredRight(j, task, t, out.failure, out.message, out.score)
  }

  lemma RegradeExactly(j: Judge, a: Archive, r: Record)
    ensures Regraded(j, a, r, RegradeOne(j, a, r))
  {
    var task, t := TaskOf(a.tasks, r.task), a.files(r.transcript.rawPath);
    if task.Some? && t.Some? {
      JudgedRight(j, task.value, t.value);
    }
  }

  /** Each record is scored again, or the whole fails because one cannot be. */
  predicate RegradedEach(j: Judge, a: Archive, rs: seq<Record>, out: Option<seq<Record>>)
  {
    && (out.Some? <==> forall k :: 0 <= k < |rs| ==> RegradeOne(j, a, rs[k]).Some?)
    && (out.Some? ==> |out.value| == |rs| && forall k :: 0 <= k < |rs| ==> Regraded(j, a, rs[k], Some(out.value[k])))
  }

  lemma AllRegraded(j: Judge, a: Archive, rs: seq<Record>)
    ensures RegradedEach(j, a, rs, RegradeAll(j, a, rs))
  {
    var out := RegradeAll(j, a, rs);
    RegradeAllExactly(j, a, rs);
    if out.Some? {
      RegradeKeepsKeys(j, a, rs);
      forall k | 0 <= k < |rs| ensures Regraded(j, a, rs[k], Some(out.value[k])) {
        RegradeExactly(j, a, rs[k]);
      }
    }
  }

  /** The definition that counts is the last with this id. */
  lemma {:induction false} TaskOfIsLast(tasks: seq<Task>, id: string)
    ensures TaskOf(tasks, id).None? <==> forall i :: 0 <= i < |tasks| ==> tasks[i].id != id
    ensures TaskOf(tasks, id).Some? ==>
              exists i :: 0 <= i < |tasks| && tasks[i] == TaskOf(tasks, id).value && tasks[i].id == id
                          && forall k :: i < k < |tasks| ==> tasks[k].id != id
    decreases |tasks|
  {
    if tasks != [] {
      var last := |tasks| - 1;
      TaskOfIsLast(tasks[..last], id);
      if tasks[last].id == id {
        assert tasks[last] == TaskOf(tasks, id).value;
      } else if TaskOf(tasks, id).Some? {
        var i :| 0 <= i < last && tasks[..last][i] == TaskOf(tasks, id).value && tasks[i].id == id
                 && forall k :: i < k < last ==> tasks[..last][k].id != id;
        assert forall k :: i < k < last ==> tasks[k] == tasks[..last][k];
        assert tasks[i] == TaskOf(tasks, id).value;
      }
    }
  }

  /** A campaign regrades if and only if each of its records does. */
  lemma {:induction false} RegradeAllExactly(j: Judge, a: Archive, rs: seq<Record>)
    ensures RegradeAll(j, a, rs).Some? <==> forall k :: 0 <= k < |rs| ==> RegradeOne(j, a, rs[k]).Some?
    decreases |rs|
  {
    if rs != [] {
      var before := rs[..|rs| - 1];
      RegradeAllExactly(j, a, before);
      assert forall k :: 0 <= k < |before| ==> rs[k] == before[k];
    }
  }
}
