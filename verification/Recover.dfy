/** Records made again from raw streams, after the journal lost them: when they are the lost ones. */
module Recover {
  import opened Text
  import opened Journal
  import opened Grading
  import opened Campaign
  import opened RawStreams

  /** What the name of a stream and the task definition say. */
  function Skeleton(name: string, slot: Slot, path: string): Record
  {
    Record(name, slot.task.id, slot.task.repo, slot.arm, slot.rep, slot.task.development, Unscored,
           NO_TRANSCRIPT.(rawPath := path), NoFailure, "")
  }

  /** RecoverFromTranscripts for one stream; None where the whole recovery fails. */
  function Recovered(j: Judge, agent: Agent, tasks: seq<Task>, disk: Disk, name: string, slot: Slot): Option<Record>
  {
    RegradeOne(j, ArchiveOf(agent, tasks, disk), Skeleton(name, slot, agent.path(SlotKey(slot))))
  }

  /** What the journal would hold of this run. */
  function LostRecord(j: Judge, agent: Agent, name: string, slot: Slot, e: Event): Record
  {
    Stored(RunOne(j, name, slot.task, slot.arm, slot.rep, AttemptOf(agent, SlotKey(slot), e)))
  }

  /** Regrading copies no tokens. */
  function Untold(r: Record): Record { r.(transcript := r.transcript.(tokens := 0)) }

  /** The command failed in a way its stream does not tell: the stream carries no error, or another
      one. */
  predicate FailedSilently(t: Transcript, exit: Option<string>)
  {
    exit.Some? && !t.maxTurns && (t.agentError == "" || exit.value != t.agentError)
  }

  lemma ScoredAgain(j: Judge, agent: Agent, tasks: seq<Task>, name: string, slot: Slot, e: Event, disk: Disk)
    requires TaskOf(tasks, slot.task.id) == Some(slot.task) && agent.path(SlotKey(slot)) != ""
    requires e.Ran? && e.writing.Whole? && agent.parse(e.output).error.None?
    requires e.exit.None? || agent.parse(e.output).transcript.maxTurns
    ensures var got := Recovered(j, agent, tasks, DiskAfter(agent, SlotKey(slot), e, disk), name, slot);
            got == Some(Untold(LostRecord(j, agent, name, slot, e)))
  {
    var t := agent.parse(e.output).transcript;
    assert FormFrom(j, t.(rawPath := agent.path(SlotKey(slot)))) == FormFrom(j, t);
  }

  lemma FailedAgain(j: Judge, agent: Agent, tasks: seq<Task>, name: string, slot: Slot, e: Event, disk: Disk)
    requires TaskOf(tasks, slot.task.id) == Some(slot.task) && agent.path(SlotKey(slot)) != ""
    requires e.Ran? && e.writing.Whole? && agent.parse(e.output).error.None?
    requires e.exit.Some? && !agent.parse(e.output).transcript.maxTurns
    ensures var got := Recovered(j, agent, tasks, DiskAfter(agent, SlotKey(slot), e, disk), name, slot);
            got == Some(Untold(LostRecord(j, agent, name, slot, e))) <==> !FailedSilently(agent.parse(e.output).transcript, e.exit)
  {
  }

  /** A record lost behind its stream is made again, but for its tokens, if and only if the command
      did not fail silently. A stream that does not parse stops the recovery of all; a record that was
      made again counts as attempted and regrades to itself. */
  lemma RecoveredExactly(j: Judge, agent: Agent, tasks: seq<Task>, name: string, slot: Slot, e: Event, disk: Disk)
    requires TaskOf(tasks, slot.task.id) == Some(slot.task) && agent.path(SlotKey(slot)) != ""
    requires e.Ran? && e.writing.Whole?
    ensures var parsed := agent.parse(e.output);
            var after := DiskAfter(agent, SlotKey(slot), e, disk);
            var got := Recovered(j, agent, tasks, after, name, slot);
            && (got.None? <==> parsed.error.Some?)
            && (got.Some? ==>
                  && (got.value == Untold(LostRecord(j, agent, name, slot, e)) <==> !FailedSilently(parsed.transcript, e.exit))
                  && KeyOf(got.value) == SlotKey(slot) && !Unattempted(got.value)
                  && RegradeOne(j, ArchiveOf(agent, tasks, after), got.value) == got)
  {
    var after := DiskAfter(agent, SlotKey(slot), e, disk);
    RegradeOneTwice(j, ArchiveOf(agent, tasks, after), Skeleton(name, slot, agent.path(SlotKey(slot))));
    if agent.parse(e.output).error.None? {
      if e.exit.None? || agent.parse(e.output).transcript.maxTurns {
        ScoredAgain(j, agent, tasks, name, slot, e, disk);
      } else {
        FailedAgain(j, agent, tasks, name, slot, e, disk);
      }
    }
  }
}
