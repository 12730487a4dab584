/** The agent's raw streams: one file per task, arm and repetition, written over by every run. */
module RawStreams {
  import opened Text
  import opened Journal
  import opened Grading
  import opened Campaign

  /** The raw files by path. */
  type Disk = map<string, string>

  /** parseStreamJSON: the transcript so far, and the error of the scanner. */
  datatype Parsed = Parsed(transcript: Transcript, error: Option<string>)

  /** The parser does not know where its stream lies. */
  ghost predicate Pathless(parse: string -> Parsed)
  {
    forall s {:trigger parse(s)} :: parse(s).transcript.rawPath == ""
  }

  type Parser = p: string -> Parsed | Pathless(p) ghost witness (s: string) => Parsed(NO_TRANSCRIPT, None)

  /** The parser, and where the stream of a run goes; "" where there is no directory for it. */
  datatype Agent = Agent(parse: Parser, path: Key -> string)

  /** Whether the stream could be written; if not, what the file holds now (None: what it held). */
  datatype Writing = Whole | Broken(message: string, left: Option<string>)

  /** What a run meets: no environment for its arm, or the output of the command, its exit, and the
      disk. */
  datatype Event = NoEnvironment(message: string) | Ran(output: string, exit: Option<string>, writing: Writing)

  /** ClaudeCodeAgent.Run, or the environment that is missing. */
  function AttemptOf(agent: Agent, k: Key, e: Event): Attempt
  {
    match e
    case NoEnvironment(message) => Attempt(Some(message), NO_TRANSCRIPT, None)
    case Ran(output, exit, writing) =>
      if agent.path(k) != "" && writing.Broken? then Attempt(None, NO_TRANSCRIPT, Some(writing.message))
      else
        var parsed := agent.parse(output);
        var t := parsed.transcript.(rawPath := agent.path(k));
        if parsed.error.Some? then Attempt(None, t, parsed.error)
        else if exit.Some? && !t.maxTurns then Attempt(None, t, exit)
        else Attempt(None, t, None)
  }

  /** writeRaw */
  function DiskAfter(agent: Agent, k: Key, e: Event, disk: Disk): Disk
  {
    if e.NoEnvironment? || agent.path(k) == "" then disk
    else match e.writing
      case Whole => disk[agent.path(k) := e.output]
      case Broken(_, None) => disk
      case Broken(_, Some(left)) => disk[agent.path(k) := left]
  }

  /** What regrading finds on this disk. */
  function ArchiveOf(agent: Agent, tasks: seq<Task>, disk: Disk): Archive
  {
    Archive(tasks, (p: string) =>
      if p in disk && agent.parse(disk[p]).error.None? then Some(agent.parse(disk[p]).transcript) else None)
  }

  /** An attempt that reaches scoring has left its stream, and it parses again to what was scored. */
  lemma ScoredIsArchived(agent: Agent, tasks: seq<Task>, k: Key, e: Event, disk: Disk)
    requires agent.path(k) != ""
    ensures Archived(ArchiveOf(agent, tasks, DiskAfter(agent, k, e, disk)), AttemptOf(agent, k, e))
    ensures var t := AttemptOf(agent, k, e).transcript; t.rawPath == agent.path(k) || t.rawPath == ""
  {
  }

  // ---- Where the streams of a campaign lie ----

  /** The path of a run's stream: a directory per arm, and task, arm and repetition in the name. */
  function RawPath(out: string, k: Key): string
  {
    out + "/raw/" + k.arm + "/" + RawName(k)
  }

  function RawName(k: Key): string
  {
    k.task + "--" + k.arm + "--r" + Itoa(if k.rep < 1 then 1 else k.rep) + ".jsonl"
  }

  /** Every run of the plan has a path, and no other run has it. */
  ghost predicate Apart(path: Key -> string, plan: seq<Slot>)
  {
    && (forall x :: x in plan ==> path(SlotKey(x)) != "")
    && (forall x, y :: x in plan && y in plan && path(SlotKey(x)) == path(SlotKey(y)) ==> SlotKey(x) == SlotKey(y))
  }

  function ArmPart(arm: string): string { "--" + arm + "--" }

  lemma NameShape(k: Key)
    requires k.rep >= 1
    ensures RawName(k) == (k.task + ArmPart(k.arm)) + ['r'] + Itoa(k.rep) + ".jsonl"
  {
    assert "--r" == "--" + ['r'];
    assert k.task + "--" + k.arm + ("--" + ['r']) == k.task + ArmPart(k.arm) + ['r'];
  }

  lemma NamesApart(k: Key, l: Key)
    requires RawName(k) == RawName(l) && k.arm == l.arm && k.rep >= 1 && l.rep >= 1
    ensures k == l
  {
    var a, b := k.task + ArmPart(k.arm), l.task + ArmPart(l.arm);
    NameShape(k);
    NameShape(l);
    SameFront(a + ['r'] + Itoa(k.rep), b + ['r'] + Itoa(l.rep), ".jsonl");
    SameTail(a, b, Itoa(k.rep), Itoa(l.rep), 'r');
    SameFront(k.task, l.task, ArmPart(k.arm));
    ItoaInjective(k.rep, l.rep);
  }

  /** Arms are directory names: no slash in them. */
  predicate PlainArms(plan: seq<Slot>)
  {
    forall x :: x in plan ==> '/' !in x.arm && x.rep >= 1
  }

  /** In this layout no two runs share a file, whatever the task ids hold. */
  lemma LayoutApart(out: string, plan: seq<Slot>)
    requires PlainArms(plan)
    ensures Apart((k: Key) => RawPath(out, k), plan)
  {
    forall x, y | x in plan && y in plan && RawPath(out, SlotKey(x)) == RawPath(out, SlotKey(y)) ensures SlotKey(x) == SlotKey(y) {
      PathsApart(out, SlotKey(x), SlotKey(y));
    }
  }

  lemma PathsApart(out: string, k: Key, l: Key)
    requires RawPath(out, k) == RawPath(out, l) && '/' !in k.arm && '/' !in l.arm && k.rep >= 1 && l.rep >= 1
    ensures k == l
  {
    var root := out + "/raw/";
    assert RawPath(out, k) == root + (k.arm + ['/'] + RawName(k)) && RawPath(out, l) == root + (l.arm + ['/'] + RawName(l));
    SameBack(root, k.arm + ['/'] + RawName(k), l.arm + ['/'] + RawName(l));
    SameHead(k.arm, l.arm, RawName(k), RawName(l), '/');
    NamesApart(k, l);
  }
}
