/** One round of the pause syncer as a function of its state and of everything it is answered. */
module PauseModel {
  import opened Text
  import opened AckLog

  /** What lies at the flag path: nothing, a small regular file (its control, 0 when it cannot be
      parsed), anything else, or a directory that cannot be looked into. */
  datatype Flag = Nothing | Regular(control: int) | Odd | Hidden

  /** ReadFlag: the control of a set flag. */
  function ReadFlag(f: Flag): Option<int>
  {
    match f
    case Nothing => None
    case Regular(control) => Some(control)
    case Odd => Some(0)
    case Hidden => None
  }

  /** Gate: whether the hook denies a tool call. */
  predicate Gates(agent: string, f: Flag) { agent != "" && ReadFlag(f).Some? }

  datatype Control = Control(id: nat, resumedAt: string)

  datatype Recording = Recorded | Rejected | Broken

  datatype Event =
    | Asked(ok: bool, active: Option<Control>, resumed: Option<Control>)
    | Wrote(id: nat, ok: bool)                  // flag file
    | Read(count: nat)                          // ack file
    | Reported(end: nat, control: int, outcome: Recording)
    | Removed(ok: bool)                         // flag file
    | Cleared(ok: bool)                         // ack file
    | ReadyAsked(ready: bool)
    | Told(id: nat, ok: bool)                   // resume notice

  type Trace = seq<Event>

  /** One answer of server, disk and channel. `grown` is what hooks have appended to the ack file
      since it was last read. */
  datatype Answer = Answer(ok: bool, active: Option<Control>, resumed: Option<Control>, grown: string,
                           outcome: Recording, ready: bool)

  datatype World = World(answers: nat -> Answer, parse: LineParser, hasNotifier: bool)

  function Ask(w: World, t: Trace): Answer { w.answers(|t|) }

  datatype State = State(flag: Flag, acks: Option<string>, offset: nat, seen: set<nat>, announced: set<nat>)

  datatype Round = Round(failed: bool, st: State, t: Trace)

  /** The ack file after hooks appended to it. */
  function Grow(file: Option<string>, more: string): Option<string>
  {
    match file
    case None => if more == "" then None else Some(more)
    case Some(text) => Some(text + more)
  }

  datatype Report = Report(failed: bool, offset: nat, t: Trace)

  /** The loop over the acks of one read. */
  function ReportFrom(w: World, acks: seq<Ack>, k: nat, offset: nat, t: Trace): Report
    requires k <= |acks|
    decreases |acks| - k
  {
    if k == |acks| then Report(false, offset, t)
    else if acks[k].control <= 0 then ReportFrom(w, acks, k + 1, acks[k].end, t)
    else
      var outcome := Ask(w, t).outcome;
      var t1 := t + [Reported(acks[k].end, acks[k].control, outcome)];
      if outcome.Broken? then Report(true, offset, t1) else ReportFrom(w, acks, k + 1, acks[k].end, t1)
  }

  function ReadLog(parse: LineParser, file: Option<string>, offset: nat): Reading
  {
    match file case None => Reading([], offset) case Some(text) => ReadFrom(parse, text, StartOf(text, offset))
  }

  /** reportAcks */
  function ReportAcks(w: World, st: State, t: Trace): Round
  {
    var file := Grow(st.acks, Ask(w, t).grown);
    var r := ReadLog(w.parse, file, st.offset);
    var p := ReportFrom(w, r.acks, 0, st.offset, t + [Read(|r.acks|)]);
    Round(p.failed, st.(acks := file, offset := if p.failed then p.offset else r.next), p.t)
  }

  /** announceResume */
  function Announce(w: World, st: State, resumed: Option<Control>, t: Trace): Round
  {
    if !w.hasNotifier || resumed.None? || resumed.value.resumedAt == "" || resumed.value.id !in st.seen
       || resumed.value.id in st.announced then Round(false, st, t)
    else
      var id, ready := resumed.value.id, Ask(w, t).ready;
      var t1 := t + [ReadyAsked(ready)];
      if !ready then Round(false, st, t1)
      else
        var ok := Ask(w, t1).ok;
        Round(!ok, if ok then st.(announced := st.announced + {id}) else st, t1 + [Told(id, ok)])
  }

  /** Mirroring an active control into the flag. */
  function Mirror(w: World, st: State, c: Control, t: Trace): Round
  {
    var st1 := st.(seen := st.seen + {c.id});
    if ReadFlag(st.flag) == Some(c.id) then Round(false, st1, t)
    else
      var ok := Ask(w, t).ok;
      Round(!ok, if ok then st1.(flag := Regular(c.id)) else st1, t + [Wrote(c.id, ok)])
  }

  /** Lifting: flag and ack file go, the notice is sent. */
  function Lift(w: World, st: State, resumed: Option<Control>, t: Trace): Round
  {
    var gone := Ask(w, t).ok;
    var t1 := t + [Removed(gone)];
    var cleared := Ask(w, t1).ok;
    var st1 := st.(flag := if gone then Nothing else st.flag, acks := if cleared then None else st.acks, offset := 0);
    Announce(w, st1, resumed, t1 + [Cleared(cleared)])
  }

  /** sync */
  function Sync(w: World, st: State, t: Trace): Round
  {
    var a := Ask(w, t);
    var t1 := t + [Asked(a.ok, a.active, a.resumed)];
    if !a.ok then Round(true, st, t1)
    else if a.active.Some? then
      var m := Mirror(w, st, a.active.value, t1);
      if m.failed then m else ReportAcks(w, m.st, m.t)
    else
      var r := ReportAcks(w, st, t1);
      var l := Lift(w, r.st, a.resumed, r.t);
      Round(r.failed || l.failed, l.st, l.t)
  }

  /** sync as a value. */
  type Syncing = (State, Trace) -> Round

  function SyncOf(w: World): Syncing
  {
    (st: State, t: Trace) => Sync(w, st, t)
  }

  /** n rounds, one after the other. */
  function Rounds(sync: Syncing, st: State, n: nat): Round
    decreases n
  {
    if n == 0 then Round(false, st, []) else var r := Rounds(sync, st, n - 1); sync(r.st, r.t)
  }

  function Syncs(w: World, st: State, n: nat): Round { Rounds(SyncOf(w), st, n) }
}
