/** The pause syncer as it runs, over the flag file and the ack log. */
module PauseSyncer {
  import opened Text
  import opened AckLog
  import opened PauseModel

  class Syncer {
    const w: World
    var flag: Flag                  // files
    var acks: Option<string>
    var ackOffset: nat              // memory
    var seen: set<nat>
    var announced: set<nat>
    var trace: Trace

    constructor (w: World, flag: Flag, acks: Option<string>)
      ensures this.w == w && Now() == State(flag, acks, 0, {}, {}) && trace == []
    {
      this.w, this.flag, this.acks := w, flag, acks;
      ackOffset, seen, announced, trace := 0, {}, {}, [];
    }

    ghost function Now(): State
      reads this
    {
      State(flag, acks, ackOffset, seen, announced)
    }

    method Log(e: Event)
      modifies this`trace
      ensures trace == old(trace) + [e]
    {
      trace := trace + [e];
    }

    /** reportAcks: the offset stays behind the last line that was reported or dropped. */
    method Report() returns (failed: bool)
      modifies this`acks, this`ackOffset, this`trace
      ensures Round(failed, Now(), trace) == ReportAcks(w, old(Now()), old(trace))
    {
      acks := Grow(acks, Ask(w, trace).grown);
      var found, next := ReadAcks(w.parse, acks, ackOffset);
      Log(Read(|found|));
      ghost var all := ReportFrom(w, found, 0, ackOffset, trace);
      for k := 0 to |found|
        invariant ReportFrom(w, found, k, ackOffset, trace) == all
        invariant flag == old(flag) && seen == old(seen) && announced == old(announced)
        invariant acks == Grow(old(acks), Ask(w, old(trace)).grown)
      {
        var a := found[k];
        if a.control > 0 {
          var outcome := Ask(w, trace).outcome;
          Log(Reported(a.end, a.control, outcome));
          if outcome.Broken? {
            return true;
          }
        }
        ackOffset := a.end;
      }
      ackOffset := next;
      return false;
    }

    /** announceResume */
    method AnnounceResume(resumed: Option<Control>) returns (failed: bool)
      modifies this`announced, this`trace
      ensures Round(failed, Now(), trace) == Announce(w, old(Now()), resumed, old(trace))
    {
      if !w.hasNotifier || resumed.None? || resumed.value.resumedAt == "" {
        return false;
      }
      var id := resumed.value.id;
      if id !in seen || id in announced {
        return false;
      }
      var ready := Ask(w, trace).ready;
      Log(ReadyAsked(ready));
      if !ready {
        return false;
      }
      var ok := Ask(w, trace).ok;
      Log(Told(id, ok));
      if !ok {
        return true;
      }
      announced := announced + {id};
      return false;
    }

    /** sync. A server error leaves everything; a success with an active control leaves its flag
        set, one without removes flag and acks where the disk lets it. */
    method SyncOnce() returns (failed: bool)
      modifies this
      ensures Round(failed, Now(), trace) == Sync(w, old(Now()), old(trace))
      ensures var a := Ask(w, old(trace));
              && (!a.ok ==> failed && Now() == old(Now()))
              && (a.ok && a.active.Some? && !failed ==> ReadFlag(flag) == Some(a.active.value.id))
              && (a.ok && a.active.Some? ==> flag == old(flag) || flag == Regular(a.active.value.id))
              && (a.ok && a.active.None? ==> ackOffset == 0 && (flag == Nothing || flag == old(flag)))
    {
      var a := Ask(w, trace);
      Log(Asked(a.ok, a.active, a.resumed));
      if !a.ok {
        return true;
      }
      if a.active.Some? {
        var c := a.active.value;
        seen := seen + {c.id};
        if ReadFlag(flag) != Some(c.id) {
          var ok := Ask(w, trace).ok;
          Log(Wrote(c.id, ok));
          if !ok {
            return true;
          }
          flag := Regular(c.id);
        }
      }
      failed := Report();
      if a.active.None? {
        var gone := Ask(w, trace).ok;
        Log(Removed(gone));
        if gone {
          flag := Nothing;
        }
        var cleared := Ask(w, trace).ok;
        Log(Cleared(cleared));
        if cleared {
          acks := None;
        }
        ackOffset := 0;
        var err := AnnounceResume(a.resumed);
        failed := failed || err;
      }
    }
  }
}
