/** The loop guard: the tracker of one room, and a poller's memory of it across retries. Whether
    a message brings new content is an abstract function of the window before it. */
module LoopGuard {
  import opened Text
  import opened WakeRule

  const WINDOW := 6
  const HOLD_STREAK := 5
  const DECAY := 600
  const NOTICE_PREFIX := "[loop-guard] "

  type Novelty = (seq<Message>, Message) -> bool

  datatype Tracker = Tracker(window: seq<Message>, streak: nat, last: string, prevAt: Option<int>)

  const FRESH := Tracker([], 0, "", None)

  predicate Holds(streak: nat) { streak >= HOLD_STREAK }

  /** LoopTracker.Add; the streak it reports is the tracker's own. */
  function Add(novel: Novelty, t: Tracker, m: Message): Tracker
  {
    if HasPrefix(m.body, NOTICE_PREFIX) then t
    else
      var quiet := m.createdAt.Some? && t.prevAt.Some? && m.createdAt.value - t.prevAt.value > DECAY;
      var prevAt := if m.createdAt.Some? then m.createdAt else t.prevAt;
      var streak, last := if quiet then 0 else t.streak, if quiet then "" else t.last;
      var window := Trimmed(t.window + [m]);
      if m.human || novel(t.window, m) then Tracker(window, 0, "", prevAt)
      else Tracker(window, if last != "" && m.sender != last then streak + 1 else streak, m.sender, prevAt)
  }

  function Trimmed(w: seq<Message>): (r: seq<Message>)
    ensures |r| <= WINDOW
  {
    if |w| > WINDOW then w[|w| - WINDOW..] else w
  }

  /** The tracker after these messages, in order. */
  function Fold(novel: Novelty, ms: seq<Message>): Tracker
    decreases |ms|
  {
    if ms == [] then FRESH else Add(novel, Fold(novel, ms[..|ms| - 1]), ms[|ms| - 1])
  }

  /** Two participants at least: one agent talking to itself is never held. */
  lemma {:induction false} SoloNeverCounts(novel: Novelty, ms: seq<Message>, who: string)
    requires forall k :: 0 <= k < |ms| ==> ms[k].sender == who
    ensures var t := Fold(novel, ms); t.streak == 0 && (t.last == "" || t.last == who)
    decreases |ms|
  {
    if ms != [] {
      SoloNeverCounts(novel, ms[..|ms| - 1], who);
    }
  }

  function SenderChanges(ms: seq<Message>): nat
    decreases |ms|
  {
    if |ms| < 2 then 0
    else SenderChanges(ms[..|ms| - 1]) + if ms[|ms| - 2].sender != ms[|ms| - 1].sender then 1 else 0
  }

  /** A streak counts changes of sender: it never exceeds those of the conversation, so a hold
      takes at least five. Without notices and empty senders in between. */
  lemma {:induction false} StreakCountsRounds(novel: Novelty, ms: seq<Message>)
    requires forall k :: 0 <= k < |ms| ==> !HasPrefix(ms[k].body, NOTICE_PREFIX)
    ensures Fold(novel, ms).streak <= SenderChanges(ms)
    ensures ms != [] ==> Fold(novel, ms).last in ["", ms[|ms| - 1].sender]
    decreases |ms|
  {
    if ms != [] {
      StreakCountsRounds(novel, ms[..|ms| - 1]);
    }
  }

  // ---- A poller's memory of one room ----

  /** The tracker, the last message it was fed, and the streak it then reported. */
  datatype Room = Room(t: Tracker, lastId: nat, streak: nat)

  const EMPTY_ROOM := Room(FRESH, 0, 0)

  /** Poller.loopState: a message at or below the last one is a retry and is not fed again. */
  function Hear(novel: Novelty, r: Room, m: Message): Room
  {
    if m.id <= r.lastId then r
    else var t := Add(novel, r.t, m); Room(t, m.id, t.streak)
  }

  function HearAll(novel: Novelty, ms: seq<Message>): Room
    decreases |ms|
  {
    if ms == [] then EMPTY_ROOM else Hear(novel, HearAll(novel, ms[..|ms| - 1]), ms[|ms| - 1])
  }

  /** The highest id among these messages, 0 for none. */
  function Highest(ms: seq<Message>): nat
    decreases |ms|
  {
    if ms == [] then 0
    else var h := Highest(ms[..|ms| - 1]); if ms[|ms| - 1].id > h then ms[|ms| - 1].id else h
  }

  /** The messages that came up for the first time, in order: retries and older ones left out. */
  function Distinct(ms: seq<Message>): seq<Message>
    decreases |ms|
  {
    if ms == [] then []
    else
      var before, m := ms[..|ms| - 1], ms[|ms| - 1];
      if m.id > Highest(before) then Distinct(before) + [m] else Distinct(before)
  }

  /** After any run of handled messages, retries included, the tracker is the fold of Add over
      the distinct ones. */
  lemma {:induction false} RetriesDoNotCount(novel: Novelty, ms: seq<Message>)
    ensures HearAll(novel, ms) == Room(Fold(novel, Distinct(ms)), Highest(ms), Fold(novel, Distinct(ms)).streak)
    decreases |ms|
  {
    if ms != [] {
      var before, m := ms[..|ms| - 1], ms[|ms| - 1];
      RetriesDoNotCount(novel, before);
      assert (Distinct(before) + [m])[..|Distinct(before)|] == Distinct(before);
    }
  }

  /** Distinct messages come in growing order of id and each handled id occurs exactly once. */
  lemma {:induction false} DistinctGrows(ms: seq<Message>)
    ensures forall j, k :: 0 <= j < k < |Distinct(ms)| ==> Distinct(ms)[j].id < Distinct(ms)[k].id
    ensures forall k :: 0 <= k < |Distinct(ms)| ==> Distinct(ms)[k].id <= Highest(ms) && Distinct(ms)[k] in ms
    decreases |ms|
  {
    if ms != [] {
      DistinctGrows(ms[..|ms| - 1]);
    }
  }
}
