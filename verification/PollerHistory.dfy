/** Any number of pollers of one identity, interleaved step by step, restarted and killed at any
    point: a message is written at most once, and only by the poller that won its claim. */
module PollerHistory {
  import opened Text
  import opened WakeRule
  import opened LoopGuard
  import opened PollerModel
  import opened PollerTrace

  // ---- The life of one poller ----

  /** The positions a process starts with: its predecessor's own, which had been saved (the hooks do
      that); none (the channel process); or others, because parallel hook calls load and save one
      file without a lock. */
  datatype Start = OwnPositions | NoPositions | OtherPositions(pos: map<string, nat>)

  /** A whole poll, a restart between two polls, a process that dies `cut` steps into its trace. A
      life that starts from saved positions begins with such a restart. */
  datatype Act = Call | Restart(from: Start) | CrashAt(cut: nat, from: Start)

  datatype Point = Point(st: Memory, t: Trace)

  function StartFrom(st: Memory, from: Start): Memory
  {
    match from
    case OwnPositions => Memory(st.pos, map[], {})
    case NoPositions => NEWBORN
    case OtherPositions(pos) => Memory(pos, map[], {})
  }

  function Cut(from: Trace, full: Trace, cut: nat): Trace
  {
    if |from| <= cut <= |full| then full[..cut] else full
  }

  function Do(w: World, careful: bool, p: Point, act: Act): Point
  {
    match act
    case Call => var r := Poll(w, careful, p.st, p.t); Point(r.st, r.t)
    case Restart(from) => Point(StartFrom(p.st, from), p.t + [Crashed])
    case CrashAt(cut, from) =>
      Point(StartFrom(p.st, from), Cut(p.t, Poll(w, careful, p.st, p.t).t, cut) + [Crashed])
  }

  function Life(w: World, careful: bool, acts: seq<Act>): Point
    decreases |acts|
  {
    if acts == [] then Point(NEWBORN, []) else Do(w, careful, Life(w, careful, acts[..|acts| - 1]), acts[|acts| - 1])
  }

  lemma CutKeeps(from: Trace, full: Trace, cut: nat)
    requires from <= full && PhaseOf(full) == Idle
    ensures from <= Cut(from, full, cut) && PhaseOf(Cut(from, full, cut)) != Wrong
  {
    if |from| <= cut <= |full| {
      PrefixKeeps(full, cut);
    }
  }

  lemma DoKeeps(w: World, careful: bool, p: Point, act: Act)
    requires PhaseOf(p.t) == Idle
    ensures PhaseOf(Do(w, careful, p, act).t) == Idle && p.t <= Do(w, careful, p, act).t
  {
    match act
    case Call => PollKeeps(w, careful, p.st, p.t);
    case Restart(_) => Then(p.t, Crashed);
    case CrashAt(cut, _) =>
      PollKeeps(w, careful, p.st, p.t);
      var full := Poll(w, careful, p.st, p.t).t;
      CutKeeps(p.t, full, cut);
      Then(Cut(p.t, full, cut), Crashed);
  }

  lemma {:induction false} LifeKeeps(w: World, careful: bool, acts: seq<Act>)
    ensures PhaseOf(Life(w, careful, acts).t) == Idle
    decreases |acts|
  {
    if acts != [] {
      LifeKeeps(w, careful, acts[..|acts| - 1]);
      DoKeeps(w, careful, Life(w, careful, acts[..|acts| - 1]), acts[|acts| - 1]);
    }
  }

  /** What a poller has done so far, possibly in the middle of a call. */
  ghost predicate Lived(w: World, careful: bool, t: Trace)
  {
    exists acts :: LivedBy(w, careful, acts, t)
  }

  ghost predicate LivedBy(w: World, careful: bool, acts: seq<Act>, t: Trace)
  {
    t <= Life(w, careful, acts).t
  }

  lemma LivedByKeeps(w: World, careful: bool, acts: seq<Act>, t: Trace)
    requires LivedBy(w, careful, acts, t)
    ensures PhaseOf(t) != Wrong
  {
    LifeKeeps(w, careful, acts);
    PrefixKeeps(Life(w, careful, acts).t, |t|);
    assert Life(w, careful, acts).t[..|t|] == t;
  }

  lemma LivedKeeps(w: World, careful: bool, t: Trace)
    requires Lived(w, careful, t)
    ensures PhaseOf(t) != Wrong
  {
    var acts :| LivedBy(w, careful, acts, t);
    LivedByKeeps(w, careful, acts, t);
  }

  // ---- All of them together ----

  /** One step of poller p, or the agent itself reading its inbox, which moves the cursor. */
  datatype Happening = By(p: nat, e: Event) | Pulled(room: string, upTo: nat)

  type History = seq<Happening>

  /** What poller p did in h. */
  function Part(h: History, p: nat): Trace
    decreases |h|
  {
    if h == [] then []
    else
      var before, x := Part(h[..|h| - 1], p), h[|h| - 1];
      if x.By? && x.p == p then before + [x.e] else before
  }

  predicate IsWon(x: Happening) { x.By? && x.e.Claimed? && x.e.answer.Won? }

  predicate IsWrite(x: Happening) { x.By? && x.e.Notified? }

  /** Source.Claim is atomic: of all claims of a message, at most one is won. */
  ghost predicate AtomicClaims(h: History)
  {
    forall i, j :: 0 <= i < j < |h| && IsWon(h[i]) && IsWon(h[j]) ==> h[i].e.id != h[j].e.id
  }

  /** Every poller lives in its own world; their steps may interleave in any way. */
  ghost predicate Genuine(h: History, worlds: nat -> World, careful: bool)
  {
    forall p :: Lived(worlds(p), careful, Part(h, p))
  }

  lemma {:induction false} PartGrows(h: History, n: nat, p: nat)
    requires n <= |h|
    ensures Part(h[..n], p) <= Part(h, p)
    decreases |h|
  {
    if n < |h| {
      PartGrows(h[..|h| - 1], n, p);
      assert h[..|h| - 1][..n] == h[..n];
    } else {
      assert h[..n] == h;
    }
  }

  /** The place of h[i] among its poller's own steps. */
  lemma OwnPlace(h: History, i: nat)
    requires i < |h| && h[i].By?
    ensures var c := |Part(h[..i], h[i].p)|;
            c < |Part(h, h[i].p)| && Part(h, h[i].p)[c] == h[i].e
  {
    var p := h[i].p;
    assert h[..i + 1][..i] == h[..i];
    assert Part(h[..i + 1], p) == Part(h[..i], p) + [h[i].e];
    PartGrows(h, i + 1, p);
  }

  /** Where the c-th step of poller p stands. */
  lemma {:induction false} Locate(h: History, p: nat, c: nat) returns (i: nat)
    requires c < |Part(h, p)|
    ensures i < |h| && h[i] == By(p, Part(h, p)[c]) && |Part(h[..i], p)| == c
    decreases |h|
  {
    var last := |h| - 1;
    if c < |Part(h[..last], p)| {
      i := Locate(h[..last], p, c);
      assert h[..last][..i] == h[..i];
    } else {
      i := last;
    }
  }

  lemma SamePlace(h: History, i: nat, j: nat)
    requires i <= j < |h| && h[i].By? && h[j].By? && h[i].p == h[j].p
    requires |Part(h[..i], h[i].p)| == |Part(h[..j], h[i].p)|
    ensures i == j
  {
    if i < j {
      assert h[..i + 1][..i] == h[..i];
      assert h[..j][..i + 1] == h[..i + 1];
      PartGrows(h[..j], i + 1, h[i].p);
    }
  }

  /** A write is preceded, as this poller's own step right before it, by its won claim. */
  lemma WriteHasClaim(h: History, worlds: nat -> World, careful: bool, i: nat) returns (k: nat)
    requires Genuine(h, worlds, careful) && i < |h| && IsWrite(h[i])
    ensures k < i && h[k] == By(h[i].p, Claimed(h[i].e.id, Won))
    ensures |Part(h[..k], h[i].p)| + 1 == |Part(h[..i], h[i].p)|
  {
    var p := h[i].p;
    var c := |Part(h[..i], p)|;
    OwnPlace(h, i);
    LivedKeeps(worlds(p), careful, Part(h, p));
    WriteAfterClaim(Part(h, p), c);
    PartGrows(h, i, p);
    k := Locate(h[..i], p, c - 1);
    assert h[..i][..k] == h[..k];
  }

  /** At most once: however the pollers interleave, fail, are restarted or die, no message is
      written twice, and each write is the writer's own step right after winning the claim. */
  lemma AtMostOnce(h: History, worlds: nat -> World, careful: bool, i: nat, j: nat)
    requires Genuine(h, worlds, careful) && AtomicClaims(h)
    requires i < j < |h| && IsWrite(h[i]) && IsWrite(h[j])
    ensures h[i].e.id != h[j].e.id
  {
    var a := WriteHasClaim(h, worlds, careful, i);
    var b := WriteHasClaim(h, worlds, careful, j);
    if h[i].e.id == h[j].e.id {
      assert IsWon(h[a]) && IsWon(h[b]);
      assert a == b;
      SamePlace(h, i, j);
    }
  }

  /** No claim without a ready notifier and a budget reservation right before it, by the same
      poller. */
  lemma ClaimIsPaidFor(h: History, worlds: nat -> World, careful: bool, i: nat) returns (k: nat, r: nat)
    requires Genuine(h, worlds, careful) && i < |h| && h[i].By? && h[i].e.Claimed?
    ensures r < k < i
    ensures h[k] == By(h[i].p, Reserved(h[i].e.id)) && h[r] == By(h[i].p, ReadyAsked(true))
    ensures |Part(h[..r], h[i].p)| + 2 == |Part(h[..k], h[i].p)| + 1 == |Part(h[..i], h[i].p)|
  {
    var p := h[i].p;
    var c := |Part(h[..i], p)|;
    OwnPlace(h, i);
    LivedKeeps(worlds(p), careful, Part(h, p));
    ClaimAfterBudget(Part(h, p), c);
    PartGrows(h, i, p);
    k := Locate(h[..i], p, c - 1);
    assert h[..i][..k] == h[..k];
    PartGrows(h, k, p);
    r := Locate(h[..k], p, c - 2);
    assert h[..k][..r] == h[..r];
  }
}
