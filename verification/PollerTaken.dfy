/** A message that a poller passes as taken was claimed before. Where the poller itself had won that
    claim, its write failed or its process ended: the one way in which a message can be lost. */
module PollerTaken {
  import opened Text
  import opened WakeRule
  import opened LoopGuard
  import opened PollerModel
  import opened PollerTrace
  import opened PollerHistory
  import opened PollerAccounts
  import opened PollerBooks

  // ---- Within one process ids climb ----

  ghost predicate SameProcess(t: Trace, i: nat, j: nat)
  {
    forall k :: i < k < j && k < |t| ==> !t[k].Crashed?
  }

  predicate TwoPasses(t: Trace, i: nat, j: nat)
  {
    i < j < |t| && t[i].Passed? && t[j].Passed? && t[i].room == t[j].room
  }

  /** A process starts at the end of another, or with the life. */
  lemma {:induction false} StartsBehindEnd(w: World, careful: bool, acts: seq<Act>)
    ensures var before := SinceOf(w, careful, acts).before; before == [] || before[|before| - 1] == Crashed
    decreases |acts|
  {
    if acts != [] && GoesOn(acts[|acts| - 1]) {
      StartsBehindEnd(w, careful, acts[..|acts| - 1]);
    }
  }

  lemma SinceBefore(w: World, careful: bool, acts: seq<Act>)
    requires Counted(w)
    ensures SinceOf(w, careful, acts).before <= Life(w, careful, acts).t
  {
    LifeKeepsBooks(w, careful, acts);
    assert RoomBooks(w, SinceOf(w, careful, acts), "", Life(w, careful, acts).st, Life(w, careful, acts).t)
      by { assert PosOf(Life(w, careful, acts).st, "") == PosOf(Life(w, careful, acts).st, ""); }
  }

  lemma NoEndBetween(t: Trace, before: Trace, i: nat, j: nat)
    requires before <= t && |before| <= j && i < j < |t| && SameProcess(t, i, j) && !t[i].Crashed?
    requires before == [] || before[|before| - 1] == Crashed
    ensures |before| <= i
  {
    assert before != [] ==> t[|before| - 1] == Crashed;
  }

  /** In the call that ends this life. */
  lemma ClimbInCall(w: World, careful: bool, acts: seq<Act>, i: nat, j: nat)
    requires Counted(w) && |Life(w, careful, acts).t| <= j
    requires var t := Life(w, careful, acts + [Call]).t; TwoPasses(t, i, j) && SameProcess(t, i, j)
    ensures var t := Life(w, careful, acts + [Call]).t; t[i].id < t[j].id
  {
    var more := acts + [Call];
    var t := Life(w, careful, more).t;
    assert more[..|more| - 1] == acts;
    SinceBefore(w, careful, acts);
    SinceBefore(w, careful, more);
    StartsBehindEnd(w, careful, acts);
    NoEndBetween(t, SinceOf(w, careful, acts).before, i, j);
    OneOutcome(w, careful, more, i, j);
  }

  lemma {:induction false} ClimbInProcess(w: World, careful: bool, acts: seq<Act>, i: nat, j: nat)
    requires Counted(w)
    requires var t := Life(w, careful, acts).t; TwoPasses(t, i, j) && SameProcess(t, i, j)
    ensures var t := Life(w, careful, acts).t; t[i].id < t[j].id
    decreases |acts|
  {
    var before, act := acts[..|acts| - 1], acts[|acts| - 1];
    var p, t := Life(w, careful, before), Life(w, careful, acts).t;
    LifeKeeps(w, careful, before);
    DoKeeps(w, careful, p, act);
    if j < |p.t| {
      assert forall k :: 0 <= k < |p.t| ==> p.t[k] == t[k];
      ClimbInProcess(w, careful, before, i, j);
    } else if !act.Restart? {
      CallPart(w, careful, before, act, j);
      ClimbInCall(w, careful, before, i, j);
    }
  }

  lemma LifeCalls(w: World, careful: bool, acts: seq<Act>)
    ensures Life(w, careful, acts + [Call]) == Do(w, careful, Life(w, careful, acts), Call)
  {
    assert (acts + [Call])[..|acts|] == acts;
  }

  lemma CutPart(from: Trace, full: Trace, cut: nat, j: nat)
    requires j < |Cut(from, full, cut)|
    ensures j < |full| && forall k :: 0 <= k <= j ==> Cut(from, full, cut)[k] == full[k]
  {
  }

  /** Up to its end, a call that died did what the whole call would have done. */
  lemma CallPart(w: World, careful: bool, acts: seq<Act>, act: Act, j: nat)
    requires !act.Restart?
    requires var t := Do(w, careful, Life(w, careful, acts), act).t; j < |t| && !t[j].Crashed?
    ensures var t, full := Do(w, careful, Life(w, careful, acts), act).t, Life(w, careful, acts + [Call]).t;
            j < |full| && forall k :: 0 <= k <= j ==> t[k] == full[k]
  {
    LifeCalls(w, careful, acts);
    if act.CrashAt? {
      var p := Life(w, careful, acts);
      CutPart(p.t, Poll(w, careful, p.st, p.t).t, act.cut, j);
    }
  }

  // ---- What follows a won claim ----

  /** The claim came to nothing by step c: its write failed, or the process ended. */
  predicate Wasted(t: Trace, id: nat, b: nat)
  {
    b < |t| && (t[b] == Notified(id, false) || t[b].Crashed?)
  }

  lemma AfterWon(t: Trace, a: nat)
    requires PhaseOf(t) != Wrong && a + 1 < |t| && t[a].Claimed? && t[a].answer.Won?
    ensures t[a + 1].Crashed? || (t[a + 1].Notified? && t[a + 1].id == t[a].id)
  {
    StepAt(t, a);
    NeedsPaid(PhaseOf(t[..a]), t[a]);
    StepAt(t, a + 1);
  }

  lemma AfterWrite(t: Trace, a: nat)
    requires PhaseOf(t) != Wrong && a + 1 < |t| && t[a].Notified? && t[a].ok
    ensures t[a + 1].Crashed? || (t[a + 1].Booked? && t[a + 1].id == t[a].id)
  {
    StepAt(t, a);
    NeedsMine(PhaseOf(t[..a]), t[a]);
    StepAt(t, a + 1);
  }

  lemma AfterBooked(t: Trace, a: nat)
    requires PhaseOf(t) != Wrong && a + 1 < |t| && t[a].Booked?
    ensures t[a + 1].Crashed? || (t[a + 1].Passed? && t[a + 1].id == t[a].id && t[a + 1].fate.Delivered?)
  {
    StepAt(t, a);
    StepAt(t, a + 1);
  }

  /** A delivered message is passed as such three steps behind its won claim, unless the claim was
      wasted. */
  lemma WonIsPassed(t: Trace, a: nat, c: nat) returns (b: nat)
    requires PhaseOf(t) != Wrong && a < c < |t| && t[a].Claimed? && t[a].answer.Won? && t[c].Passed? && t[c].fate.Taken?
    ensures a < b < c
    ensures Wasted(t, t[a].id, b) || (t[b].Passed? && t[b].id == t[a].id && t[b].fate.Delivered?)
  {
    b := a + 1;
    AfterWon(t, a);
    if !Wasted(t, t[a].id, b) {
      AfterWrite(t, b);
      b := a + 2;
      if !Wasted(t, t[a].id, b) {
        AfterBooked(t, b);
        b := a + 3;
      }
    }
  }

  // ---- In one poller's life ----

  /** No message is in two rooms. */
  ghost predicate OneRoom(w: World)
  {
    forall key, key', id {:trigger HasId(w.log(key), id), HasId(w.log(key'), id)} ::
      HasId(w.log(key), id) && HasId(w.log(key'), id) ==> key == key'
  }

  lemma PassIsInLog(w: World, careful: bool, acts: seq<Act>, i: nat)
    requires Counted(w)
    requires var t := Life(w, careful, acts).t; i < |t| && t[i].Passed?
    ensures var e := Life(w, careful, acts).t[i]; HasId(w.log(e.room), e.id)
  {
    var p := Life(w, careful, acts);
    LifeKeepsBooks(w, careful, acts);
    BooksInLog(w, SinceOf(w, careful, acts), p.st, p.t);
    var c := PassAt(p.t, p.t[i].room, i);
    assert p.t[i].id in Passes(p.t, p.t[i].room);
  }

  /** Two passes of one message, the second as taken: the process ended in between. */
  lemma PassedTwice(w: World, careful: bool, acts: seq<Act>, i: nat, j: nat) returns (b: nat)
    requires Counted(w) && OneRoom(w)
    requires var t := Life(w, careful, acts).t; i < j < |t| && t[i].Passed? && t[j].Passed? && t[i].id == t[j].id
    ensures i < b < j && Life(w, careful, acts).t[b].Crashed?
  {
    var t := Life(w, careful, acts).t;
    PassIsInLog(w, careful, acts, i);
    PassIsInLog(w, careful, acts, j);
    if SameProcess(t, i, j) {
      ClimbInProcess(w, careful, acts, i, j);
      assert false;
    } else {
      b :| i < b < j && b < |t| && t[b].Crashed?;
    }
  }

  lemma OwnWinWasted(w: World, careful: bool, t: Trace, a: nat, c: nat) returns (b: nat)
    requires Counted(w) && OneRoom(w) && Lived(w, careful, t)
    requires a < c < |t| && t[a].Claimed? && t[a].answer.Won? && t[c].Passed? && t[c].fate.Taken? && t[c].id == t[a].id
    ensures a < b < c && Wasted(t, t[a].id, b)
  {
    var acts :| LivedBy(w, careful, acts, t);
    LivedByKeeps(w, careful, acts, t);
    b := WonIsPassed(t, a, c);
    if !Wasted(t, t[a].id, b) {
      var full := Life(w, careful, acts).t;
      assert full[b] == t[b] && full[c] == t[c];
      b := PassedTwice(w, careful, acts, b, c);
      assert full[b] == t[b];
    }
  }

  // ---- Over any interleaving ----

  /** The server books a claim at most once: it answers Lost only behind an earlier claim of the
      message that was won, or that it had booked although its answer did not come through. */
  ghost predicate HonestServer(h: History)
  {
    forall i :: 0 <= i < |h| && IsLost(h[i]) ==> exists k :: 0 <= k < i && IsBooked(h[k], h[i].e.id)
  }

  /** Every booked claim was answered. */
  ghost predicate AnsweringServer(h: History)
  {
    forall k :: 0 <= k < |h| && h[k].By? && h[k].e.Claimed? ==> !h[k].e.answer.Broken?
  }

  predicate IsLost(x: Happening) { x.By? && x.e.Claimed? && x.e.answer.Lost? }

  predicate IsBooked(x: Happening, id: nat) { x.By? && x.e.Claimed? && x.e.id == id && !x.e.answer.Lost? }

  lemma LaterPlace(h: History, p: nat, k: nat, n: nat)
    requires k <= |h| && n <= |h| && |Part(h[..k], p)| < |Part(h[..n], p)|
    ensures k < n
  {
    if n <= k {
      assert h[..k][..n] == h[..n];
      PartGrows(h[..k], n, p);
    }
  }

  lemma EarlierPlace(h: History, k: nat, i: nat)
    requires k < i < |h| && h[k].By? && h[i].By? && h[k].p == h[i].p
    ensures |Part(h[..k], h[k].p)| < |Part(h[..i], h[k].p)|
  {
    assert h[..i][..k] == h[..k] && h[..i][k] == h[k];
    OwnPlace(h[..i], k);
  }

  /** The step of poller p at this place of its trace. */
  lemma PlacedBetween(h: History, p: nat, k: nat, b: nat, i: nat) returns (n: nat)
    requires k < i < |h| && |Part(h[..k], p)| < b < |Part(h[..i], p)|
    ensures k < n < i && b < |Part(h, p)| && h[n] == By(p, Part(h, p)[b])
  {
    PartGrows(h, i, p);
    n := Locate(h[..i], p, b);
    assert h[..i][..n] == h[..n];
    LaterPlace(h, p, k, n);
  }

  /** Every message that a poller passes as taken had been claimed before. If the poller itself had
      won that claim, then in between its write failed or its process ended. With a server whose every
      answer comes through, the claim had been won. */
  lemma TakenWasClaimed(h: History, worlds: nat -> World, careful: bool, i: nat) returns (k: nat)
    requires Genuine(h, worlds, careful) && HonestServer(h)
    requires i < |h| && h[i].By? && h[i].e.Passed? && h[i].e.fate.Taken?
    requires Counted(worlds(h[i].p)) && OneRoom(worlds(h[i].p))
    ensures k < i && IsBooked(h[k], h[i].e.id)
    ensures AnsweringServer(h) ==> IsWon(h[k])
    ensures IsWon(h[k]) && h[k].p == h[i].p ==>
              exists n :: k < n < i && h[n].By? && h[n].p == h[i].p && (h[n].e == Notified(h[i].e.id, false) || h[n].e.Crashed?)
  {
    var p, id := h[i].p, h[i].e.id;
    var t, c := Part(h, p), |Part(h[..i], p)|;
    OwnPlace(h, i);
    LivedKeeps(worlds(p), careful, t);
    PassedAfterWrite(t, c);
    PartGrows(h, i, p);
    var l := Locate(h[..i], p, c - 2);
    assert h[l] == By(p, Claimed(id, Lost));
    k :| 0 <= k < l && IsBooked(h[k], h[l].e.id);
    if IsWon(h[k]) && h[k].p == p {
      var a := |Part(h[..k], p)|;
      OwnPlace(h, k);
      EarlierPlace(h, k, i);
      var b := OwnWinWasted(worlds(p), careful, t, a, c);
      var n := PlacedBetween(h, p, k, b, i);
    }
  }
}
