/** What a streak counts, exactly: the changes of sender since the last message that brought something
    new, came from a human or broke a long silence. */
module LoopRounds {
  import opened Text
  import opened WakeRule
  import opened LoopGuard

  predicate IsNotice(m: Message) { HasPrefix(m.body, "[loop-guard] ") }

  /** The conversation without the guard's own notices. */
  function Talk(ms: seq<Message>): seq<Message>
    decreases |ms|
  {
    if ms == [] then []
    else
      var before, m := Talk(ms[..|ms| - 1]), ms[|ms| - 1];
      if IsNotice(m) then before else before + [m]
  }

  /** The last six messages. */
  function LastSix(talk: seq<Message>): seq<Message> { if |talk| > 6 then talk[|talk| - 6..] else talk }

  /** The n-th message is a human's, or brings something new against the six before it. */
  predicate Fresh(novel: Novelty, talk: seq<Message>, n: nat)
    requires n < |talk|
  {
    talk[n].human || novel(LastSix(talk[..n]), talk[n])
  }

  /** The instant of the last message that has one. */
  function LastInstant(talk: seq<Message>): Option<int>
    decreases |talk|
  {
    if talk == [] then None
    else if talk[|talk| - 1].createdAt.Some? then talk[|talk| - 1].createdAt
    else LastInstant(talk[..|talk| - 1])
  }

  /** The n-th message comes more than ten minutes behind the one before it. */
  predicate BreaksSilence(talk: seq<Message>, n: nat)
    requires n < |talk|
  {
    var before := LastInstant(talk[..n]);
    talk[n].createdAt.Some? && before.Some? && talk[n].createdAt.value - before.value > 600
  }

  /** The run that is still going on starts here: nothing fresh in it, no silence broken within it,
      and one of the two right before it unless the conversation began. */
  ghost predicate RunFrom(novel: Novelty, talk: seq<Message>, from: nat)
  {
    && from <= |talk|
    && (forall n :: from <= n < |talk| ==> !Fresh(novel, talk, n))
    && (forall n :: from < n < |talk| ==> !BreaksSilence(talk, n))
    && (from == 0 || Fresh(novel, talk, from - 1) || (from < |talk| && BreaksSilence(talk, from)))
  }

  /** There is one such start. */
  lemma OneRun(novel: Novelty, talk: seq<Message>, a: nat, b: nat)
    requires RunFrom(novel, talk, a) && RunFrom(novel, talk, b)
    ensures a == b
  {
    assert !(a < b) && !(b < a);
  }

  /** The changes of sender from here on; an unnamed sender starts no round. */
  function Changes(talk: seq<Message>, from: nat): nat
    requires from <= |talk|
    decreases |talk|
  {
    if |talk| <= from + 1 then 0
    else
      var last := |talk| - 1;
      Changes(talk[..last], from) + if talk[last - 1].sender != "" && talk[last].sender != talk[last - 1].sender then 1 else 0
  }

  /** The tracker knows the conversation, and where its run started. */
  ghost predicate Follows(novel: Novelty, t: Tracker, talk: seq<Message>, from: nat)
  {
    && RunFrom(novel, talk, from)
    && t.window == LastSix(talk) && t.prevAt == LastInstant(talk)
    && t.streak == Changes(talk, from)
    && t.last == if from == |talk| then "" else talk[|talk| - 1].sender
  }

  lemma OneMore(talk: seq<Message>, m: Message)
    ensures var more := talk + [m];
            && more[..|talk|] == talk && (forall n :: 0 <= n < |talk| ==> more[..n] == talk[..n])
            && LastSix(more) == Trimmed(LastSix(talk) + [m])
            && LastInstant(more) == if m.createdAt.Some? then m.createdAt else LastInstant(talk)
  {
  }

  lemma SameRun(novel: Novelty, talk: seq<Message>, m: Message)
    ensures var more := talk + [m];
            forall n :: 0 <= n < |talk| ==> (Fresh(novel, more, n) <==> Fresh(novel, talk, n))
                                            && (BreaksSilence(more, n) <==> BreaksSilence(talk, n))
  {
    OneMore(talk, m);
  }

  lemma AddFollows(novel: Novelty, t: Tracker, talk: seq<Message>, m: Message, from: nat) returns (next: nat)
    requires Follows(novel, t, talk, from) && !IsNotice(m)
    ensures Follows(novel, Add(novel, t, m), talk + [m], next)
  {
    var more := talk + [m];
    OneMore(talk, m);
    SameRun(novel, talk, m);
    if Fresh(novel, more, |talk|) {
      next := |more|;
    } else if BreaksSilence(more, |talk|) {
      next := |talk|;
    } else {
      next := from;
    }
  }

  /** The streak of a room, exactly. */
  lemma {:induction false} StreakExactly(novel: Novelty, ms: seq<Message>) returns (from: nat)
    ensures Follows(novel, Fold(novel, ms), Talk(ms), from)
    decreases |ms|
  {
    if ms == [] {
      from := 0;
    } else {
      var before, m := ms[..|ms| - 1], ms[|ms| - 1];
      from := StreakExactly(novel, before);
      if !IsNotice(m) {
        from := AddFollows(novel, Fold(novel, before), Talk(before), m, from);
      }
    }
  }

  /** So a hold takes five changes of sender in a row, and the next fresh word ends it. */
  lemma HoldsExactly(novel: Novelty, ms: seq<Message>) returns (from: nat)
    ensures RunFrom(novel, Talk(ms), from)
    ensures Holds(Fold(novel, ms).streak) <==> Changes(Talk(ms), from) >= 5
  {
    from := StreakExactly(novel, ms);
  }
}
