/** The race for the join code: callback, pasted input and the denial watch send into one channel,
    and whoever decides ends the wait. */
module AwaitCode {
  import opened Text

  datatype Source = Callback | Paste | Watch

  datatype Outcome = Code | Denied | Failed

  /** One message on the channel. */
  datatype Arrival = Arrival(src: Source, what: Outcome)

  /** Whether awaitCode ends with this message: `cb` says a callback exists, `ended` that the
      context is over. Only a failed input with a callback still possible does not end it. */
  predicate Decides(a: Arrival, cb: bool, ended: bool)
  {
    a.what.Code? || a.what.Denied? || ended || !a.src.Paste? || !cb
  }

  /** Everything decides but a failed input while the callback may still come. */
  lemma DecidesExactly(a: Arrival, cb: bool, ended: bool)
    ensures Decides(a, cb, ended) <==> !(a == Arrival(Paste, Failed) && cb && !ended)
  {
  }

  // ---- The receiving loop ----

  predicate EachOnce(arrivals: seq<Arrival>)
  {
    forall i, k :: 0 <= i < k < |arrivals| ==> arrivals[i].src != arrivals[k].src
  }

  predicate Brings(arrivals: seq<Arrival>, src: Source)
  {
    exists k :: 0 <= k < |arrivals| && arrivals[k].src == src
  }

  /** awaitCode's loop, on the messages in the order the channel yields them and what the context
      says at each. It takes every message off the channel, ends with the first that decides,
      and one that does not decide never ends it. */
  method Await(arrivals: seq<Arrival>, ended: nat -> bool) returns (result: Option<Arrival>, taken: nat)
    requires EachOnce(arrivals)
    ensures taken == |arrivals|
    ensures result.None? <==> arrivals == []
    ensures result.Some? ==> var cb := Brings(arrivals, Callback);
              exists i :: 0 <= i < |arrivals| && result.value == arrivals[i] && Decides(arrivals[i], cb, ended(i))
                          && forall k :: 0 <= k < i ==> !Decides(arrivals[k], cb, ended(k))
  {
    var cb := Brings(arrivals, Callback);
    var n, pending := |arrivals|, |arrivals|;
    taken := 0;
    while pending > 0
      invariant 0 <= taken <= |arrivals| && n == pending == |arrivals| - taken
      invariant arrivals != [] ==> pending > 0
      invariant forall k :: 0 <= k < taken ==> !Decides(arrivals[k], cb, ended(k))
      decreases pending
    {
      var r := arrivals[taken];
      var over := ended(taken);
      taken := taken + 1;
      if Decides(r, cb, over) {
        var left := n - 1;
        while left > 0
          invariant left == |arrivals| - taken >= 0
          decreases left
        {
          taken := taken + 1;
          left := left - 1;
        }
        return Some(r), taken;
      }
      n := n - 1;
      if pending == 1 {
        LastDecides(arrivals, ended);
        assert false;
      }
      pending := pending - 1;
    }
    result := None;
  }

  /** With a callback among the sources, its message decides: not all can fail to. */
  lemma LastDecides(arrivals: seq<Arrival>, ended: nat -> bool)
    requires arrivals != []
    ensures exists k :: 0 <= k < |arrivals| && Decides(arrivals[k], Brings(arrivals, Callback), ended(k))
  {
    if Brings(arrivals, Callback) {
      var k :| 0 <= k < |arrivals| && arrivals[k].src == Callback;
      assert Decides(arrivals[k], true, ended(k));
    } else {
      assert Decides(arrivals[0], false, ended(0));
    }
  }

  // ---- The channel and its senders ----

  /** A sender: not started, still waiting for its event, at the channel, its message in the
      channel, its message taken. */
  datatype Stage = Absent | Working | Sending(what: Outcome) | Queued | Taken

  datatype Phase =
    | Waiting(n: int, pending: int)
    | Draining(left: int, result: Arrival)
    | Returned(result: Arrival)

  const CAPACITY := 2

  datatype State = State(stages: map<Source, Stage>, channel: seq<Arrival>, phase: Phase)

  datatype Move = Answer(src: Source, what: Outcome) | Push(src: Source) | Take(ended: bool)

  function StageOf(s: State, x: Source): Stage { if x in s.stages then s.stages[x] else Absent }

  predicate Enabled(s: State, m: Move)
  {
    match m
    case Answer(src, _) => StageOf(s, src).Working?
    case Push(src) => StageOf(s, src).Sending? && |s.channel| < CAPACITY
    case Take(_) => s.channel != [] && !s.phase.Returned?
  }

  /** What awaitCode does with a message it took. */
  function After(p: Phase, a: Arrival, cb: bool, ended: bool): Phase
  {
    match p
    case Waiting(n, pending) =>
      if Decides(a, cb, ended) then (if n - 1 > 0 then Draining(n - 1, a) else Returned(a))
      else if pending == 1 then Returned(a)
      else Waiting(n - 1, pending - 1)
    case Draining(left, result) => if left > 1 then Draining(left - 1, result) else Returned(result)
    case Returned(_) => p
  }

  function Step(s: State, m: Move): State
  {
    if !Enabled(s, m) then s
    else match m
      case Answer(src, what) => s.(stages := s.stages[src := Sending(what)])
      case Push(src) =>
        s.(stages := s.stages[src := Queued], channel := s.channel + [Arrival(src, StageOf(s, src).what)])
      case Take(ended) =>
        var a := s.channel[0];
        State(s.stages[a.src := Taken], s.channel[1..], After(s.phase, a, !StageOf(s, Callback).Absent?, ended))
  }

  function Weight(st: Stage): nat
  {
    match st case Working => 3 case Sending(_) => 2 case Queued => 1 case _ => 0
  }

  predicate Open(st: Stage) { st.Working? || st.Sending? || st.Queued? }

  function One(b: bool): nat { if b then 1 else 0 }

  /** Senders whose message awaitCode has not taken yet. */
  function Outstanding(s: State): nat
  {
    One(Open(StageOf(s, Callback))) + One(Open(StageOf(s, Paste))) + One(Open(StageOf(s, Watch)))
  }

  function Left(s: State): nat
  {
    Weight(StageOf(s, Callback)) + Weight(StageOf(s, Paste)) + Weight(StageOf(s, Watch))
  }

  function QueuedCount(s: State): nat
  {
    One(StageOf(s, Callback).Queued?) + One(StageOf(s, Paste).Queued?) + One(StageOf(s, Watch).Queued?)
  }

  /** Messages in the channel are the queued senders', one each. */
  ghost predicate ChannelRight(s: State)
  {
    && |s.channel| == QueuedCount(s) <= CAPACITY && EachOnce(s.channel)
    && forall x :: StageOf(s, x).Queued? <==> Brings(s.channel, x)
  }

  /** The count n is the number of messages not yet taken; while awaitCode waits, only a failed
      input can have been taken. */
  ghost predicate Sound(s: State)
  {
    && ChannelRight(s)
    && match s.phase
       case Waiting(n, pending) => n == pending == Outstanding(s) > 0 && (forall x :: StageOf(s, x).Taken? ==> x == Paste && !StageOf(s, Callback).Absent?)
       case Draining(left, _) => left == Outstanding(s) > 0
       case Returned(_) => Outstanding(s) == 0
  }

  /** awaitCode has just started these senders. */
  ghost predicate Starts(s: State)
  {
    && s.channel == [] && Outstanding(s) > 0 && s.phase == Waiting(Outstanding(s), Outstanding(s))
    && forall x :: StageOf(s, x).Absent? || StageOf(s, x).Working?
  }

  lemma TakeKeepsChannel(s: State)
    requires ChannelRight(s) && s.channel != []
    ensures var s' := s.(stages := s.stages[s.channel[0].src := Taken], channel := s.channel[1..]); ChannelRight(s')
  {
    var s' := s.(stages := s.stages[s.channel[0].src := Taken], channel := s.channel[1..]);
    assert Brings(s.channel, s.channel[0].src);
    assert forall x :: x != s.channel[0].src ==> StageOf(s', x) == StageOf(s, x);
    forall x ensures StageOf(s', x).Queued? <==> Brings(s'.channel, x) {
      if Brings(s.channel, x) && x != s.channel[0].src {
        var k :| 0 <= k < |s.channel| && s.channel[k].src == x;
        assert s'.channel[k - 1].src == x;
      }
      if Brings(s'.channel, x) {
        var k :| 0 <= k < |s'.channel| && s'.channel[k].src == x;
        assert s.channel[k + 1].src == x && s.channel[0].src != x;
      }
    }
  }

  lemma PushKeepsChannel(s: State, x: Source, what: Outcome)
    requires ChannelRight(s) && !StageOf(s, x).Queued? && |s.channel| < CAPACITY
    ensures ChannelRight(s.(stages := s.stages[x := Queued], channel := s.channel + [Arrival(x, what)]))
  {
    var s' := s.(stages := s.stages[x := Queued], channel := s.channel + [Arrival(x, what)]);
    assert forall y :: y != x ==> StageOf(s', y) == StageOf(s, y);
    forall y ensures StageOf(s', y).Queued? <==> Brings(s'.channel, y) {
      if Brings(s.channel, y) {
        var k :| 0 <= k < |s.channel| && s.channel[k].src == y;
        assert s'.channel[k].src == y;
      }
      assert s'.channel[|s.channel|].src == x;
    }
  }

  /** Every enabled move keeps the counts right and comes closer to the end. */
  lemma MoveKeeps(s: State, m: Move)
    requires Sound(s) && Enabled(s, m)
    ensures Sound(Step(s, m)) && Left(Step(s, m)) == Left(s) - 1
  {
    match m
    case Answer(src, what) => AnswerKeeps(s, src, what);
    case Push(src) => SendKeeps(s, src);
    case Take(ended) => TakeKeeps(s, ended);
  }

  lemma AnswerKeeps(s: State, src: Source, what: Outcome)
    requires Sound(s) && StageOf(s, src).Working?
    ensures var s' := Step(s, Answer(src, what)); Sound(s') && Left(s') == Left(s) - 1
  {
    var s' := Step(s, Answer(src, what));
    assert forall x :: x != src ==> StageOf(s', x) == StageOf(s, x);
  }

  lemma SendKeeps(s: State, src: Source)
    requires Sound(s) && Enabled(s, Push(src))
    ensures var s' := Step(s, Push(src)); Sound(s') && Left(s') == Left(s) - 1
  {
    var s' := Step(s, Push(src));
    PushKeepsChannel(s, src, StageOf(s, src).what);
    assert forall x :: x != src ==> StageOf(s', x) == StageOf(s, x);
  }

  /** One sender's message taken off. */
  lemma TakenCounts(s: State, s': State, x: Source)
    requires StageOf(s, x).Queued? && StageOf(s', x).Taken? && forall y :: y != x ==> StageOf(s', y) == StageOf(s, y)
    ensures Outstanding(s') == Outstanding(s) - 1 && Left(s') == Left(s) - 1
  {
  }

  lemma TakeKeeps(s: State, ended: bool)
    requires Sound(s) && Enabled(s, Take(ended))
    ensures var s' := Step(s, Take(ended)); Sound(s') && Left(s') == Left(s) - 1
  {
    var s' := Step(s, Take(ended));
    var a := s.channel[0];
    TakeKeepsChannel(s);
    assert StageOf(s, a.src).Queued? by { assert Brings(s.channel, a.src); }
    assert forall x :: x != a.src ==> StageOf(s', x) == StageOf(s, x);
    TakenCounts(s, s', a.src);
    var cb := !StageOf(s, Callback).Absent?;
    TakePhase(s, s', a, cb, ended);
  }

  lemma TakePhase(s: State, s': State, a: Arrival, cb: bool, ended: bool)
    requires Sound(s) && ChannelRight(s') && !s.phase.Returned? && s'.phase == After(s.phase, a, cb, ended)
    requires StageOf(s, a.src).Queued? && StageOf(s', a.src).Taken? && (forall y :: y != a.src ==> StageOf(s', y) == StageOf(s, y))
    requires Outstanding(s') == Outstanding(s) - 1 && cb == !StageOf(s, Callback).Absent?
    ensures Sound(s')
  {
  }

  function Run(s: State, moves: seq<Move>): State
    decreases |moves|
  {
    if moves == [] then s else Step(Run(s, moves[..|moves| - 1]), moves[|moves| - 1])
  }

  lemma {:induction false} RunKeeps(s: State, moves: seq<Move>)
    requires Sound(s)
    ensures Sound(Run(s, moves))
    decreases |moves|
  {
    if moves != [] {
      var before := moves[..|moves| - 1];
      RunKeeps(s, before);
      if Enabled(Run(s, before), moves[|moves| - 1]) {
        MoveKeeps(Run(s, before), moves[|moves| - 1]);
      }
    }
  }

  /** After any run of sends, answers and receives: the count n is exact, and when awaitCode has
      returned, no sender is left working or blocked and the channel is empty. */
  lemma NobodyLeftBehind(s: State, moves: seq<Move>)
    requires Starts(s)
    ensures var e := Run(s, moves);
            && (e.phase.Waiting? ==> e.phase.n == Outstanding(e))
            && (e.phase.Returned? ==> e.channel == [] && forall x :: StageOf(e, x).Absent? || StageOf(e, x).Taken?)
  {
    assert Sound(s);
    RunKeeps(s, moves);
    var e := Run(s, moves);
    if e.phase.Returned? {
      forall x ensures StageOf(e, x).Absent? || StageOf(e, x).Taken? {
        match x
        case Callback =>
        case Paste =>
        case Watch =>
      }
    }
  }

  /** No deadlock: until awaitCode returns some move is possible, if need be a sender's answer;
      each brings it closer, so it returns after at most nine. */
  lemma AlwaysAMove(s: State) returns (m: Move)
    requires Sound(s) && !s.phase.Returned?
    ensures Enabled(s, m) && Left(Step(s, m)) < Left(s) <= 9
  {
    assert forall x :: StageOf(s, x).Queued? ==> Brings(s.channel, x);
    if s.channel != [] {
      m := Take(false);
    } else {
      var x := if Open(StageOf(s, Callback)) then Callback else if Open(StageOf(s, Paste)) then Paste else Watch;
      assert !StageOf(s, x).Queued?;
      m := if StageOf(s, x).Working? then Answer(x, Failed) else Push(x);
    }
    MoveKeeps(s, m);
  }

  /** A failed input alone never ends the wait while the callback can still come. */
  lemma InputAloneNeverEnds(s: State)
    requires Sound(s) && s.phase.Waiting? && s.channel != [] && !StageOf(s, Callback).Absent?
    requires s.channel[0] == Arrival(Paste, Failed)
    ensures Step(s, Take(false)).phase.Waiting?
  {
    MoveKeeps(s, Take(false));
    assert Brings(s.channel, Paste);
    assert StageOf(s, Paste).Queued? && !StageOf(s, Callback).Taken?;
    assert Open(StageOf(s, Callback));
  }

  /** A pasted code in the channel, the callback's behind it. */
  lemma BothQueued(s: State) returns (s1: State, s2: State, s3: State, s4: State)
    requires s == State(map[Callback := Working, Paste := Working], [], Waiting(2, 2))
    ensures s1 == Step(s, Answer(Paste, Code)) && s2 == Step(s1, Push(Paste))
    ensures s3 == Step(s2, Answer(Callback, Code)) && s4 == Step(s3, Push(Callback))
    ensures s4.channel == [Arrival(Paste, Code), Arrival(Callback, Code)] && s4.phase == Waiting(2, 2)
    ensures StageOf(s4, Callback) == Queued
  {
    s1 := Step(s, Answer(Paste, Code));
    s2 := Step(s1, Push(Paste));
    assert s2.channel == [Arrival(Paste, Code)] && s2.phase == Waiting(2, 2) && StageOf(s2, Callback) == Working;
    s3 := Step(s2, Answer(Callback, Code));
    assert s3.channel == [Arrival(Paste, Code)] && StageOf(s3, Callback) == Sending(Code);
    s4 := Step(s3, Push(Callback));
  }

  lemma BothTaken(s: State)
    requires s.channel == [Arrival(Paste, Code), Arrival(Callback, Code)] && s.phase == Waiting(2, 2) && StageOf(s, Callback) == Queued
    ensures var s' := Step(Step(s, Take(false)), Take(false)); s'.phase == Returned(Arrival(Paste, Code)) && StageOf(s', Callback) == Taken
  {
    var s' := Step(s, Take(false));
    assert s'.channel == [Arrival(Callback, Code)] && s'.phase == Draining(1, Arrival(Paste, Code));
  }

  /** The price of draining: a callback code that arrived just behind a pasted one is dropped. */
  lemma DrainedCodeIsLost()
    ensures exists s: State, moves: seq<Move> ::
              && Starts(s) && Run(s, moves).phase == Returned(Arrival(Paste, Code))
              && Answer(Callback, Code) in moves && StageOf(Run(s, moves), Callback).Taken?
  {
    var s := State(map[Callback := Working, Paste := Working], [], Waiting(2, 2));
    assert Starts(s);
    var m := [Answer(Paste, Code), Push(Paste), Answer(Callback, Code), Push(Callback), Take(false), Take(false)];
    var s1, s2, s3, s4 := BothQueued(s);
    BothTaken(s4);
    var s5 := Step(s4, Take(false));
    Unfold(s, m, [s, s1, s2, s3, s4, s5, Step(s5, Take(false))], 6);
    assert m[..6] == m && m[2] == Answer(Callback, Code);
  }

  lemma {:induction false} Unfold(s: State, moves: seq<Move>, states: seq<State>, n: nat)
    requires n <= |moves| && |states| == |moves| + 1 && states[0] == s
    requires forall k :: 0 <= k < |moves| ==> states[k + 1] == Step(states[k], moves[k])
    ensures Run(s, moves[..n]) == states[n]
    decreases n
  {
    if n > 0 {
      Unfold(s, moves, states, n - 1);
      assert moves[..n][..n - 1] == moves[..n - 1];
    }
  }

  // ---- The callback listener ----

  /** A request with a result: not yet at the used flag, past it, turned away, delivered. */
  datatype Request = Arrived | Winner | Refused | Delivered

  /** `used` is the flag all requests compete for, `got` the channel of capacity one. */
  datatype Listener = Listener(used: bool, got: nat, requests: map<nat, Request>, received: nat)

  datatype Act = Enter(id: nat) | Compete(id: nat) | Send(id: nat) | Receive

  predicate IsAt(l: Listener, id: nat, r: Request) { id in l.requests && l.requests[id] == r }

  function Act1(l: Listener, a: Act): Listener
  {
    match a
    case Enter(id) => if id in l.requests then l else l.(requests := l.requests[id := Arrived])
    case Compete(id) =>
      if !IsAt(l, id, Arrived) then l
      else if l.used then l.(requests := l.requests[id := Refused])
      else l.(used := true, requests := l.requests[id := Winner])
    case Send(id) =>
      if !IsAt(l, id, Winner) || l.got >= 1 then l
      else l.(got := l.got + 1, requests := l.requests[id := Delivered])
    case Receive => if l.got == 0 then l else l.(got := l.got - 1, received := l.received + 1)
  }

  function Acts(acts: seq<Act>): Listener
    decreases |acts|
  {
    if acts == [] then Listener(false, 0, map[], 0) else Act1(Acts(acts[..|acts| - 1]), acts[|acts| - 1])
  }

  /** At most one request ever won; its result is on the way, in the channel or received. */
  ghost predicate OneWinner(l: Listener)
  {
    && (forall a, b :: (IsAt(l, a, Winner) || IsAt(l, a, Delivered)) && (IsAt(l, b, Winner) || IsAt(l, b, Delivered)) ==> a == b)
    && (!l.used ==> forall a :: !IsAt(l, a, Winner) && !IsAt(l, a, Delivered))
    && l.got + l.received <= 1
    && ((exists a :: IsAt(l, a, Winner)) ==> l.got + l.received == 0)
    && (l.got + l.received == 1 ==> l.used)
  }

  lemma {:induction false} ListenerKeeps(acts: seq<Act>)
    ensures OneWinner(Acts(acts))
    decreases |acts|
  {
    if acts != [] {
      ListenerKeeps(acts[..|acts| - 1]);
      ActKeeps(Acts(acts[..|acts| - 1]), acts[|acts| - 1]);
    }
  }

  lemma ActKeeps(l: Listener, a: Act)
    requires OneWinner(l)
    ensures OneWinner(Act1(l, a))
  {
    var l' := Act1(l, a);
    match a
    case Enter(id) =>
      assert forall x :: (IsAt(l', x, Winner) <==> IsAt(l, x, Winner)) && (IsAt(l', x, Delivered) <==> IsAt(l, x, Delivered));
    case Compete(id) =>
      assert forall x :: x != id ==> (IsAt(l', x, Winner) <==> IsAt(l, x, Winner)) && (IsAt(l', x, Delivered) <==> IsAt(l, x, Delivered));
    case Send(id) =>
      assert forall x :: x != id ==> (IsAt(l', x, Winner) <==> IsAt(l, x, Winner)) && (IsAt(l', x, Delivered) <==> IsAt(l, x, Delivered));
    case Receive =>
      assert forall x :: (IsAt(l', x, Winner) <==> IsAt(l, x, Winner)) && (IsAt(l', x, Delivered) <==> IsAt(l, x, Delivered));
  }

  /** Over its life the listener delivers at most one result, and the send of it never blocks. */
  lemma DeliversOnce(acts: seq<Act>, id: nat)
    ensures Acts(acts).got + Acts(acts).received <= 1
    ensures IsAt(Acts(acts), id, Winner) ==> Acts(acts).got == 0
  {
    ListenerKeeps(acts);
  }
}
