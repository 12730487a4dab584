/** debounce: a timer that is pushed back by every call, and runs that are serialised by a lock. */
module Debounce {

  /** `armed` says a timer is pending, `queued` counts fired timers in front of the run lock,
      `inside` those in f. `calls` and `runs` count, `behind` says a run started after the last
      call. */
  datatype State = State(armed: bool, queued: nat, inside: nat, calls: nat, runs: nat, behind: bool)

  const FRESH := State(false, 0, 0, 0, 0, false)

  datatype Move = Call | Fire | Start | End

  predicate Enabled(s: State, m: Move)
  {
    match m
    case Call => true
    case Fire => s.armed
    case Start => s.queued > 0 && s.inside == 0
    case End => s.inside > 0
  }

  function Step(s: State, m: Move): State
  {
    if !Enabled(s, m) then s
    else match m
      case Call => s.(armed := true, calls := s.calls + 1, behind := false)
      case Fire => s.(armed := false, queued := s.queued + 1)
      case Start => s.(queued := s.queued - 1, inside := s.inside + 1, runs := s.runs + 1, behind := true)
      case End => s.(inside := s.inside - 1)
  }

  function Run(moves: seq<Move>): State
    decreases |moves|
  {
    if moves == [] then FRESH else Step(Run(moves[..|moves| - 1]), moves[|moves| - 1])
  }

  function One(b: bool): nat { if b then 1 else 0 }

  predicate Sound(s: State)
  {
    && s.inside <= 1
    && s.runs + s.queued + One(s.armed) <= s.calls
    && (s.calls > 0 && !s.behind ==> s.armed || s.queued > 0)
  }

  lemma {:induction false} RunSound(moves: seq<Move>)
    ensures Sound(Run(moves))
    decreases |moves|
  {
    if moves != [] {
      RunSound(moves[..|moves| - 1]);
    }
  }

  predicate Quiet(s: State) { !s.armed && s.queued == 0 && s.inside == 0 }

  /** However calls, timers and runs interleave: runs never overlap, there are at most as many as
      calls, and once everything is quiet a run has started behind the last call. */
  lemma Debounced(moves: seq<Move>)
    ensures var s := Run(moves);
            s.inside <= 1 && s.runs <= s.calls && (Quiet(s) && s.calls > 0 ==> s.behind && s.runs > 0)
  {
    RunSound(moves);
    BehindMeansRun(moves);
  }

  lemma {:induction false} BehindMeansRun(moves: seq<Move>)
    ensures Run(moves).behind ==> Run(moves).runs > 0
    decreases |moves|
  {
    if moves != [] {
      BehindMeansRun(moves[..|moves| - 1]);
    }
  }

  /** What is still to happen if nobody calls again. */
  function Pending(s: State): nat { 3 * One(s.armed) + 2 * s.queued + s.inside }

  /** The next move of a state that nobody calls in. */
  function Settle(s: State): Move
  {
    if s.inside > 0 then End else if s.queued > 0 then Start else Fire
  }

  /** It always becomes quiet: until then some move is possible, and each one leaves less to do. */
  lemma ComesToRest(moves: seq<Move>)
    ensures var s := Run(moves);
            !Quiet(s) ==> Enabled(s, Settle(s)) && Pending(Run(moves + [Settle(s)])) < Pending(s)
  {
    assert (moves + [Settle(Run(moves))])[..|moves|] == moves;
  }

  /** The closure's timer and locks; each method is one atomic piece of it. */
  class Debouncer {
    var timer: bool
    var waiting: nat
    var running: nat
    ghost var moves: seq<Move>

    ghost predicate Valid()
      reads this
    {
      var s := Run(moves);
      s.armed == timer && s.queued == waiting && s.inside == running
    }

    constructor ()
      ensures Valid() && moves == []
    {
      timer, waiting, running, moves := false, 0, 0, [];
    }

    ghost method Note(m: Move)
      modifies this`moves
      ensures moves == old(moves) + [m] && Run(moves) == Step(Run(old(moves)), m)
    {
      moves := moves + [m];
      assert moves[..|moves| - 1] == old(moves);
    }

    /** The returned function: stop the timer that has not fired, arm a new one. */
    method Trigger()
      requires Valid()
      modifies this
      ensures Valid() && moves == old(moves) + [Call]
    {
      if timer {
        timer := false;
      }
      timer := true;
      Note(Call);
    }

    /** The timer fires: its goroutine now waits for the run lock. */
    method Elapse()
      requires Valid() && timer
      modifies this
      ensures Valid() && moves == old(moves) + [Fire]
    {
      timer, waiting := false, waiting + 1;
      Note(Fire);
    }

    /** A waiting goroutine gets the run lock and enters f; nobody else is inside. */
    method Enter()
      requires Valid() && waiting > 0 && running == 0
      modifies this
      ensures Valid() && moves == old(moves) + [Start] && running == 1
    {
      waiting, running := waiting - 1, running + 1;
      Note(Start);
    }

    /** f returns and the lock is free. */
    method Leave()
      requires Valid() && running > 0
      modifies this
      ensures Valid() && moves == old(moves) + [End] && running == 0
    {
      RunSound(moves);
      running := running - 1;
      Note(End);
    }
  }
}
