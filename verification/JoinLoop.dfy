/** The loop around the wait for the join code: exchange what came, try again after a wrong pasted
    code, and tell the browser that still waits how it ended. */
module JoinLoop {
  import opened Text
  import A = AwaitCode

  datatype Exchange = Token | InvalidGrant | Refused

  /** What awaitCode came back with. */
  datatype Awaited = GotCode(pasted: bool) | GotDenied | GotError

  /** One round: what was awaited, how the exchange would go, and whether time is up behind it. */
  datatype Round = Round(awaited: Awaited, exchange: Exchange, over: bool)

  datatype End = Running | Connected | Denied | GaveUp

  /** What a round does: end or go on, and what it tells the listener. */
  datatype Ruling = Ruling(end: End, finish: Option<bool>, settle: bool)

  function Rule(cb: bool, r: Round): Ruling
  {
    match r.awaited
    case GotDenied => Ruling(Denied, if cb then Some(false) else None, false)
    case GotError => Ruling(GaveUp, None, false)
    case GotCode(pasted) =>
      var ok := r.exchange.Token?;
      Ruling(if ok then Connected else if pasted && r.exchange.InvalidGrant? && !r.over then Running else GaveUp,
             if cb && (!pasted || ok) then Some(ok) else None,
             cb && pasted && ok)
  }

  // ---- The loop by itself ----

  /** A wrong or foreign pasted code, with time left. */
  predicate TriesAgain(r: Round) { r.awaited == GotCode(true) && r.exchange.InvalidGrant? && !r.over }

  /** joinBrowser's loop over the rounds it meets; `calls` are its calls of Finish. It stops at the
      first round that is no wrong paste: denied if the browser was, connected with a token, given up
      else. Finish is called at most once, at the end and with the truth, and always when there is a
      token; Settle comes with a pasted code's token only. */
  method JoinBrowser(cb: bool, rounds: seq<Round>) returns (end: End, n: nat, calls: seq<bool>, settled: bool)
    ensures n <= |rounds| && forall k :: 0 <= k < (if end.Running? then n else n - 1) ==> TriesAgain(rounds[k])
    ensures end.Running? ==> n == |rounds| && calls == []
    ensures !end.Running? ==> n > 0 && end == Rule(cb, rounds[n - 1]).end && !TriesAgain(rounds[n - 1])
    ensures end.Denied? <==> n > 0 && rounds[n - 1].awaited.GotDenied?
    ensures end.Connected? <==> n > 0 && rounds[n - 1].awaited.GotCode? && rounds[n - 1].exchange.Token?
    ensures |calls| <= 1 && (calls != [] ==> cb && calls[0] == end.Connected?)
    ensures !end.Running? ==>
              (calls != [] <==> cb && !rounds[n - 1].awaited.GotError? && (rounds[n - 1].awaited == GotCode(true) ==> end.Connected?))
    ensures settled <==> cb && end.Connected? && rounds[n - 1].awaited.pasted
  {
    end, n, calls, settled := Running, 0, [], false;
    while n < |rounds|
      invariant n <= |rounds| && end.Running? && calls == [] && !settled
      invariant forall k :: 0 <= k < n ==> TriesAgain(rounds[k])
    {
      var r := rounds[n];
      n := n + 1;
      if r.awaited.GotDenied? {
        if cb {
          calls := calls + [false];
        }
        return Denied, n, calls, settled;
      }
      if r.awaited.GotError? {
        return GaveUp, n, calls, settled;
      }
      var failed := !r.exchange.Token?;
      if cb {
        if !r.awaited.pasted {
          calls := calls + [!failed];
        } else if !failed {
          settled := true;
          calls := calls + [true];
        }
      }
      if failed {
        if r.awaited.pasted && r.exchange.InvalidGrant? && !r.over {
          continue;
        }
        return GaveUp, n, calls, settled;
      }
      return Connected, n, calls, settled;
    }
  }

  // ---- The loop beside the listener's requests ----

  /** A callback request: behind the settled check, winner of the used flag, waiting for the result,
      or answered. `Left` is one that waited too long. */
  datatype Page = Looking(reply: A.Outcome) | Winner(reply: A.Outcome) | Waiting | Done | Failed | NotFound | Left

  /** `winner` is set with the used flag, `got` and `result` are channels of capacity one, `tried`
      the exchanges so far with whether the code was pasted. */
  datatype State = State(settled: bool, winner: Option<nat>, got: Option<A.Outcome>, result: Option<bool>,
                         pages: map<nat, Page>, end: End, tried: seq<(bool, Exchange)>)

  const START := State(false, None, None, None, map[], Running, [])

  /** Steps of requests, and rounds of the loop. A round that ends without the callback may drain
      its channel or not. */
  datatype Move =
    | Arrive(id: nat, reply: A.Outcome) | Compete(id: nat) | Send(id: nat) | Hear(id: nat) | Leave(id: nat)
    | ByCallback(exchange: Exchange, over: bool)
    | ByOther(awaited: Awaited, drains: bool, exchange: Exchange, over: bool)

  function PageOf(s: State, id: nat): Page { if id in s.pages then s.pages[id] else NotFound }

  function Show(s: State, id: nat, p: Page): State { s.(pages := s.pages[id := p]) }

  /** The rest of a round: Settle, then Finish, which drops what finds the channel full. */
  function Conclude(s: State, r: Round, got: Option<A.Outcome>): State
  {
    var rule := Rule(true, r);
    s.(got := got, end := rule.end, settled := s.settled || rule.settle,
       result := if s.result.None? then rule.finish else s.result,
       tried := if r.awaited.GotCode? then s.tried + [(r.awaited.pasted, r.exchange)] else s.tried)
  }

  function AwaitedFrom(reply: A.Outcome): Awaited
  {
    match reply case Code => GotCode(false) case Denied => GotDenied case Failed => GotError
  }

  function Step(s: State, m: Move): State
  {
    match m
    case Arrive(id, reply) => if id in s.pages then s else Show(s, id, if s.settled then Done else Looking(reply))
    case Compete(id) =>
      if !PageOf(s, id).Looking? then s
      else if s.winner.Some? then Show(s, id, NotFound)
      else Show(s, id, Winner(s.pages[id].reply)).(winner := Some(id))
    case Send(id) =>
      if !PageOf(s, id).Winner? || s.got.Some? then s
      else Show(s, id, Waiting).(got := Some(s.pages[id].reply))
    case Hear(id) =>
      if !PageOf(s, id).Waiting? || s.result.None? then s
      else Show(s, id, if s.result.value then Done else Failed).(result := None)
    case Leave(id) => if PageOf(s, id).Waiting? then Show(s, id, Left) else s
    case ByCallback(exchange, over) =>
      if !s.end.Running? || s.got.None? then s
      else Conclude(s, Round(AwaitedFrom(s.got.value), exchange, over), None)
    case ByOther(awaited, drains, exchange, over) =>
      if !s.end.Running? || awaited == GotCode(false) then s
      else Conclude(s, Round(awaited, exchange, over), if drains then None else s.got)
  }

  function Run(s: State, moves: seq<Move>): State
    decreases |moves|
  {
    if moves == [] then s else Step(Run(s, moves[..|moves| - 1]), moves[|moves| - 1])
  }

  predicate Wrong(x: (bool, Exchange)) { x.0 && x.1.InvalidGrant? }

  /** Only the last exchange can be anything but a wrong pasted code. */
  ghost predicate TriedRight(end: End, tried: seq<(bool, Exchange)>)
  {
    && (forall k :: 0 <= k < |tried| - 1 ==> Wrong(tried[k]))
    && (end.Running? && tried != [] ==> Wrong(tried[|tried| - 1]))
    && (end.Connected? <==> tried != [] && tried[|tried| - 1].1.Token?)
  }

  /** The winner has not been answered yet, or nobody has won so far. */
  predicate Unheard(s: State)
  {
    s.winner.None? || PageOf(s, s.winner.value).Winner? || PageOf(s, s.winner.value).Waiting?
  }

  ghost predicate PagesRight(s: State)
  {
    forall id: nat :: match PageOf(s, id)
                 case Done => s.end.Connected?
                 case Failed => s.end.Denied? || s.end.GaveUp?
                 case Winner(_) => s.winner == Some(id) && s.got.None?
                 case Waiting => s.winner == Some(id)
                 case _ => true
  }

  ghost predicate Sound(s: State)
  {
    && TriedRight(s.end, s.tried) && PagesRight(s)
    && (s.result.Some? ==> !s.end.Running? && s.result.value == s.end.Connected?)
    && (s.settled ==> s.end.Connected?)
    && (s.got.Some? ==> s.winner.Some?)
    && (s.end.Connected? && Unheard(s) ==> s.result == Some(true))
  }

  /** A page that changes beside the rest, the winner as it was. */
  lemma PageChanges(s: State, id: nat, p: Page)
    requires Sound(s) && (p.Done? ==> s.end.Connected?) && (p.Failed? ==> s.end.Denied? || s.end.GaveUp?)
    requires !p.Winner? && !p.Waiting?
    ensures Sound(Show(s, id, p))
  {
    assert forall x: nat :: x != id ==> PageOf(Show(s, id, p), x) == PageOf(s, x);
  }

  lemma ArriveKeeps(s: State, id: nat, reply: A.Outcome)
    requires Sound(s)
    ensures Sound(Step(s, Arrive(id, reply)))
  {
    PageChanges(s, id, if s.settled then Done else Looking(reply));
  }

  lemma CompeteKeeps(s: State, id: nat)
    requires Sound(s)
    ensures Sound(Step(s, Compete(id)))
  {
    if PageOf(s, id).Looking? && s.winner.None? {
      var s' := Step(s, Compete(id));
      assert forall x: nat :: x != id ==> PageOf(s', x) == PageOf(s, x);
    } else {
      PageChanges(s, id, NotFound);
    }
  }

  lemma SendKeeps(s: State, id: nat)
    requires Sound(s)
    ensures Sound(Step(s, Send(id)))
  {
    var s' := Step(s, Send(id));
    assert forall x: nat :: x != id ==> PageOf(s', x) == PageOf(s, x);
  }

  lemma HearKeeps(s: State, id: nat)
    requires Sound(s)
    ensures Sound(Step(s, Hear(id)))
  {
    var s' := Step(s, Hear(id));
    assert forall x: nat :: x != id ==> PageOf(s', x) == PageOf(s, x);
  }

  lemma RequestKeeps(s: State, m: Move)
    requires Sound(s) && !m.ByCallback? && !m.ByOther?
    ensures Sound(Step(s, m))
  {
    match m
    case Arrive(id, reply) => ArriveKeeps(s, id, reply);
    case Compete(id) => CompeteKeeps(s, id);
    case Send(id) => SendKeeps(s, id);
    case Hear(id) => HearKeeps(s, id);
    case Leave(id) => PageChanges(s, id, Left);
  }

  lemma RoundKeeps(s: State, r: Round, got: Option<A.Outcome>)
    requires Sound(s) && s.end.Running? && (got == s.got || got.None?)
    ensures Sound(Conclude(s, r, got))
  {
    var s' := Conclude(s, r, got);
    assert forall x: nat :: PageOf(s', x) == PageOf(s, x);
    var n := |s.tried|;
    assert TriedRight(s'.end, s'.tried) by {
      assert s'.tried == s.tried || (s'.tried[..n] == s.tried && s'.tried[n] == (r.awaited.pasted, r.exchange));
    }
  }

  lemma StepKeeps(s: State, m: Move)
    requires Sound(s)
    ensures Sound(Step(s, m))
  {
    match m
    case ByCallback(exchange, over) =>
      if s.end.Running? && s.got.Some? {
        RoundKeeps(s, Round(AwaitedFrom(s.got.value), exchange, over), None);
      }
    case ByOther(awaited, drains, exchange, over) =>
      if s.end.Running? {
        RoundKeeps(s, Round(awaited, exchange, over), if drains then None else s.got);
      }
    case _ => RequestKeeps(s, m);
  }

  lemma {:induction false} RunKeeps(s: State, moves: seq<Move>)
    requires Sound(s)
    ensures Sound(Run(s, moves))
    decreases |moves|
  {
    if moves != [] {
      RunKeeps(s, moves[..|moves| - 1]);
      StepKeeps(Run(s, moves[..|moves| - 1]), moves[|moves| - 1]);
    }
  }

  /** After any run of requests and rounds: at most one exchange gave a token, the last, and only
      then has the loop connected; every one before it was a wrong pasted code. Finish never finds
      its channel full. */
  lemma OneToken(moves: seq<Move>)
    ensures var s := Run(START, moves);
            && (forall k :: 0 <= k < |s.tried| && s.tried[k].1.Token? ==> k == |s.tried| - 1 && s.end.Connected?)
            && (s.end.Connected? ==> s.tried != [] && s.tried[|s.tried| - 1].1.Token?)
            && (forall k :: 0 <= k < |s.tried| - 1 ==> Wrong(s.tried[k]))
            && (s.end.Running? ==> s.result.None?)
  {
    RunKeeps(START, moves);
  }

  /** The pages tell the truth: a browser is shown success only with a token, failure only without
      one, and one that still waits when there is a token will be shown success. */
  lemma PagesTellTheTruth(moves: seq<Move>, id: nat)
    ensures var s := Run(START, moves);
            && (PageOf(s, id).Done? ==> s.end.Connected?)
            && (PageOf(s, id).Failed? ==> !s.end.Running? && !s.end.Connected?)
            && (PageOf(s, id).Waiting? && s.end.Connected? ==> PageOf(Step(s, Hear(id)), id).Done?)
  {
    RunKeeps(START, moves);
  }

  /** The winner's message was taken, or drained, and nobody can send another. */
  ghost predicate Spent(s: State)
  {
    s.winner.Some? && s.got.None? && !PageOf(s, s.winner.value).Winner?
  }

  lemma SpentStays(s: State, m: Move)
    requires Sound(s) && Spent(s)
    ensures var s' := Step(s, m);
            Spent(s') && (s'.tried == s.tried || exists x: Exchange :: s'.tried == s.tried + [(true, x)])
  {
    match m
    case Compete(id) =>
    case Send(id) =>
    case ByOther(awaited, _, exchange, _) =>
      if s.end.Running? && awaited.GotCode? && awaited.pasted {
        assert Step(s, m).tried == s.tried + [(true, exchange)];
      }
    case _ =>
  }

  /** Once the browser's code was drained behind a wrong pasted one, only pasted codes are ever
      exchanged again: the approval in the browser is lost for this run. */
  lemma {:induction false} OnlyPasteIsLeft(s: State, moves: seq<Move>)
    requires Sound(s) && Spent(s)
    ensures var e := Run(s, moves);
            && Sound(e) && Spent(e)
            && |s.tried| <= |e.tried| && forall k :: |s.tried| <= k < |e.tried| ==> e.tried[k].0
    decreases |moves|
  {
    if moves != [] {
      var before := moves[..|moves| - 1];
      OnlyPasteIsLeft(s, before);
      StepKeeps(Run(s, before), moves[|moves| - 1]);
      SpentStays(Run(s, before), moves[|moves| - 1]);
    }
  }

  /** The message the winning request still brings: on its way, or in the channel. */
  function AtHand(s: State): Option<A.Outcome>
  {
    if s.got.Some? then s.got
    else if s.winner.Some? && PageOf(s, s.winner.value).Winner? then Some(PageOf(s, s.winner.value).reply)
    else None
  }

  /** Some run of requests and rounds from here exchanges the browser's code. */
  ghost predicate CanExchange(s: State)
  {
    exists moves: seq<Move>, k: nat :: ExchangesAt(s, moves, k)
  }

  ghost predicate ExchangesAt(s: State, moves: seq<Move>, k: nat)
  {
    var e := Run(s, moves);
    |s.tried| <= k < |e.tried| && !e.tried[k].0
  }

  lemma NoCodeStays(s: State, m: Move)
    requires Sound(s) && s.winner.Some? && AtHand(s) != Some(A.Code)
    ensures var s' := Step(s, m);
            && s'.winner.Some? && AtHand(s') != Some(A.Code)
            && (s'.tried == s.tried || exists x: Exchange :: s'.tried == s.tried + [(true, x)])
  {
    match m
    case Compete(id) =>
    case Send(id) =>
    case ByOther(awaited, _, exchange, _) =>
      if s.end.Running? && awaited.GotCode? && awaited.pasted {
        assert Step(s, m).tried == s.tried + [(true, exchange)];
      }
    case _ =>
  }

  lemma {:induction false} NoCodeForGood(s: State, moves: seq<Move>)
    requires Sound(s) && s.winner.Some? && AtHand(s) != Some(A.Code)
    ensures var e := Run(s, moves);
            && Sound(e) && e.winner.Some? && AtHand(e) != Some(A.Code)
            && |s.tried| <= |e.tried| && forall k :: |s.tried| <= k < |e.tried| ==> e.tried[k].0
    decreases |moves|
  {
    if moves != [] {
      var before := moves[..|moves| - 1];
      NoCodeForGood(s, before);
      StepKeeps(Run(s, before), moves[|moves| - 1]);
      NoCodeStays(Run(s, before), moves[|moves| - 1]);
    }
  }

  lemma {:induction false} FreshId(pages: map<nat, Page>) returns (id: nat)
    ensures forall x :: x in pages ==> x < id
    decreases |pages|
  {
    id := 0;
    if pages != map[] {
      var x :| x in pages;
      var rest := map y | y in pages && y != x :: pages[y];
      assert rest.Keys == pages.Keys - {x};
      id := FreshId(rest);
      id := if x < id then id else x + 1;
      forall y | y in pages ensures y < id {
        if y != x { assert y in rest; }
      }
    }
  }

  /** A code in the channel is exchanged in the next round. */
  lemma GotExchanges(s: State)
    requires s.end.Running? && s.got == Some(A.Code)
    ensures CanExchange(s)
  {
    var m := ByCallback(Token, false);
    Follow(s, [m], [s, Step(s, m)], 1);
    assert [m][..1] == [m];
    assert Step(s, m).tried == s.tried + [(false, Token)];
    assert ExchangesAt(s, [m], |s.tried|);
  }

  lemma Later(s: State, m: Move)
    requires Step(s, m).tried == s.tried && CanExchange(Step(s, m))
    ensures CanExchange(s)
  {
    var moves, k :| ExchangesAt(Step(s, m), moves, k);
    RunFirst(s, m, moves);
    assert ExchangesAt(s, [m] + moves, k);
  }

  lemma {:induction false} RunFirst(s: State, m: Move, moves: seq<Move>)
    ensures Run(s, [m] + moves) == Run(Step(s, m), moves)
    decreases |moves|
  {
    var all := [m] + moves;
    if moves == [] {
      assert all[..0] == [];
    } else {
      RunFirst(s, m, moves[..|moves| - 1]);
      assert all[..|all| - 1] == [m] + moves[..|moves| - 1];
    }
  }

  /** The winner sends what it brings, and the next round exchanges it. */
  lemma WinnerExchanges(s: State)
    requires s.end.Running? && s.winner.Some? && s.got.None? && PageOf(s, s.winner.value) == Winner(A.Code)
    ensures CanExchange(s)
  {
    var m := Send(s.winner.value);
    GotExchanges(Step(s, m));
    Later(s, m);
  }

  lemma NobodyExchanges(s: State)
    requires s.end.Running? && s.winner.None? && s.got.None? && !s.settled
    ensures CanExchange(s)
  {
    var id := FreshId(s.pages);
    var s1 := Step(s, Arrive(id, A.Code));
    assert PageOf(s1, id) == Looking(A.Code);
    var s2 := Step(s1, Compete(id));
    assert PageOf(s2, id) == Winner(A.Code);
    WinnerExchanges(s2);
    Later(s1, Compete(id));
    Later(s, Arrive(id, A.Code));
  }

  /** When the browser's code can still be exchanged, exactly: in every reachable state of the
      running loop, some course of events exchanges it if and only if no request has won yet, or the
      one that has still brings a code. So once a code that was brought is spent, and only then,
      the approval is lost. */
  lemma ApprovalExactly(moves: seq<Move>)
    ensures var s := Run(START, moves);
            s.end.Running? ==>
              && (CanExchange(s) <==> s.winner.None? || AtHand(s) == Some(A.Code))
              && (Spent(s) <==> s.winner.Some? && AtHand(s).None?)
  {
    RunKeeps(START, moves);
    var s := Run(START, moves);
    if s.end.Running? {
      if s.winner.None? {
        NobodyExchanges(s);
      } else if s.got == Some(A.Code) {
        GotExchanges(s);
      } else if AtHand(s) == Some(A.Code) {
        WinnerExchanges(s);
      } else if CanExchange(s) {
        var more, k :| ExchangesAt(s, more, k);
        NoCodeForGood(s, more);
      }
    }
  }

  /** A request that has brought its code. */
  lemma Approved() returns (s1: State, s2: State, s3: State)
    ensures s1 == Step(START, Arrive(0, A.Code)) && s2 == Step(s1, Compete(0)) && s3 == Step(s2, Send(0))
    ensures PageOf(s3, 0) == Waiting && s3.winner == Some(0) && s3.end.Running?
  {
    s1 := Step(START, Arrive(0, A.Code));
    assert PageOf(s1, 0) == Looking(A.Code) && s1.winner.None? && s1.got.None? && s1.end.Running?;
    s2 := Step(s1, Compete(0));
    assert PageOf(s2, 0) == Winner(A.Code) && s2.winner == Some(0) && s2.got.None? && s2.end.Running?;
    s3 := Step(s2, Send(0));
  }

  /** A wrong paste behind which the channel is drained. */
  lemma DrainedBehindPaste(s: State)
    requires s.end.Running? && s.winner == Some(0) && PageOf(s, 0).Waiting?
    ensures var s' := Step(s, ByOther(GotCode(true), true, InvalidGrant, false));
            s'.end.Running? && Spent(s') && PageOf(s', 0).Waiting?
  {
  }

  /** That does happen: approved in the browser, drained behind a wrong paste, still running. */
  lemma ApprovalCanBeLost()
    ensures exists moves: seq<Move> :: var s := Run(START, moves);
              s.end.Running? && Spent(s) && Arrive(0, A.Code) in moves && PageOf(s, 0).Waiting?
  {
    var paste := ByOther(GotCode(true), true, InvalidGrant, false);
    var s1, s2, s3 := Approved();
    DrainedBehindPaste(s3);
    var m := [Arrive(0, A.Code), Compete(0), Send(0), paste];
    Follow(START, m, [START, s1, s2, s3, Step(s3, paste)], 4);
    assert m[..4] == m && m[0] in m;
  }

  lemma {:induction false} Follow(s: State, moves: seq<Move>, states: seq<State>, n: nat)
    requires n <= |moves| && |states| == |moves| + 1 && states[0] == s
    requires forall k :: 0 <= k < |moves| ==> states[k + 1] == Step(states[k], moves[k])
    ensures Run(s, moves[..n]) == states[n]
    decreases n
  {
    if n > 0 {
      Follow(s, moves, states, n - 1);
      assert moves[..n][..n - 1] == moves[..n - 1];
    }
  }

  // ---- After a pasted code has won ----

  /** The last exchange was of a pasted code. */
  predicate LastPasted(s: State) { s.tried != [] && s.tried[|s.tried| - 1].0 }

  lemma StepSettles(s: State, m: Move)
    requires s.settled <==> s.end.Connected? && LastPasted(s)
    ensures var s' := Step(s, m); s'.settled <==> s'.end.Connected? && LastPasted(s')
  {
  }

  /** The listener is settled exactly behind a pasted code's token. */
  lemma {:induction false} SettledExactly(moves: seq<Move>)
    ensures var s := Run(START, moves); s.settled <==> s.end.Connected? && LastPasted(s)
    decreases |moves|
  {
    if moves != [] {
      SettledExactly(moves[..|moves| - 1]);
      StepSettles(Run(START, moves[..|moves| - 1]), moves[|moves| - 1]);
    }
  }

  /** A browser that comes behind a pasted code's token is shown success. */
  lemma LateBrowserSeesSuccess(moves: seq<Move>, id: nat, reply: A.Outcome)
    requires var s := Run(START, moves); s.end.Connected? && LastPasted(s) && id !in s.pages
    ensures PageOf(Step(Run(START, moves), Arrive(id, reply)), id).Done?
  {
    SettledExactly(moves);
  }
}
