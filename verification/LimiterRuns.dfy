/** What the send limiter guarantees: the spacing of sequential sends, the bound with calls in
    flight, and when the reported wait is exact. */
module LimiterRuns {
  import opened SendLimiter

  ghost predicate Sorted(ts: seq<int>)
  {
    forall i, k :: 0 <= i < k < |ts| ==> ts[i] <= ts[k]
  }

  /** From this index on, and only there, the sends lie within the window. */
  ghost predicate TailFrom(ts: seq<int>, now: int, window: int, from: nat)
  {
    && from <= |ts| && Recent(ts, now, window) == ts[from..]
    && forall i :: 0 <= i < |ts| ==> (now - ts[i] < window <==> from <= i)
  }

  lemma TailMore(ts: seq<int>, t: int, now: int, window: int, from: nat)
    requires Sorted(ts + [t]) && TailFrom(ts, now, window, from) && now - t < window
    ensures TailFrom(ts + [t], now, window, from)
  {
    assert (ts + [t])[..|ts|] == ts;
    assert ts[from..] + [t] == (ts + [t])[from..];
  }

  lemma TailEnds(ts: seq<int>, t: int, now: int, window: int, from: nat)
    requires Sorted(ts + [t]) && TailFrom(ts, now, window, from) && now - t >= window
    ensures TailFrom(ts + [t], now, window, |ts| + 1)
  {
    assert (ts + [t])[..|ts|] == ts;
    forall i | 0 <= i < |ts| ensures now - ts[i] >= window {
      assert (ts + [t])[i] <= (ts + [t])[|ts|];
    }
    assert Recent(ts, now, window) == ts[from..] == [];
  }

  /** In a sorted history the sends within a window are its tail. */
  lemma {:induction false} RecentIsTail(ts: seq<int>, now: int, window: int) returns (from: nat)
    requires Sorted(ts)
    ensures TailFrom(ts, now, window, from)
    decreases |ts|
  {
    from := 0;
    if ts != [] {
      var before, t := ts[..|ts| - 1], ts[|ts| - 1];
      from := RecentIsTail(before, now, window);
      assert before + [t] == ts;
      if now - t < window {
        TailMore(before, t, now, window, from);
      } else {
        TailEnds(before, t, now, window, from);
        from := |ts|;
      }
    }
  }

  // ---- Check, then record, one call at a time ----

  /** Each send was admitted on the history before it, at or before its own instant. */
  ghost predicate Sequential(ts: seq<int>, checks: seq<int>)
  {
    && |checks| == |ts| && Sorted(ts)
    && forall i :: 0 <= i < |ts| ==>
         Decide(ts[..i], checks[i]) == Admitted && checks[i] <= ts[i] && (i > 0 ==> ts[i - 1] <= checks[i])
  }

  lemma SpacedBy(ts: seq<int>, i: nat, now: int, limit: nat, window: int)
    requires 0 < limit <= i <= |ts| && Sorted(ts) && window > 0
    requires |Recent(ts[..i], now, window)| < limit
    ensures now - ts[i - limit] >= window
  {
    var from := RecentIsTail(ts[..i], now, window);
    assert |ts[..i][from..]| == i - from;
    assert ts[..i][i - limit] == ts[i - limit];
  }

  /** The i-th send comes at least a minute after the tenth before it and a quarter of an hour
      after the thirtieth before it. */
  lemma SendsAreSpaced(ts: seq<int>, checks: seq<int>, i: nat)
    requires Sequential(ts, checks) && i < |ts|
    ensures i >= PER_MINUTE ==> ts[i] - ts[i - PER_MINUTE] >= MINUTE
    ensures i >= PER_QUARTER ==> ts[i] - ts[i - PER_QUARTER] >= QUARTER
  {
    if i >= PER_MINUTE {
      SpacedBy(ts, i, checks[i], PER_MINUTE, MINUTE);
    }
    if i >= PER_QUARTER {
      SpacedBy(ts, i, checks[i], PER_QUARTER, QUARTER);
    }
  }

  // ---- The reported wait ----

  /** When one limit alone admits again, if nothing more is sent. */
  predicate Admits(ts: seq<int>, at: int, limit: nat, window: int)
  {
    |Recent(ts, at, window)| < limit
  }

  /** A limit that refuses at `now` admits again exactly from the instant its limit-th newest
      send leaves the window. */
  lemma AdmitsAgain(ts: seq<int>, now: int, at: int, limit: nat, window: int)
    requires Sorted(ts) && 0 < limit && now <= at && |Recent(ts, now, window)| >= limit
    ensures var r := Recent(ts, now, window);
            Admits(ts, at, limit, window) <==> at >= r[|r| - limit] + window
  {
    var from := RecentIsTail(ts, now, window);
    var later := RecentIsTail(ts, at, window);
    var k := |ts| - limit;
    assert ts[from..][k - from] == ts[k];
    assert at - ts[k] < window <==> later <= k;
  }

  /** The wait that a refusal reports is the least one after which the refusing limit admits
      again, exactly when its window's first send is as old as its limit-th newest. */
  lemma WaitExactly(ts: seq<int>, now: int, limit: nat, window: int)
    requires Sorted(ts) && 0 < limit && |Recent(ts, now, window)| >= limit && window > 0
    ensures var r := Recent(ts, now, window);
            var wait := r[0] + window - now;
            && wait > 0
            && ((forall at :: now <= at ==> (Admits(ts, at, limit, window) <==> at >= now + wait))
                <==> r[0] == r[|r| - limit])
  {
    var r := Recent(ts, now, window);
    var from := RecentIsTail(ts, now, window);
    assert r[0] == ts[from] && now - ts[from] < window;
    forall at | now <= at ensures Admits(ts, at, limit, window) <==> at >= r[|r| - limit] + window {
      AdmitsAgain(ts, now, at, limit, window);
    }
    if r[0] != r[|r| - limit] {
      assert r[0] < r[|r| - limit];
      assert !Admits(ts, r[0] + window, limit, window);
    }
  }

  /** Sequential sends never exceed a limit, so their refusals report the exact wait. */
  lemma SequentialWaitExact(ts: seq<int>, checks: seq<int>, now: int, at: int)
    requires Sequential(ts, checks) && (ts != [] ==> ts[|ts| - 1] <= now) && now <= at
    ensures |Recent(ts, now, MINUTE)| <= PER_MINUTE && |Recent(ts, now, QUARTER)| <= PER_QUARTER
    ensures match Decide(ts, now)
            case Admitted => true
            case Refused(wait) =>
              if |Recent(ts, now, MINUTE)| == PER_MINUTE
              then Admits(ts, at, PER_MINUTE, MINUTE) <==> at >= now + wait
              else Admits(ts, at, PER_QUARTER, QUARTER) <==> at >= now + wait
  {
    NeverMore(ts, checks, now, PER_MINUTE, MINUTE);
    NeverMore(ts, checks, now, PER_QUARTER, QUARTER);
    if |Recent(ts, now, MINUTE)| == PER_MINUTE {
      AdmitsAgain(ts, now, at, PER_MINUTE, MINUTE);
    } else if |Recent(ts, now, QUARTER)| == PER_QUARTER {
      AdmitsAgain(ts, now, at, PER_QUARTER, QUARTER);
    }
  }

  lemma NeverMore(ts: seq<int>, checks: seq<int>, now: int, limit: nat, window: int)
    requires Sequential(ts, checks) && (ts != [] ==> ts[|ts| - 1] <= now)
    requires (limit == PER_MINUTE && window == MINUTE) || (limit == PER_QUARTER && window == QUARTER)
    ensures |Recent(ts, now, window)| <= limit
  {
    var from := RecentIsTail(ts, now, window);
    if |ts| > limit {
      SendsAreSpaced(ts, checks, |ts| - 1);
      assert now - ts[|ts| - 1 - limit] >= window;
    }
  }

  // ---- Calls in flight ----

  /** A call checks, then either sends (and records when) or gives up. */
  datatype Event = Checked(call: nat, at: int, ok: bool) | Sent(call: nat, at: int) | Gave(call: nat)

  type Log = seq<Event>

  function Times(log: Log): seq<int>
    decreases |log|
  {
    if log == [] then []
    else
      var before, e := Times(log[..|log| - 1]), log[|log| - 1];
      if e.Sent? then before + [e.at] else before
  }

  /** Admitted calls that have neither sent nor given up. */
  function InFlight(log: Log): set<nat>
    decreases |log|
  {
    if log == [] then {}
    else
      var before, e := InFlight(log[..|log| - 1]), log[|log| - 1];
      match e
      case Checked(call, _, ok) => if ok then before + {call} else before
      case Sent(call, _) => before - {call}
      case Gave(call) => before - {call}
  }

  predicate Fresh(log: Log, call: nat)
  {
    forall i :: 0 <= i < |log| ==> log[i].call != call
  }

  /** The instant of a call's check. */
  function CheckOf(log: Log, call: nat): int
    decreases |log|
  {
    if log == [] then 0
    else
      var e := log[|log| - 1];
      if e.Checked? && e.call == call then e.at else CheckOf(log[..|log| - 1], call)
  }

  /** Any interleaving of calls: each check is answered on what was recorded so far, a call sends
      only once, after it was admitted, and not before the instant of its check. */
  ghost predicate Played(log: Log)
    decreases |log|
  {
    log == [] ||
    (var before, e := log[..|log| - 1], log[|log| - 1];
     && Played(before)
     && match e
        case Checked(call, at, ok) => Fresh(before, call) && ok == (Decide(Times(before), at) == Admitted)
        case Sent(call, at) => call in InFlight(before) && CheckOf(before, call) <= at
        case Gave(call) => call in InFlight(before))
  }

  /** Calls that sent within (from, to]. */
  function SentIn(log: Log, from: int, to: int): set<nat>
    decreases |log|
  {
    if log == [] then {}
    else
      var before, e := SentIn(log[..|log| - 1], from, to), log[|log| - 1];
      if e.Sent? && from < e.at <= to then before + {e.call} else before
  }

  lemma {:induction false} FlightsAreKnown(log: Log, from: int, to: int)
    ensures forall c :: c in InFlight(log) ==> !Fresh(log, c)
    ensures forall c :: c in SentIn(log, from, to) ==> !Fresh(log, c)
    decreases |log|
  {
    if log != [] {
      var before, e := log[..|log| - 1], log[|log| - 1];
      FlightsAreKnown(before, from, to);
      forall c | !Fresh(before, c) ensures !Fresh(log, c) {
        var i :| 0 <= i < |before| && before[i].call == c;
        assert log[i].call == c;
      }
      assert !Fresh(log, e.call) by { assert log[|log| - 1].call == e.call; }
    }
  }

  /** Who is in flight has not sent. */
  lemma {:induction false} FlyingNotSent(log: Log, from: int, to: int)
    requires Played(log)
    ensures InFlight(log) !! SentIn(log, from, to)
    decreases |log|
  {
    if log != [] {
      var before := log[..|log| - 1];
      FlyingNotSent(before, from, to);
      FlightsAreKnown(before, from, to);
    }
  }

  /** Sends within a window before `now` are counted by Recent, if they reach to it. */
  lemma {:induction false} CountsRecent(log: Log, from: int, to: int, now: int, window: int)
    requires Played(log) && now - from <= window
    ensures |SentIn(log, from, to)| <= |Recent(Times(log), now, window)|
    decreases |log|
  {
    if log != [] {
      var before, e := log[..|log| - 1], log[|log| - 1];
      CountsRecent(before, from, to, now, window);
      if e.Sent? {
        FlyingNotSent(before, from, to);
        assert Times(log)[..|Times(before)|] == Times(before);
      }
    }
  }

  lemma UnionBound(a: set<nat>, b: set<nat>, n: nat, k: nat)
    requires |a| <= n && |b| <= k
    ensures |a + b| <= n + k
  {
    assert |a + b| == |a| + |b| - |a * b|;
  }

  /** Behind its own check a call's window can only fill up from the calls then in flight. */
  lemma {:induction false} FillsFromFlight(log: Log, m: nat, from: int, to: int)
    requires Played(log) && m <= |log|
    requires forall i :: m <= i < |log| && log[i].Checked? && log[i].ok ==> log[i].at > to
    ensures SentIn(log, from, to) <= SentIn(log[..m], from, to) + InFlight(log[..m])
    ensures forall c :: c in InFlight(log) ==> c in InFlight(log[..m]) || CheckOf(log, c) > to
    decreases |log|
  {
    if m == |log| {
      assert log[..m] == log;
    } else {
      var before, e := log[..|log| - 1], log[|log| - 1];
      assert before[..m] == log[..m];
      FillsFromFlight(before, m, from, to);
      FlightsAreKnown(before, from, to);
      forall c | c in InFlight(log) ensures c in InFlight(log[..m]) || CheckOf(log, c) > to {
        if c in InFlight(before) && e.Checked? {
          assert c != e.call;
        }
      }
    }
  }

  /** The position behind the last admitted check at or before `to`. */
  lemma {:induction false} LastCheck(log: Log, to: int) returns (m: nat)
    ensures m <= |log|
    ensures m > 0 ==> log[m - 1].Checked? && log[m - 1].ok && log[m - 1].at <= to
    ensures forall i :: m <= i < |log| && log[i].Checked? && log[i].ok ==> log[i].at > to
    decreases |log|
  {
    m := 0;
    if log != [] {
      var e := log[|log| - 1];
      if e.Checked? && e.ok && e.at <= to {
        m := |log|;
      } else {
        m := LastCheck(log[..|log| - 1], to);
        assert forall i :: 0 <= i < |log| - 1 ==> log[..|log| - 1][i] == log[i];
      }
    }
  }

  lemma {:induction false} PlayedBefore(log: Log, m: nat)
    requires Played(log) && m <= |log|
    ensures Played(log[..m])
    decreases |log|
  {
    if m < |log| {
      assert log[..|log| - 1][..m] == log[..m];
      PlayedBefore(log[..|log| - 1], m);
    } else {
      assert log[..m] == log;
    }
  }

  /** With at most k calls in flight, any window of the limit's length holds at most limit - 1 + k
      sends, however checks and sends interleave. */
  lemma WindowBound(log: Log, k: nat, limit: nat, window: int, to: int)
    requires Played(log) && forall m :: 0 <= m <= |log| ==> |InFlight(log[..m])| <= k
    requires (limit == PER_MINUTE && window == MINUTE) || (limit == PER_QUARTER && window == QUARTER)
    ensures |SentIn(log, to - window, to)| <= limit - 1 + k
  {
    var from := to - window;
    var m := LastCheck(log, to);
    PlayedBefore(log, m);
    FillsFromFlight(log, m, from, to);
    var early, flying := SentIn(log[..m], from, to), InFlight(log[..m]);
    if m == 0 {
      assert SentIn(log, from, to) <= {};
      assert SentIn(log, from, to) == {};
    } else {
      var front, e := log[..m - 1], log[m - 1];
      assert log[..m][..m - 1] == front && log[..m][m - 1] == e;
      CountsRecent(front, from, to, e.at, window);
      assert early == SentIn(front, from, to);
      assert |early| <= limit - 1;
      UnionBound(early, flying, limit - 1, k);
      Larger(SentIn(log, from, to), early + flying);
    }
  }

  lemma Larger(a: set<nat>, b: set<nat>)
    requires a <= b
    ensures |a| <= |b|
  {
    assert b == a + (b - a);
    assert |b| == |a| + |b - a|;
  }

  /** Nine plus k sends a minute, twenty-nine plus k a quarter of an hour. */
  lemma InFlightBounds(log: Log, k: nat, to: int)
    requires Played(log) && forall m :: 0 <= m <= |log| ==> |InFlight(log[..m])| <= k
    ensures |SentIn(log, to - MINUTE, to)| <= 9 + k
    ensures |SentIn(log, to - QUARTER, to)| <= 29 + k
  {
    WindowBound(log, k, PER_MINUTE, MINUTE, to);
    WindowBound(log, k, PER_QUARTER, QUARTER, to);
  }
}
