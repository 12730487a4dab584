/** The sliding-window send limiter of the channel: pruned in place, and yet as strict as the full
    history. Instants and durations are integers of one unit (a minute is 60). */
module SendLimiter {

  const PER_MINUTE := 10
  const PER_QUARTER := 30
  const MINUTE := 60
  const QUARTER := 900

  /** The sends within a window before `now`, in order. */
  function Recent(ts: seq<int>, now: int, window: int): (r: seq<int>)
    ensures |r| <= |ts|
    decreases |ts|
  {
    if ts == [] then []
    else
      var before, t := Recent(ts[..|ts| - 1], now, window), ts[|ts| - 1];
      if now - t < window then before + [t] else before
  }

  datatype Answer = Admitted | Refused(wait: int)

  /** The decision on a history of sends. */
  function Decide(ts: seq<int>, now: int): Answer
  {
    var minute, quarter := Recent(ts, now, MINUTE), Recent(ts, now, QUARTER);
    if |minute| >= PER_MINUTE then Refused(minute[0] + MINUTE - now)
    else if |quarter| >= PER_QUARTER then Refused(quarter[0] + QUARTER - now)
    else Admitted
  }

  lemma {:induction false} RecentJoin(a: seq<int>, b: seq<int>, now: int, window: int)
    ensures Recent(a + b, now, window) == Recent(a, now, window) + Recent(b, now, window)
    decreases |b|
  {
    if b == [] {
      assert a + b == a;
    } else {
      RecentJoin(a, b[..|b| - 1], now, window);
      assert (a + b)[..|a + b| - 1] == a + b[..|b| - 1];
    }
  }

  /** What an earlier, wider window dropped is outside every later, narrower one. */
  lemma {:induction false} PrunedIsOld(ts: seq<int>, then_: int, wide: int, now: int, window: int)
    requires then_ <= now && window <= wide
    ensures Recent(Recent(ts, then_, wide), now, window) == Recent(ts, now, window)
    decreases |ts|
  {
    if ts != [] {
      var before, t := ts[..|ts| - 1], ts[|ts| - 1];
      PrunedIsOld(before, then_, wide, now, window);
      var kept := Recent(before, then_, wide);
      assert (kept + [t])[..|kept|] == kept;
    }
  }

  /** Pruned or not, the sends in a window are those of the full history. */
  lemma SameRecent(history: seq<int>, kept: nat, last: int, now: int, window: int)
    requires kept <= |history| && last <= now && window <= QUARTER
    ensures Recent(Recent(history[..kept], last, QUARTER) + history[kept..], now, window) == Recent(history, now, window)
  {
    RecentJoin(Recent(history[..kept], last, QUARTER), history[kept..], now, window);
    PrunedIsOld(history[..kept], last, QUARTER, now, window);
    RecentJoin(history[..kept], history[kept..], now, window);
    assert history == history[..kept] + history[kept..];
  }

  /** One send more. */
  lemma RecentStep(ts: seq<int>, i: nat, now: int, window: int)
    requires i < |ts|
    ensures Recent(ts[..i + 1], now, window)
            == if now - ts[i] < window then Recent(ts[..i], now, window) + [ts[i]] else Recent(ts[..i], now, window)
  {
    assert ts[..i + 1][..i] == ts[..i];
  }

  class Limiter {
    var times: array<int>
    var len: nat
    ghost var history: seq<int>     // every send ever recorded
    ghost var kept: nat             // how many of them the last check saw
    ghost var last: int             // when that check was

    /** The array holds what the last check left of the history, and everything since. */
    ghost predicate Valid()
      reads this, times
    {
      && len <= times.Length && kept <= |history|
      && times[..len] == Recent(history[..kept], last, QUARTER) + history[kept..]
    }

    constructor (start: int)
      ensures Valid() && history == [] && last == start && fresh(times)
    {
      times := new int[0];
      len, history, kept, last := 0, [], 0, start;
    }

    /** check: prunes in place and answers as the full history would. */
    method Check(now: int) returns (ok: bool, wait: int)
      requires Valid() && last <= now
      modifies this`len, this`kept, this`last, times
      ensures Valid() && history == old(history) && last == now
      ensures (if ok then Admitted else Refused(wait)) == Decide(history, now)
      ensures ok ==> wait == 0
    {
      SameRecent(history, kept, last, now, QUARTER);
      SameRecent(history, kept, last, now, MINUTE);
      PrunedIsOld(history, now, QUARTER, now, MINUTE);
      Prune(now);
      kept, last := |history|, now;
      assert history[..kept] == history && history[kept..] == [];
      assert times[..len] + [] == times[..len];
      var inMinute, first := Within(now, MINUTE);
      if inMinute >= PER_MINUTE {
        return false, first + MINUTE - now;
      }
      if len >= PER_QUARTER {
        return false, times[0] + QUARTER - now;
      }
      return true, 0;
    }

    /** keep := times[:0], then an append for each send still in the window. */
    method Prune(now: int)
      requires len <= times.Length
      modifies this`len, times
      ensures len <= times.Length && times[..len] == Recent(old(times[..len]), now, QUARTER)
    {
      ghost var was := times[..len];
      var k := 0;
      for i := 0 to len
        invariant k <= i && len == old(len)
        invariant times[..k] == Recent(was[..i], now, QUARTER)
        invariant forall j :: i <= j < len ==> times[j] == was[j]
      {
        var t := times[i];
        ghost var front := times[..k];
        RecentStep(was, i, now, QUARTER);
        if now - t < QUARTER {
          times[k] := t;
          k := k + 1;
          assert times[..k] == front + [t];
        }
      }
      assert was[..|was|] == was;
      len := k;
    }

    /** How many sends lie within a window, and the first of them. */
    method Within(now: int, window: int) returns (n: nat, first: int)
      requires len <= times.Length
      ensures var r := Recent(times[..len], now, window); n == |r| && (n > 0 ==> first == r[0])
    {
      n, first := 0, 0;
      for i := 0 to len
        invariant n == |Recent(times[..i], now, window)|
        invariant n > 0 ==> first == Recent(times[..i], now, window)[0]
      {
        assert times[..i + 1][..i] == times[..i];
        if now - times[i] < window {
          if n == 0 {
            first := times[i];
          }
          n := n + 1;
        }
      }
    }

    /** record: append, in a larger array when this one is full. */
    method Record(now: int)
      requires Valid()
      modifies this`times, this`len, this`history, times
      ensures Valid() && history == old(history) + [now]
      ensures times == old(times) || fresh(times)
    {
      ghost var was := times[..len];
      if len == times.Length {
        var more := new int[2 * len + 1];
        forall i | 0 <= i < len {
          more[i] := times[i];
        }
        assert more[..len] == was;
        times := more;
      }
      times[len] := now;
      len := len + 1;
      history := history + [now];
      assert times[..len] == was + [now];
      assert history[..kept] == old(history)[..kept] && history[kept..] == old(history)[kept..] + [now];
    }
  }

  // ---- The decision, counted ----

  /** The sends of the history within a window before `now`. */
  function InWindow(ts: seq<int>, now: int, window: int): set<nat>
  {
    set i: nat | i < |ts| && now - ts[i] < window
  }

  lemma {:induction false} RecentCounts(ts: seq<int>, now: int, window: int)
    ensures |Recent(ts, now, window)| == |InWindow(ts, now, window)|
    decreases |ts|
  {
    if ts == [] {
      assert InWindow(ts, now, window) == {};
    } else {
      var last := |ts| - 1;
      RecentCounts(ts[..last], now, window);
      var before := InWindow(ts[..last], now, window);
      assert InWindow(ts, now, window) == if now - ts[last] < window then before + {last} else before;
    }
  }

  /** A send is admitted exactly when fewer than ten lie in the last minute and fewer than thirty in
      the last quarter of an hour. */
  lemma AdmittedExactly(ts: seq<int>, now: int)
    ensures Decide(ts, now) == Admitted <==> |InWindow(ts, now, 60)| < 10 && |InWindow(ts, now, 900)| < 30
  {
    RecentCounts(ts, now, MINUTE);
    RecentCounts(ts, now, QUARTER);
  }
}
