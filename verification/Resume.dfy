/** A campaign cut into segments anywhere: what the journal holds in the end, against the run in
    one stretch. */
module Resume {
  import opened Text
  import opened Journal
  import opened Grading
  import opened Campaign
  import opened Handover

  /** A record carries the key of its slot. */
  ghost predicate Keyed(run: Runner)
  {
    forall slot, a {:trigger run(slot, a)} :: KeyOf(run(slot, a)) == SlotKey(slot)
  }

  lemma RunnerKeyed(j: Judge, name: string)
    ensures Keyed(RunnerOf(j, name))
  {
  }

  // ---- The history of every run ----

  /** Only the newest record of a key can be an attempted one. */
  ghost predicate Settling(led: seq<Record>)
  {
    forall i, k :: 0 <= i < k < |led| && KeyOf(led[i]) == KeyOf(led[k]) ==> Unattempted(led[i])
  }

  lemma NotDone(led: seq<Record>, k: Key)
    requires Settling(led) && !IsDone(led, k)
    ensures forall i :: 0 <= i < |led| && KeyOf(led[i]) == k ==> Unattempted(led[i])
  {
    NewestIsThere(led, k);
    if NewestOf(led, k).Some? {
      var n :| 0 <= n < |led| && led[n] == NewestOf(led, k).value && KeyOf(led[n]) == k && Newest(led, n);
      forall i | 0 <= i < |led| && KeyOf(led[i]) == k ensures Unattempted(led[i]) {
        if i < n {
          assert KeyOf(led[i]) == KeyOf(led[n]);
        }
      }
    }
  }

  lemma SlotSettles(run: Runner, c: Coding, w: Encounters, slot: Slot, s: Segment)
    requires Keyed(run) && Settling(s.led)
    ensures Settling(RunSlot(run, c, w, slot, s).led)
  {
    if !IsDone(s.led, SlotKey(slot)) {
      NotDone(s.led, SlotKey(slot));
    }
  }

  lemma {:induction false} SlotsSettle(run: Runner, c: Coding, w: Encounters, slots: seq<Slot>, s: Segment)
    requires Keyed(run) && Settling(s.led)
    ensures Settling(RunSlots(run, c, w, slots, s).led)
    decreases |slots|
  {
    if slots != [] {
      var before := slots[..|slots| - 1];
      SlotsSettle(run, c, w, before, s);
      SlotSettles(run, c, w, slots[|slots| - 1], RunSlots(run, c, w, before, s));
    }
  }

  /** The lost record belongs to a run that was not done either. */
  lemma {:induction false} LostSettles(run: Runner, c: Coding, w: Encounters, slots: seq<Slot>, s: Segment)
    requires Keyed(run) && Settling(s.led) && s.lost.None?
    ensures var e := RunSlots(run, c, w, slots, s); Settling(e.led + LostOf(e))
    decreases |slots|
  {
    if slots == [] {
      assert s.led + [] == s.led;
    } else {
      var before, slot := slots[..|slots| - 1], slots[|slots| - 1];
      LostSettles(run, c, w, before, s);
      SlotsSettle(run, c, w, before, s);
      SlotsSettle(run, c, w, slots, s);
      var e := RunSlots(run, c, w, before, s);
      if !e.stopped && !IsDone(e.led, SlotKey(slot)) {
        NotDone(e.led, SlotKey(slot));
      }
      assert RunSlots(run, c, w, slots, s).led + [] == RunSlots(run, c, w, slots, s).led;
    }
  }

  lemma StoredSettles(rs: seq<Record>)
    requires Settling(rs)
    ensures Settling(StoredAll(rs))
  {
    var ss := StoredAll(rs);
    forall i, k | 0 <= i < k < |ss| && KeyOf(ss[i]) == KeyOf(ss[k]) ensures Unattempted(ss[i]) {
      assert KeyOf(rs[i]) == KeyOf(rs[k]);
    }
  }

  /** However a campaign is cut, whatever its agents, disks and guards do, and whatever of a record
      reached the file: as long as the journal opens, the records of each planned run in it are any
      number of unattempted ones, then at most one attempted. */
  lemma {:induction false} AttemptedOnce(run: Runner, c: Coding, plan: seq<Slot>, stretches: seq<Stretch>)
    requires Keyed(run)
    ensures Resumed(run, c, plan, stretches).Some? ==>
              Settling(Resumed(run, c, plan, stretches).value) && Shaped(c, FileLeft(run, c, plan, stretches))
    decreases |stretches|
  {
    if stretches != [] {
      var last := |stretches| - 1;
      AttemptedOnce(run, c, plan, stretches[..last]);
      var file := FileLeft(run, c, plan, stretches[..last]);
      if Load(c, file).Some? {
        SegmentSettles(run, c, plan, file, stretches[last]);
      }
    }
  }

  lemma SegmentSettles(run: Runner, c: Coding, plan: seq<Slot>, file: string, x: Stretch)
    requires Keyed(run) && Load(c, file).Some? && Shaped(c, file) && Settling(Load(c, file).value)
    ensures var s := SegmentOf(run, c, plan, file, x);
            Load(c, s.file).Some? ==> Settling(Load(c, s.file).value) && Shaped(c, s.file)
  {
    var s := SegmentOf(run, c, plan, file, x);
    var s0 := Fresh(file, Load(c, file).value);
    var k := HandOver(run, c, plan, file, x);
    SlotsSettle(run, c, x.w, FirstSlots(plan, x.cut), s0);
    LostSettles(run, c, x.w, FirstSlots(plan, x.cut), s0);
    StoredSettles(s.led);
    StoredSettles(s.led + LostOf(s));
    assert s.led + [] == s.led;
  }

  // ---- Against the run in one stretch ----

  /** Every slot has its own key. */
  ghost predicate DistinctSlots(plan: seq<Slot>)
  {
    forall i, k :: 0 <= i < k < |plan| ==> SlotKey(plan[i]) != SlotKey(plan[k])
  }

  /** The records of a plan under an agent that is a function of the slot. */
  function RecordsOf(run: Runner, agent: Slot -> Attempt, plan: seq<Slot>): (rs: seq<Record>)
    ensures |rs| == |plan| && forall k :: 0 <= k < |plan| ==> rs[k] == run(plan[k], agent(plan[k]))
  {
    seq(|plan|, k requires 0 <= k < |plan| => run(plan[k], agent(plan[k])))
  }

  ghost predicate Steady(agent: Slot -> Attempt, w: Encounters)
  {
    forall slot, n {:trigger w(slot, n)} :: w(slot, n).attempt == agent(slot)
  }

  /** A steady agent whose runs all produce an answer, on a plan of distinct slots. */
  ghost predicate Answering(run: Runner, agent: Slot -> Attempt, plan: seq<Slot>)
  {
    && Keyed(run) && DistinctSlots(plan)
    && forall slot {:trigger agent(slot)} :: !Unattempted(run(slot, agent(slot)))
  }

  /** Up to what the file keeps, the ledger holds the records of the first n slots. */
  ghost predicate HoldsFirst(run: Runner, agent: Slot -> Attempt, plan: seq<Slot>, led: seq<Record>, n: nat)
  {
    n <= |plan| && StoredAll(led) == StoredAll(RecordsOf(run, agent, plan)[..n])
  }

  lemma KeysOfFirst(run: Runner, agent: Slot -> Attempt, plan: seq<Slot>, led: seq<Record>, n: nat)
    requires Answering(run, agent, plan) && HoldsFirst(run, agent, plan, led, n)
    ensures |led| == n
    ensures forall i :: 0 <= i < n ==> KeyOf(led[i]) == SlotKey(plan[i]) && !Unattempted(led[i])
  {
    var rs := RecordsOf(run, agent, plan);
    assert |StoredAll(led)| == |led| && |StoredAll(rs[..n])| == n;
    forall i | 0 <= i < n ensures KeyOf(led[i]) == SlotKey(plan[i]) && !Unattempted(led[i]) {
      assert StoredAll(led)[i] == Stored(led[i]) && StoredAll(rs[..n])[i] == Stored(rs[i]);
    }
  }

  /** Done says exactly which slots the ledger holds. */
  lemma DoneIsFirst(run: Runner, agent: Slot -> Attempt, plan: seq<Slot>, led: seq<Record>, n: nat, k: nat)
    requires Answering(run, agent, plan) && HoldsFirst(run, agent, plan, led, n) && k < |plan|
    ensures IsDone(led, SlotKey(plan[k])) <==> k < n
  {
    KeysOfFirst(run, agent, plan, led, n);
    NewestIsThere(led, SlotKey(plan[k]));
    if k < n {
      assert KeyOf(led[k]) == SlotKey(plan[k]);
    }
  }

  function Max(a: nat, b: nat): nat { if a >= b then a else b }

  /** A segment over the first k slots that starts with n of them held adds the records up to the
      m-th, and can only lose the next one. */
  ghost predicate Adds(rs: seq<Record>, s: Segment, e: Segment, n: nat, k: nat, m: nat)
  {
    && n <= m <= |rs| && m <= Max(n, k) && (!e.stopped ==> m == Max(n, k))
    && e.led == s.led + rs[n..m]
    && (e.lost.Some? ==> m < |rs| && e.lost.value == rs[m])
  }

  lemma {:induction false} SegmentAdds(run: Runner, c: Coding, agent: Slot -> Attempt, plan: seq<Slot>, w: Encounters, k: nat, s: Segment, n: nat)
    returns (m: nat)
    requires Answering(run, agent, plan) && Steady(agent, w) && k <= |plan|
    requires HoldsFirst(run, agent, plan, s.led, n) && !s.stopped && s.lost.None?
    ensures Adds(RecordsOf(run, agent, plan), s, RunSlots(run, c, w, plan[..k], s), n, k, m)
    decreases k
  {
    if k == 0 {
      m := n;
      assert s.led + RecordsOf(run, agent, plan)[n..n] == s.led;
    } else {
      var j := k - 1;
      assert plan[..k][..j] == plan[..j];
      m := SegmentAdds(run, c, agent, plan, w, j, s, n);
      m := SlotAdds(run, c, agent, plan, w, j, s, RunSlots(run, c, w, plan[..j], s), n, m);
    }
  }

  lemma SlotAdds(run: Runner, c: Coding, agent: Slot -> Attempt, plan: seq<Slot>, w: Encounters, j: nat, s: Segment, e: Segment, n: nat, m: nat)
    returns (m': nat)
    requires Answering(run, agent, plan) && Steady(agent, w) && j < |plan|
    requires HoldsFirst(run, agent, plan, s.led, n) && Adds(RecordsOf(run, agent, plan), s, e, n, j, m)
    ensures Adds(RecordsOf(run, agent, plan), s, RunSlot(run, c, w, plan[j], e), n, j + 1, m')
  {
    m' := m;
    var rs := RecordsOf(run, agent, plan);
    if !e.stopped {
      StillHolds(run, agent, plan, s.led, n, m);
      DoneIsFirst(run, agent, plan, e.led, m, j);
      if m == j && Reached(c, rs[j], w(plan[j], |e.made|)) {
        m' := j + 1;
        OneMoreOf(rs, s.led, n, j);
      }
    }
  }

  lemma OneMoreOf(rs: seq<Record>, led: seq<Record>, n: nat, j: nat)
    requires n <= j < |rs|
    ensures led + rs[n..j] + [rs[j]] == led + rs[n..j + 1]
  {
    assert rs[n..j + 1] == rs[n..j] + [rs[j]];
  }

  lemma StillHolds(run: Runner, agent: Slot -> Attempt, plan: seq<Slot>, led: seq<Record>, n: nat, m: nat)
    requires HoldsFirst(run, agent, plan, led, n) && n <= m <= |plan|
    ensures HoldsFirst(run, agent, plan, led + RecordsOf(run, agent, plan)[n..m], m)
  {
    var rs := RecordsOf(run, agent, plan);
    assert rs[..m] == rs[..n] + rs[n..m];
    StoredMore(led, rs[n..m]);
    StoredMore(rs[..n], rs[n..m]);
  }

  lemma StoredTwice(rs: seq<Record>)
    ensures StoredAll(StoredAll(rs)) == StoredAll(rs)
  {
  }

  /** The file of the run in one stretch after n records. */
  function FileOf(c: Coding, rs: seq<Record>): string
    requires Encodable(c, rs)
  {
    FileAfter(c, "", rs)
  }

  /** A file with the first n records, byte for byte but perhaps the last line break. */
  ghost predicate FirstFile(c: Coding, rs: seq<Record>, file: string, n: nat)
  {
    && n <= |rs| && Encodable(c, rs[..n])
    && file + (if WholeLines(file) then "" else "\n") == FileOf(c, rs[..n])
    && Load(c, file) == Some(StoredAll(rs[..n]))
  }

  lemma {:induction false} FileAfterJoin(c: Coding, file: string, a: seq<Record>, b: seq<Record>)
    requires Encodable(c, a) && Encodable(c, b)
    ensures Encodable(c, a + b) && FileAfter(c, FileAfter(c, file, a), b) == FileAfter(c, file, a + b)
    decreases |b|
  {
    if b == [] {
      assert a + b == a;
    } else {
      FileAfterJoin(c, file, a, b[..|b| - 1]);
      assert (a + b)[..|a + b| - 1] == a + b[..|b| - 1];
    }
  }

  /** What a segment of a steady agent adds to a file with the first n records. */
  lemma SegmentLedger(run: Runner, c: Coding, agent: Slot -> Attempt, plan: seq<Slot>, file: string, x: Stretch, n: nat)
    returns (m: nat)
    requires Answering(run, agent, plan) && Steady(agent, x.w)
    requires FirstFile(c, RecordsOf(run, agent, plan), file, n)
    ensures var rs := RecordsOf(run, agent, plan);
            var s := SegmentOf(run, c, plan, file, x);
            && n <= m <= |plan| && StoredAll(s.led) == StoredAll(rs[..m])
            && s.led[|Load(c, file).value|..] == rs[n..m]
            && (!s.stopped ==> m >= if x.cut <= |plan| then x.cut else |plan|)
            && (s.lost.Some? ==> m < |rs| && s.lost.value == rs[m])
  {
    var rs := RecordsOf(run, agent, plan);
    var s0 := Fresh(file, Load(c, file).value);
    var cut := if x.cut <= |plan| then x.cut else |plan|;
    assert plan[..|plan|] == plan;
    StoredTwice(rs[..n]);
    m := SegmentAdds(run, c, agent, plan, x.w, cut, s0, n);
    StillHolds(run, agent, plan, s0.led, n, m);
  }

  /** One segment of a steady agent: if its file opens, it is one with the first so many records. */
  lemma SegmentFiles(run: Runner, c: Coding, agent: Slot -> Attempt, plan: seq<Slot>, file: string, x: Stretch, n: nat)
    returns (m: nat)
    requires Answering(run, agent, plan) && Steady(agent, x.w) && Shaped(c, file)
    requires FirstFile(c, RecordsOf(run, agent, plan), file, n)
    ensures var rs := RecordsOf(run, agent, plan);
            var s := SegmentOf(run, c, plan, file, x);
            && m <= |plan| && StoredAll(s.led) == StoredAll(rs[..m])
            && (!s.stopped ==> m >= if x.cut <= |plan| then x.cut else |plan|)
            && (Load(c, s.file).Some? ==> Shaped(c, s.file) && exists i :: m <= i <= m + 1 && FirstFile(c, rs, s.file, i))
            && (WholeLines(file) && s.lost.None? ==> Encodable(c, rs[..m]) && s.file == FileOf(c, rs[..m]))
  {
    var rs := RecordsOf(run, agent, plan);
    var s := SegmentOf(run, c, plan, file, x);
    m := SegmentLedger(run, c, agent, plan, file, x, n);
    var k := HandOver(run, c, plan, file, x);
    if WholeLines(file) {
      SegmentGrows(c, rs, file, Fresh(file, Load(c, file).value), s, n, m, k);
    } else if Load(c, s.file).Some? {
      DanglingHandOver(c, Fresh(file, Load(c, file).value), s, k);
      assert |rs[n..m]| == 0;
    }
  }

  /** It started with whole lines. */
  lemma SegmentGrows(c: Coding, rs: seq<Record>, file: string, s0: Segment, s: Segment, n: nat, m: nat, k: nat)
    requires WholeLines(file) && FirstFile(c, rs, file, n) && n <= m <= |rs| && s0.file == file && Wrote(c, s0, s, k)
    requires s.led[|s0.led|..] == rs[n..m] && StoredAll(s.led) == StoredAll(rs[..m]) && (s.lost.Some? ==> m < |rs| && s.lost.value == rs[m])
    requires Load(c, s.file).Some? ==>
               && (s.lost.Some? && Landed(c, s.lost.value, k) != "" ==> k >= |TextOf(c, s.lost.value)| && Fits(c, s.lost.value))
               && Load(c, s.file).value == StoredAll(s.led + if LostLanded(c, file, s, k) then LostOf(s) else [])
    ensures Load(c, s.file).Some? ==> exists i :: m <= i <= m + 1 && FirstFile(c, rs, s.file, i)
    ensures s.lost.None? ==> Encodable(c, rs[..m]) && s.file == FileOf(c, rs[..m])
  {
    WholeGrows(c, rs, file, n, m);
    if Load(c, s.file).Some? {
      WholeFiles(c, rs, s, FileOf(c, rs[..m]), m, k);
    }
  }

  lemma WholeGrows(c: Coding, rs: seq<Record>, file: string, n: nat, m: nat)
    requires WholeLines(file) && FirstFile(c, rs, file, n) && n <= m <= |rs| && Encodable(c, rs[n..m])
    ensures Encodable(c, rs[..m]) && FileAfter(c, file, rs[n..m]) == FileOf(c, rs[..m])
  {
    assert file + "" == file;
    FileAfterJoin(c, "", rs[..n], rs[n..m]);
    assert rs[..n] + rs[n..m] == rs[..m];
  }

  lemma WholeFiles(c: Coding, rs: seq<Record>, s: Segment, file: string, m: nat, k: nat)
    requires m <= |rs| && StoredAll(s.led) == StoredAll(rs[..m]) && (s.lost.Some? ==> m < |rs| && s.lost.value == rs[m])
    requires Encodable(c, rs[..m]) && file == FileOf(c, rs[..m])
    requires s.file == file + (if s.lost.Some? then Landed(c, s.lost.value, k) else "")
    requires s.lost.Some? && Landed(c, s.lost.value, k) != "" ==> k >= |TextOf(c, s.lost.value)| && Fits(c, s.lost.value)
    requires Load(c, s.file) == Some(StoredAll(s.led + if s.lost.Some? && Landed(c, s.lost.value, k) != "" then LostOf(s) else []))
    ensures exists i :: m <= i <= m + 1 && FirstFile(c, rs, s.file, i)
  {
    WholeAfter(c, "", rs[..m]);
    if s.lost.Some? && Landed(c, s.lost.value, k) != "" {
      StoredMore(s.led, [rs[m]]);
      LostFile(c, rs, s.file, file, m, k);
      assert FirstFile(c, rs, s.file, m + 1);
    } else {
      assert s.led + [] == s.led && file + "" == file;
      assert FirstFile(c, rs, s.file, m);
    }
  }

  /** A file with all of one more record, with or without its line break. */
  lemma LostFile(c: Coding, rs: seq<Record>, left: string, file: string, m: nat, k: nat)
    requires m < |rs| && Encodable(c, rs[..m]) && file == FileOf(c, rs[..m])
    requires c.encode(rs[m]).Some? && k >= |c.encode(rs[m]).value| && left == file + Landed(c, rs[m], k)
    requires Load(c, left) == Some(StoredAll(rs[..m]) + StoredAll([rs[m]]))
    ensures FirstFile(c, rs, left, m + 1)
  {
    var text := c.encode(rs[m]).value;
    StoredMore(rs[..m], [rs[m]]);
    assert rs[..m + 1] == rs[..m] + [rs[m]];
    OneMoreLine(c, "", rs[..m], rs[m]);
    assert left == file + if k == |text| then text else text + "\n";
    assert k == |text| ==> left[|left| - 1] == text[|text| - 1] != '\n';
    assert file + text + "\n" == file + (text + "\n");
  }

  /** Every cut of the campaign leaves, as long as the journal opens, the file of the run in one
      stretch after some front part of the plan, byte for byte but perhaps the last line break;
      and it reads as the records of that part, in plan order. */
  lemma {:induction false} ResumedHolds(run: Runner, c: Coding, agent: Slot -> Attempt, plan: seq<Slot>, stretches: seq<Stretch>) returns (n: nat)
    requires Answering(run, agent, plan) && (forall i :: 0 <= i < |stretches| ==> Steady(agent, stretches[i].w))
    ensures var file := FileLeft(run, c, plan, stretches);
            Load(c, file).Some? ==> Shaped(c, file) && FirstFile(c, RecordsOf(run, agent, plan), file, n)
    decreases |stretches|
  {
    n := 0;
    var rs := RecordsOf(run, agent, plan);
    if stretches == [] {
      assert rs[..0] == [] && Encodable(c, rs[..0]);
    } else {
      var last := |stretches| - 1;
      n := ResumedHolds(run, c, agent, plan, stretches[..last]);
      var file := FileLeft(run, c, plan, stretches[..last]);
      if Load(c, file).Some? {
        var m := SegmentFiles(run, c, agent, plan, file, stretches[last], n);
        var left := FileLeft(run, c, plan, stretches);
        if Load(c, left).Some? {
          n :| m <= n <= m + 1 && FirstFile(c, rs, left, n);
        }
      }
    }
  }

  /** Resume equivalence. With an agent that is a function of the slot and always produces an
      answer: when the last of any segments opens the journal and comes to the end of the plan
      unstopped, its ledger holds exactly the records of the run in one stretch, in the same order,
      one per slot. Its file opens again if and only if all it wrote fits the reader and started on
      a line of its own; then it is the file of the run in one stretch, byte for byte but perhaps
      the last line break. */
  lemma {:induction false} ResumeEqualsOneStretch(run: Runner, c: Coding, agent: Slot -> Attempt, plan: seq<Slot>, stretches: seq<Stretch>, whole: Encounters)
    requires Answering(run, agent, plan) && Steady(agent, whole) && stretches != []
    requires forall i :: 0 <= i < |stretches| ==> Steady(agent, stretches[i].w)
    requires var last := stretches[|stretches| - 1];
             var file := FileLeft(run, c, plan, stretches[..|stretches| - 1]);
             Load(c, file).Some? && last.cut >= |plan| && !SegmentOf(run, c, plan, file, last).stopped
    requires !SegmentOf(run, c, plan, "", Stretch(whole, |plan|)).stopped
    ensures var rs := RecordsOf(run, agent, plan);
            var one := SegmentOf(run, c, plan, "", Stretch(whole, |plan|));
            var last := SegmentOf(run, c, plan, FileLeft(run, c, plan, stretches[..|stretches| - 1]), stretches[|stretches| - 1]);
            && StoredAll(last.led) == StoredAll(one.led) == StoredAll(rs)
            && Encodable(c, rs) && one.file == FileOf(c, rs)
            && (Load(c, last.file).Some? <==>
                  if WholeLines(FileLeft(run, c, plan, stretches[..|stretches| - 1])) then AllFit(c, last.made) else last.made == [])
            && (Load(c, last.file).Some? ==>
                  && Load(c, last.file).value == StoredAll(rs)
                  && last.file + (if WholeLines(last.file) then "" else "\n") == one.file)
  {
    var rs := RecordsOf(run, agent, plan);
    var before := stretches[..|stretches| - 1];
    assert rs[..|plan|] == rs;
    var n := ResumedHolds(run, c, agent, plan, before);
    LastSegment(run, c, agent, plan, FileLeft(run, c, plan, before), stretches[|stretches| - 1], n);
    LastOpens(run, c, plan, FileLeft(run, c, plan, before), stretches[|stretches| - 1]);
    OneStretch(run, c, agent, plan, whole);
  }

  lemma OneStretch(run: Runner, c: Coding, agent: Slot -> Attempt, plan: seq<Slot>, whole: Encounters)
    requires Answering(run, agent, plan) && Steady(agent, whole)
    requires !SegmentOf(run, c, plan, "", Stretch(whole, |plan|)).stopped
    ensures var rs := RecordsOf(run, agent, plan);
            var one := SegmentOf(run, c, plan, "", Stretch(whole, |plan|));
            StoredAll(one.led) == StoredAll(rs) && Encodable(c, rs) && one.file == FileOf(c, rs)
  {
    var rs := RecordsOf(run, agent, plan);
    assert rs[..|plan|] == rs && rs[..0] == [];
    assert FirstFile(c, rs, "", 0);
    var m := SegmentFiles(run, c, agent, plan, "", Stretch(whole, |plan|), 0);
    var k := HandOver(run, c, plan, "", Stretch(whole, |plan|));
  }

  /** A segment that lost nothing made what it added. */
  lemma Unlost(c: Coding, s0: Segment, s: Segment, k: nat)
    requires Wrote(c, s0, s, k) && !s.stopped
    ensures s.lost.None? && s.made == s.led[|s0.led|..]
    ensures s.made == [] ==> s.file == s0.file
    ensures s.led == s0.led ==> s.made == []
  {
  }

  lemma LastOpens(run: Runner, c: Coding, plan: seq<Slot>, file: string, x: Stretch)
    requires Load(c, file).Some? && Shaped(c, file) && !SegmentOf(run, c, plan, file, x).stopped
    ensures var s := SegmentOf(run, c, plan, file, x);
            Load(c, s.file).Some? <==> if WholeLines(file) then AllFit(c, s.made) else s.made == []
  {
    var s0 := Fresh(file, Load(c, file).value);
    var s := SegmentOf(run, c, plan, file, x);
    var k := HandOver(run, c, plan, file, x);
    Unlost(c, s0, s, k);
    if !WholeLines(file) {
      DanglingHandOver(c, s0, s, k);
    }
  }

  lemma LastSegment(run: Runner, c: Coding, agent: Slot -> Attempt, plan: seq<Slot>, file: string, x: Stretch, n: nat)
    requires Answering(run, agent, plan) && Steady(agent, x.w) && Shaped(c, file) && x.cut >= |plan|
    requires FirstFile(c, RecordsOf(run, agent, plan), file, n) && !SegmentOf(run, c, plan, file, x).stopped
    ensures var rs := RecordsOf(run, agent, plan);
            var s := SegmentOf(run, c, plan, file, x);
            && StoredAll(s.led) == StoredAll(rs)
            && (Load(c, s.file).Some? ==> FirstFile(c, rs, s.file, |rs|))
  {
    var rs := RecordsOf(run, agent, plan);
    assert rs[..|plan|] == rs;
    var m := SegmentFiles(run, c, agent, plan, file, x, n);
    var left := SegmentOf(run, c, plan, file, x).file;
    if Load(c, left).Some? {
      var i :| m <= i <= m + 1 && FirstFile(c, rs, left, i);
      assert i == |rs|;
    }
  }

  // ---- The plan has distinct slots ----

  predicate DistinctTasks(c: Config)
  {
    forall i, k :: 0 <= i < k < |c.tasks| ==> c.tasks[i].id != c.tasks[k].id
  }

  lemma BlockSlots(c: Config, ti: nat, rep: nat)
    requires ti < |c.tasks| && Campaign.Distinct(c.arms)
    ensures DistinctSlots(BlockOf(c, ti, rep)) && |BlockOf(c, ti, rep)| == |c.arms|
    ensures forall x :: x in BlockOf(c, ti, rep) ==> x.rep == rep && x.task == c.tasks[ti]
  {
    if c.arms != [] {
      ShuffleKeeps(c.arms, c.pick(ti, rep), |c.arms| - 1);
      ShuffleDistinct(c.arms, c.pick(ti, rep), |c.arms| - 1);
    }
    var order := OrderOf(c.arms, c.pick(ti, rep));
    forall i, k | 0 <= i < k < |order| ensures SlotKey(BlockOf(c, ti, rep)[i]) != SlotKey(BlockOf(c, ti, rep)[k]) {
      assert order[i] != order[k];
    }
  }

  lemma JoinDistinct(a: seq<Slot>, b: seq<Slot>)
    requires DistinctSlots(a) && DistinctSlots(b)
    requires forall x, y :: x in a && y in b ==> SlotKey(x) != SlotKey(y)
    ensures DistinctSlots(a + b)
  {
    forall i, k | 0 <= i < k < |a + b| ensures SlotKey((a + b)[i]) != SlotKey((a + b)[k]) {
      if i < |a| <= k {
        assert a[i] in a && b[k - |a|] in b;
      }
    }
  }

  /** Slots of this repetition, of the first n tasks. */
  ghost predicate OfTasks(c: Config, slots: seq<Slot>, rep: nat, n: nat)
    requires n <= |c.tasks|
  {
    forall x :: x in slots ==> x.rep == rep && exists i :: 0 <= i < n && x.task == c.tasks[i]
  }

  lemma {:induction false} TaskPlanSlots(c: Config, rep: nat, n: nat)
    requires n <= |c.tasks| && Campaign.Distinct(c.arms) && DistinctTasks(c)
    ensures DistinctSlots(TaskPlan(c, rep, n)) && |TaskPlan(c, rep, n)| == Times(n, |c.arms|)
    ensures OfTasks(c, TaskPlan(c, rep, n), rep, n)
    decreases n
  {
    if n > 0 {
      var m := n - 1;
      TaskPlanSlots(c, rep, m);
      BlockSlots(c, m, rep);
      TaskJoin(c, TaskPlan(c, rep, m), BlockOf(c, m, rep), rep, m);
    }
  }

  lemma TaskJoin(c: Config, a: seq<Slot>, b: seq<Slot>, rep: nat, m: nat)
    requires m < |c.tasks| && DistinctTasks(c) && OfTasks(c, a, rep, m) && DistinctSlots(a) && DistinctSlots(b)
    requires forall x :: x in b ==> x.rep == rep && x.task == c.tasks[m]
    ensures DistinctSlots(a + b) && OfTasks(c, a + b, rep, m + 1)
  {
    forall x, y | x in a && y in b ensures SlotKey(x) != SlotKey(y) {
      var i :| 0 <= i < m && x.task == c.tasks[i];
      assert c.tasks[i].id != c.tasks[m].id;
    }
    JoinDistinct(a, b);
  }

  /** Slots of the first n repetitions. */
  ghost predicate OfReps(slots: seq<Slot>, n: nat)
  {
    forall x :: x in slots ==> x.rep <= n
  }

  /** The slots of so many repetitions. */
  ghost predicate RepsRight(slots: seq<Slot>, n: nat, size: nat)
  {
    DistinctSlots(slots) && |slots| == Times(n, size) && OfReps(slots, n)
  }

  lemma {:induction false} RepPlanSlots(c: Config, n: nat, size: nat)
    requires Campaign.Distinct(c.arms) && DistinctTasks(c) && size == Times(|c.tasks|, |c.arms|)
    ensures RepsRight(RepPlan(c, n), n, size)
    decreases n
  {
    if n > 0 {
      RepPlanSlots(c, n - 1, size);
      RepRight(c, RepPlan(c, n - 1), n, size);
    }
  }

  lemma RepRight(c: Config, before: seq<Slot>, n: nat, size: nat)
    requires n > 0 && Campaign.Distinct(c.arms) && DistinctTasks(c) && size == Times(|c.tasks|, |c.arms|)
    requires RepsRight(before, n - 1, size)
    ensures RepsRight(before + TaskPlan(c, n, |c.tasks|), n, size)
  {
    TaskPlanSlots(c, n, |c.tasks|);
    JoinDistinct(before, TaskPlan(c, n, |c.tasks|));
  }

  /** With distinct arms and task ids, however the blocks are shuffled, the plan schedules every
      run once: repetitions times tasks times arms of them. */
  lemma PlanDistinct(c: Config)
    requires Campaign.Distinct(c.arms) && DistinctTasks(c)
    ensures DistinctSlots(Plan(c)) && |Plan(c)| == c.repetitions * (|c.tasks| * |c.arms|)
  {
    var size := Times(|c.tasks|, |c.arms|);
    RepPlanSlots(c, c.repetitions, size);
    TimesIs(|c.tasks|, |c.arms|);
    TimesIs(c.repetitions, size);
  }
}
