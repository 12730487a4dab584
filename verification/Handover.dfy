/** A campaign cut into segments anywhere, and the journal file through which one hands over to the
    next: what each leaves on disk, and when it opens again. */
module Handover {
  import opened Text
  import opened Journal
  import opened Campaign

  // ---- Segments ----

  /** One call of Run that lives through the first `cut` slots of the plan, in its own world. */
  datatype Stretch = Stretch(w: Encounters, cut: nat)

  function FirstSlots(plan: seq<Slot>, cut: nat): seq<Slot>
  {
    if cut <= |plan| then plan[..cut] else plan
  }

  /** Run on the journal that this file opens as. */
  function SegmentOf(run: Runner, c: Coding, plan: seq<Slot>, file: string, s: Stretch): Segment
    requires Load(c, file).Some?
  {
    RunSlots(run, c, s.w, FirstSlots(plan, s.cut), Fresh(file, Load(c, file).value))
  }

  /** The journal's file after these segments. Each opens the file its predecessors left; one that
      cannot open it does not run. A process that dies in a write is one whose write failed. */
  function FileLeft(run: Runner, c: Coding, plan: seq<Slot>, stretches: seq<Stretch>): string
    decreases |stretches|
  {
    if stretches == [] then ""
    else
      var last := |stretches| - 1;
      var file := FileLeft(run, c, plan, stretches[..last]);
      if Load(c, file).None? then file else SegmentOf(run, c, plan, file, stretches[last]).file
  }

  /** What the next one to open the journal reads, if it opens. */
  function Resumed(run: Runner, c: Coding, plan: seq<Slot>, stretches: seq<Stretch>): Option<seq<Record>>
  {
    Load(c, FileLeft(run, c, plan, stretches))
  }

  // ---- What a segment leaves on disk ----

  function LostOf(s: Segment): seq<Record> { if s.lost.Some? then [s.lost.value] else [] }

  /** The records of a segment are those it added to the ledger, then the one it lost; the file has
      grown by the lines of the first, and by k bytes of the last. */
  ghost predicate Wrote(c: Coding, s0: Segment, s: Segment, k: nat)
  {
    && s0.led <= s.led && Encodable(c, s.led[|s0.led|..]) && s.made == s.led[|s0.led|..] + LostOf(s)
    && s.file == FileAfter(c, s0.file, s.led[|s0.led|..]) + (if s.lost.Some? then Landed(c, s.lost.value, k) else "")
    && (s.lost.Some? ==> s.stopped)
  }

  lemma {:induction false} SlotsWrite(run: Runner, c: Coding, w: Encounters, slots: seq<Slot>, s0: Segment) returns (k: nat)
    requires s0.made == [] && !s0.stopped && s0.lost.None?
    ensures Wrote(c, s0, RunSlots(run, c, w, slots, s0), k)
    decreases |slots|
  {
    k := 0;
    if slots != [] {
      var slot, before := slots[|slots| - 1], slots[..|slots| - 1];
      k := SlotsWrite(run, c, w, before, s0);
      var s := RunSlots(run, c, w, before, s0);
      if !s.stopped && !IsDone(s.led, SlotKey(slot)) {
        var m := w(slot, |s.made|);
        k := m.written;
        SlotWrites(run, c, w, slot, s0, s, 0);
      }
    }
  }

  lemma SlotWrites(run: Runner, c: Coding, w: Encounters, slot: Slot, s0: Segment, s: Segment, k: nat)
    requires Wrote(c, s0, s, k) && !s.stopped && !IsDone(s.led, SlotKey(slot))
    ensures Wrote(c, s0, RunSlot(run, c, w, slot, s), w(slot, |s.made|).written)
  {
    var m := w(slot, |s.made|);
    var r := run(slot, m.attempt);
    var e := RunSlot(run, c, w, slot, s);
    if Reached(c, r, m) {
      assert Landed(c, r, m.written) == c.encode(r).value + "\n";
      OneMoreWritten(c, s0, s, k, r, e, m.written);
    } else {
      OneLost(c, s0, s, k, r, e, m.written);
    }
  }

  lemma OneMoreWritten(c: Coding, s0: Segment, s: Segment, k: nat, r: Record, e: Segment, k': nat)
    requires Wrote(c, s0, s, k) && !s.stopped && c.encode(r).Some?
    requires e.file == s.file + (c.encode(r).value + "\n") && e.led == s.led + [r] && e.made == s.made + [r] && e.lost.None?
    ensures Wrote(c, s0, e, k')
  {
    var was, now := s.led[|s0.led|..], e.led[|s0.led|..];
    assert now == was + [r];
    OneMoreLine(c, s0.file, was, r);
    assert s.file == FileAfter(c, s0.file, was) && e.file == FileAfter(c, s0.file, now) + "";
    assert s.made == was && e.made == now + [];
  }

  lemma OneMoreLine(c: Coding, file: string, rs: seq<Record>, r: Record)
    requires Encodable(c, rs) && c.encode(r).Some?
    ensures Encodable(c, rs + [r])
    ensures FileAfter(c, file, rs + [r]) == FileAfter(c, file, rs) + (c.encode(r).value + "\n")
  {
    var more := rs + [r];
    assert more[..|more| - 1] == rs;
    assert FileAfter(c, file, rs) + c.encode(r).value + "\n" == FileAfter(c, file, rs) + (c.encode(r).value + "\n");
  }

  lemma OneLost(c: Coding, s0: Segment, s: Segment, k: nat, r: Record, e: Segment, k': nat)
    requires Wrote(c, s0, s, k) && !s.stopped
    requires e.file == s.file + Landed(c, r, k') && e.led == s.led && e.made == s.made + [r] && e.lost == Some(r) && e.stopped
    ensures Wrote(c, s0, e, k')
  {
    assert s.made == s.led[|s0.led|..] + [] == s.led[|s0.led|..];
    assert s.file == FileAfter(c, s0.file, s.led[|s0.led|..]) + "" == FileAfter(c, s0.file, s.led[|s0.led|..]);
  }

  // ---- Handing over ----

  lemma {:induction false} ParsedStored(c: Coding, lines: seq<string>)
    requires Parse(c, lines).Some?
    ensures StoredAll(Parse(c, lines).value) == Parse(c, lines).value
    decreases |lines|
  {
    if lines != [] {
      ParsedStored(c, lines[..|lines| - 1]);
      var before := Parse(c, lines[..|lines| - 1]).value;
      var rs := Parse(c, lines).value;
      forall k | 0 <= k < |rs| ensures StoredAll(rs)[k] == rs[k] {
        if k < |before| {
          assert rs[k] == before[k] == StoredAll(before)[k];
        }
      }
    }
  }

  /** The file of a segment that started with whole lines: it opens again if and only if all its
      records fit the reader and the lost one, if bytes of it landed, fits and is all there but
      perhaps its line break. Then it holds the ledger, and such a lost record behind it. */
  lemma WholeHandOver(c: Coding, s0: Segment, s: Segment, k: nat)
    requires WholeLines(s0.file) && Load(c, s0.file) == Some(s0.led) && Wrote(c, s0, s, k)
    ensures Load(c, s.file)
            == if !AllFit(c, s.led[|s0.led|..]) then None
               else if s.lost.None? || Landed(c, s.lost.value, k) == "" then Some(StoredAll(s.led))
               else if k >= |TextOf(c, s.lost.value)| && Fits(c, s.lost.value) then Some(StoredAll(s.led + [s.lost.value]))
               else None
  {
    var recorded := s.led[|s0.led|..];
    var file := FileAfter(c, s0.file, recorded);
    ParsedStored(c, Lines(s0.file));
    StoredStored(s0.led, recorded);
    assert s.led == s0.led + recorded;
    WholeAfter(c, s0.file, recorded);
    ReloadExactly(c, s0.file, s0.led, recorded);
    if s.lost.None? || Landed(c, s.lost.value, k) == "" {
      assert s.file == file;
    } else {
      LostHandOver(c, s, file, recorded, k);
    }
  }

  lemma LostHandOver(c: Coding, s: Segment, file: string, recorded: seq<Record>, k: nat)
    requires s.lost.Some? && Landed(c, s.lost.value, k) != "" && s.file == file + Landed(c, s.lost.value, k)
    requires WholeLines(file) && Load(c, file) == if AllFit(c, recorded) then Some(StoredAll(s.led)) else None
    ensures Load(c, s.file)
            == if AllFit(c, recorded) && k >= |TextOf(c, s.lost.value)| && Fits(c, s.lost.value)
               then Some(StoredAll(s.led + [s.lost.value])) else None
  {
    var r := s.lost.value;
    var n := |c.encode(r).value|;
    if !AllFit(c, recorded) {
      NeverAgain(c, file, Landed(c, r, k));
    } else {
      var j := if k <= n then k else n + 1;
      assert Landed(c, r, k) == Landed(c, r, j);
      CutLoads(c, file, r, j);
      assert StoredAll(s.led + [r]) == StoredAll(s.led) + [Stored(r)];
    }
  }

  lemma NothingAdded(c: Coding, file: string, r: Record, k: nat)
    requires Dangling(c, file) && Landed(c, r, k) != ""
    ensures Load(c, file + Landed(c, r, k)).None?
  {
    var n := |c.encode(r).value|;
    var j := if k <= n then k else n + 1;
    assert Landed(c, r, k) == Landed(c, r, j);
    TornLine(c, file, r, j, "");
    assert file + Landed(c, r, j) + "" == file + Landed(c, r, j);
  }

  lemma LinesAdded(c: Coding, file: string, recorded: seq<Record>, more: string)
    requires Dangling(c, file) && Encodable(c, recorded) && recorded != []
    ensures Load(c, FileAfter(c, file, recorded) + more).None? && |FileAfter(c, file, recorded)| > |file|
  {
    var rest := FirstOut(c, file, recorded);
    var r := recorded[0];
    var line := c.encode(r).value + "\n";
    assert Landed(c, r, |line|) == line;
    assert FileAfter(c, file, recorded) + more == file + line + (rest + more);
    TornLine(c, file, r, |line|, rest + more);
  }

  /** The file of a segment that started behind a record without its line break: it opens again if
      and only if nothing landed in it. */
  lemma DanglingHandOver(c: Coding, s0: Segment, s: Segment, k: nat)
    requires Dangling(c, s0.file) && Load(c, s0.file) == Some(s0.led) && Wrote(c, s0, s, k)
    ensures Load(c, s.file) == if s.file == s0.file then Some(s0.led) else None
    ensures s.file == s0.file ==> s.led == s0.led
  {
    var recorded := s.led[|s0.led|..];
    var more := if s.lost.Some? then Landed(c, s.lost.value, k) else "";
    if recorded == [] {
      assert s.led == s0.led && s.file == s0.file + more;
      if more != "" {
        NothingAdded(c, s0.file, s.lost.value, k);
      }
    } else {
      LinesAdded(c, s0.file, recorded, more);
    }
  }

  /** The first of the lines appended. */
  lemma {:induction false} FirstOut(c: Coding, file: string, rs: seq<Record>) returns (rest: string)
    requires Encodable(c, rs) && rs != []
    ensures FileAfter(c, file, rs) == file + (c.encode(rs[0]).value + "\n") + rest
    decreases |rs|
  {
    var before := rs[..|rs| - 1];
    var line := c.encode(rs[|rs| - 1]).value + "\n";
    if before == [] {
      rest := "";
      assert FileAfter(c, file, before) == file;
      assert FileAfter(c, file, rs) == file + c.encode(rs[0]).value + "\n" == file + (c.encode(rs[0]).value + "\n") + "";
    } else {
      var r := FirstOut(c, file, before);
      rest := r + line;
      assert FileAfter(c, file, rs) == FileAfter(c, file, before) + line;
    }
  }

  /** A file that a segment can start with: whole lines, or a last record without its break. */
  ghost predicate Shaped(c: Coding, file: string) { WholeLines(file) || Dangling(c, file) }

  /** What was made and may be on disk: the ledger, with or without the lost record. */
  ghost predicate Kept(s: Segment, rs: seq<Record>)
  {
    rs == StoredAll(s.led) || (s.lost.Some? && rs == StoredAll(s.led + [s.lost.value]))
  }

  /** Handing over exactly: what the next segment reads in the file of this one. */
  lemma HandOver(run: Runner, c: Coding, plan: seq<Slot>, file: string, x: Stretch) returns (k: nat)
    requires Load(c, file).Some? && Shaped(c, file)
    ensures var s := SegmentOf(run, c, plan, file, x);
            && Wrote(c, Fresh(file, Load(c, file).value), s, k)
            && (Load(c, s.file).Some? <==>
                  if WholeLines(file)
                  then && AllFit(c, s.led[|Load(c, file).value|..])
                       && (s.lost.Some? && Landed(c, s.lost.value, k) != "" ==> k >= |TextOf(c, s.lost.value)| && Fits(c, s.lost.value))
                  else s.file == file)
            && (Load(c, s.file).Some? ==>
                  && Shaped(c, s.file)
                  && Load(c, s.file).value == StoredAll(s.led + if LostLanded(c, file, s, k) then LostOf(s) else []))
  {
    var s0 := Fresh(file, Load(c, file).value);
    var s := SegmentOf(run, c, plan, file, x);
    k := SlotsWrite(run, c, x.w, FirstSlots(plan, x.cut), s0);
    ParsedStored(c, Lines(file));
    assert s.led + [] == s.led;
    if WholeLines(file) {
      WholeHandOver(c, s0, s, k);
      if Load(c, s.file).Some? {
        WholeShape(c, s0, s, k);
      }
    } else {
      DanglingHandOver(c, s0, s, k);
    }
  }

  /** All of the lost record landed behind whole lines. */
  ghost predicate LostLanded(c: Coding, file: string, s: Segment, k: nat)
  {
    WholeLines(file) && s.lost.Some? && Landed(c, s.lost.value, k) != ""
  }

  lemma WholeShape(c: Coding, s0: Segment, s: Segment, k: nat)
    requires WholeLines(s0.file) && Wrote(c, s0, s, k)
    requires s.lost.Some? && Landed(c, s.lost.value, k) != "" ==> k >= |TextOf(c, s.lost.value)| && Fits(c, s.lost.value)
    ensures Shaped(c, s.file)
  {
    var recorded := s.led[|s0.led|..];
    var file := FileAfter(c, s0.file, recorded);
    WholeAfter(c, s0.file, recorded);
    if s.lost.None? || Landed(c, s.lost.value, k) == "" {
      assert s.file == file;
    } else {
      var text := c.encode(s.lost.value).value;
      if k == |text| {
        assert (text + "\n")[..k] == text;
        assert DanglingAs(c, s.file, file, s.lost.value);
      } else {
        assert s.file == file + (text + "\n");
      }
    }
  }

  /** A journal that does not open is the end: no later segment runs. */
  lemma {:induction false} StaysClosed(run: Runner, c: Coding, plan: seq<Slot>, a: seq<Stretch>, b: seq<Stretch>)
    requires Resumed(run, c, plan, a).None?
    ensures FileLeft(run, c, plan, a + b) == FileLeft(run, c, plan, a)
    decreases |b|
  {
    if b == [] {
      assert a + b == a;
    } else {
      StaysClosed(run, c, plan, a, b[..|b| - 1]);
      assert (a + b)[..|a + b| - 1] == a + b[..|b| - 1];
    }
  }

  /** Every record that these slots can make in this world. */
  ghost predicate AllGood(run: Runner, slots: seq<Slot>, w: Encounters, good: Record -> bool)
  {
    forall slot, n :: slot in slots ==> good(Stored(run(slot, w(slot, n).attempt)))
  }

  /** Any property of the records that a campaign can make, as the file keeps them, holds of all
      that a resumed journal reads. */
  lemma {:induction false} ReadsOnlyMade(run: Runner, c: Coding, plan: seq<Slot>, stretches: seq<Stretch>, good: Record -> bool)
    requires forall i :: 0 <= i < |stretches| ==> AllGood(run, plan, stretches[i].w, good)
    ensures var rs := Resumed(run, c, plan, stretches);
            rs.Some? ==> Shaped(c, FileLeft(run, c, plan, stretches)) && forall r :: r in rs.value ==> good(r)
    decreases |stretches|
  {
    if stretches != [] {
      var last := |stretches| - 1;
      var before := stretches[..last];
      assert forall i :: 0 <= i < |before| ==> before[i] == stretches[i];
      ReadsOnlyMade(run, c, plan, before, good);
      var file := FileLeft(run, c, plan, stretches[..last]);
      if Load(c, file).Some? {
        assert AllGood(run, plan, stretches[last].w, good);
        SegmentReads(run, c, plan, file, stretches[last], good);
      }
    }
  }

  lemma SegmentReads(run: Runner, c: Coding, plan: seq<Slot>, file: string, x: Stretch, good: Record -> bool)
    requires Load(c, file).Some? && Shaped(c, file) && forall r :: r in Load(c, file).value ==> good(r)
    requires AllGood(run, plan, x.w, good)
    ensures var s := SegmentOf(run, c, plan, file, x);
            Load(c, s.file).Some? ==> Shaped(c, s.file) && forall r :: r in Load(c, s.file).value ==> good(r)
  {
    var s0 := Fresh(file, Load(c, file).value);
    var s := SegmentOf(run, c, plan, file, x);
    var k := HandOver(run, c, plan, file, x);
    ParsedStored(c, Lines(file));
    assert forall slot :: slot in FirstSlots(plan, x.cut) ==> slot in plan;
    MadeInPlan(run, c, x.w, FirstSlots(plan, x.cut), s0, good);
    ReadIsMade(c, s0, s, k, good);
    assert s.led + [] == s.led;
  }

  lemma {:induction false} MadeInPlan(run: Runner, c: Coding, w: Encounters, slots: seq<Slot>, s0: Segment, good: Record -> bool)
    requires s0.made == [] && AllGood(run, slots, w, good)
    ensures forall r :: r in RunSlots(run, c, w, slots, s0).made ==> good(Stored(r))
    decreases |slots|
  {
    if slots != [] {
      var before := slots[..|slots| - 1];
      assert forall slot :: slot in before ==> slot in slots;
      MadeInPlan(run, c, w, before, s0, good);
      assert slots[|slots| - 1] in slots;
    }
  }

  lemma ReadIsMade(c: Coding, s0: Segment, s: Segment, k: nat, good: Record -> bool)
    requires Wrote(c, s0, s, k) && StoredAll(s0.led) == s0.led
    requires (forall r :: r in s0.led ==> good(r)) && forall r :: r in s.made ==> good(Stored(r))
    ensures forall r :: r in StoredAll(s.led) || r in StoredAll(s.led + LostOf(s)) ==> good(r)
  {
    assert s.led + LostOf(s) == s0.led + s.made;
    GoodStored(s0.led, s.made, good);
    FrontStored(s.led, LostOf(s), good);
  }

  lemma GoodStored(led: seq<Record>, made: seq<Record>, good: Record -> bool)
    requires StoredAll(led) == led && (forall r :: r in led ==> good(r)) && forall r :: r in made ==> good(Stored(r))
    ensures forall r :: r in StoredAll(led + made) ==> good(r)
  {
    StoredStored(led, made);
    forall i | 0 <= i < |made| ensures good(StoredAll(made)[i]) {
      assert made[i] in made;
    }
  }

  lemma FrontStored(a: seq<Record>, b: seq<Record>, good: Record -> bool)
    requires forall r :: r in StoredAll(a + b) ==> good(r)
    ensures forall r :: r in StoredAll(a) ==> good(r)
  {
    StoredMore(a, b);
  }
}
