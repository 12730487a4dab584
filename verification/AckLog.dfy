/** The ack log of the pause hook: an append-only file of lines that is read on from an offset. */
module AckLog {
  import opened Text

  /** An ack line; `end` is the offset behind it. */
  datatype Ack = Ack(control: int, toolUse: string, end: nat)

  /** What a whole line (with its line break) says: control and tool use, if it is an ack with a
      tool use. */
  type LineParser = string -> Option<(int, string)>

  datatype Reading = Reading(acks: seq<Ack>, next: nat)

  /** The offset behind the next line break, or -1. */
  function LineEnd(file: string, offset: nat): (e: int)
    requires offset <= |file|
    ensures e == -1 || offset < e <= |file|
    decreases |file| - offset
  {
    if offset == |file| then -1
    else if file[offset] == '\n' then offset + 1
    else LineEnd(file, offset + 1)
  }

  /** The ack on the line between these offsets, if there is one. */
  function AckOn(parse: LineParser, file: string, offset: nat, end: nat): seq<Ack>
    requires offset <= end <= |file|
  {
    match parse(file[offset..end]) case Some((control, toolUse)) => [Ack(control, toolUse, end)] case None => []
  }

  /** All whole lines from an offset on, and the offset behind them. */
  function ReadFrom(parse: LineParser, file: string, offset: nat): (r: Reading)
    requires offset <= |file|
    ensures offset <= r.next <= |file|
    decreases |file| - offset
  {
    var e := LineEnd(file, offset);
    if e == -1 then Reading([], offset)
    else Behind(AckOn(parse, file, offset, e), ReadFrom(parse, file, e))
  }

  /** Acks read before a reading. */
  function Behind(acks: seq<Ack>, rest: Reading): (r: Reading)
    ensures r.next == rest.next
  {
    Reading(acks + rest.acks, rest.next)
  }

  lemma Regroup(a: seq<Ack>, b: seq<Ack>, rest: Reading)
    ensures Behind(a, Behind(b, rest)) == Behind(a + b, rest)
    ensures Behind([], rest) == rest
  {
    assert a + (b + rest.acks) == a + b + rest.acks;
  }

  /** The offset a read starts at: a file shorter than the offset was replaced. */
  function StartOf(file: string, offset: nat): nat { if |file| < offset then 0 else offset }

  /** One more line read: what stands behind these acks is what stands behind those with its own. */
  lemma NextLine(parse: LineParser, text: string, offset: nat, e: nat, acks: seq<Ack>)
    requires offset <= |text| && LineEnd(text, offset) == e
    ensures var a := parse(text[offset..e]);
            Behind(acks, ReadFrom(parse, text, offset))
            == Behind(if a.Some? then acks + [Ack(a.value.0, a.value.1, e)] else acks, ReadFrom(parse, text, e))
  {
    Regroup(acks, AckOn(parse, text, offset, e), ReadFrom(parse, text, e));
    assert acks + [] == acks;
  }

  lemma LastLine(parse: LineParser, text: string, offset: nat, acks: seq<Ack>)
    requires offset <= |text| && LineEnd(text, offset) == -1
    ensures Behind(acks, ReadFrom(parse, text, offset)) == Reading(acks, offset)
  {
    assert acks + [] == acks;
  }

  /** ReadAcks. A file that is missing leaves the offset. */
  method ReadAcks(parse: LineParser, file: Option<string>, offset: nat) returns (acks: seq<Ack>, next: nat)
    ensures file.None? ==> acks == [] && next == offset
    ensures file.Some? ==> Reading(acks, next) == ReadFrom(parse, file.value, StartOf(file.value, offset))
  {
    if file.None? {
      return [], offset;
    }
    var text := file.value;
    acks, next := [], StartOf(text, offset);
    ghost var all := ReadFrom(parse, text, next);
    Regroup([], [], all);
    var e := LineEnd(text, next);
    while e != -1
      invariant next <= |text| && e == LineEnd(text, next)
      invariant all == Behind(acks, ReadFrom(parse, text, next))
      decreases |text| - next
    {
      NextLine(parse, text, next, e, acks);
      var a := parse(text[next..e]);
      if a.Some? {
        acks := acks + [Ack(a.value.0, a.value.1, e)];
      }
      next := e;
      e := LineEnd(text, next);
    }
    LastLine(parse, text, next, acks);
  }

  /** An offset at the start of a line. */
  predicate Boundary(file: string, offset: nat)
  {
    offset <= |file| && (offset == 0 || file[offset - 1] == '\n')
  }

  lemma {:induction false} EndIsBoundary(file: string, offset: nat)
    requires offset <= |file| && LineEnd(file, offset) != -1
    ensures Boundary(file, LineEnd(file, offset))
    decreases |file| - offset
  {
    if file[offset] != '\n' {
      EndIsBoundary(file, offset + 1);
    }
  }

  lemma {:induction false} StopsAtBoundary(parse: LineParser, file: string, offset: nat)
    requires Boundary(file, offset)
    ensures Boundary(file, ReadFrom(parse, file, offset).next)
    decreases |file| - offset
  {
    var e := LineEnd(file, offset);
    if e != -1 {
      EndIsBoundary(file, offset);
      StopsAtBoundary(parse, file, e);
    }
  }

  /** A whole line is the same in every text that goes on from its end. */
  lemma {:induction false} SameLine(a: string, b: string, offset: nat)
    requires offset <= |a| && a <= b && LineEnd(a, offset) != -1
    ensures LineEnd(b, offset) == LineEnd(a, offset)
    decreases |a| - offset
  {
    assert a[offset] == b[offset];
    if a[offset] != '\n' {
      SameLine(a, b, offset + 1);
    }
  }

  lemma SameAck(parse: LineParser, a: string, b: string, offset: nat, end: nat)
    requires offset <= end <= |a| && a <= b
    ensures AckOn(parse, a, offset, end) == AckOn(parse, b, offset, end)
  {
    assert a[offset..end] == b[offset..end];
  }

  /** Appending bytes, whole lines or parts of one, never changes what was read before it. */
  lemma {:induction false} ReadOn(parse: LineParser, a: string, b: string, offset: nat)
    requires offset <= |a| && a <= b
    ensures var first := ReadFrom(parse, a, offset);
            ReadFrom(parse, b, offset) == Behind(first.acks, ReadFrom(parse, b, first.next))
    decreases |a| - offset
  {
    var e := LineEnd(a, offset);
    if e == -1 {
      Regroup([], [], ReadFrom(parse, b, offset));
    } else {
      SameLine(a, b, offset);
      SameAck(parse, a, b, offset, e);
      ReadOn(parse, a, b, e);
      var first := ReadFrom(parse, a, e);
      Regroup(AckOn(parse, a, offset, e), first.acks, ReadFrom(parse, b, first.next));
    }
  }

  /** The file after n appends, in order. */
  function Grown(appends: seq<string>): string
    decreases |appends|
  {
    if appends == [] then "" else Grown(appends[..|appends| - 1]) + appends[|appends| - 1]
  }

  /** Reads that go on from the offset of the one before, one after each append. */
  function ReadAll(parse: LineParser, appends: seq<string>): (r: Reading)
    ensures r.next <= |Grown(appends)|
    decreases |appends|
  {
    if appends == [] then Reading([], 0)
    else
      var before := ReadAll(parse, appends[..|appends| - 1]);
      var r := ReadFrom(parse, Grown(appends), before.next);
      Reading(before.acks + r.acks, r.next)
  }

  /** However appends and reads interleave, what was read in pieces is exactly what one read of
      the final file yields; nothing is read twice and nothing is lost. */
  lemma {:induction false} PiecesMakeTheWhole(parse: LineParser, appends: seq<string>)
    ensures ReadAll(parse, appends) == ReadFrom(parse, Grown(appends), 0)
    decreases |appends|
  {
    if appends != [] {
      var before := appends[..|appends| - 1];
      PiecesMakeTheWhole(parse, before);
      ReadOn(parse, Grown(before), Grown(appends), 0);
    }
  }

  /** Acks that end behind `low`, up to `high`, each behind the one before, at line ends. */
  ghost predicate Rising(file: string, acks: seq<Ack>, low: nat, high: nat)
  {
    && (forall k :: 0 <= k < |acks| ==> low < acks[k].end <= high && Boundary(file, acks[k].end))
    && (forall j, k :: 0 <= j < k < |acks| ==> acks[j].end < acks[k].end)
  }

  lemma RisingJoin(file: string, a: seq<Ack>, b: seq<Ack>, low: nat, mid: nat, high: nat)
    requires Rising(file, a, low, mid) && Rising(file, b, mid, high) && low <= mid <= high
    ensures Rising(file, a + b, low, high)
  {
  }

  lemma {:induction false} EndsGrow(parse: LineParser, file: string, offset: nat)
    requires offset <= |file|
    ensures var r := ReadFrom(parse, file, offset); Rising(file, r.acks, offset, r.next)
    decreases |file| - offset
  {
    var e := LineEnd(file, offset);
    if e != -1 {
      EndIsBoundary(file, offset);
      EndsGrow(parse, file, e);
      RisingJoin(file, AckOn(parse, file, offset, e), ReadFrom(parse, file, e).acks, offset, e, ReadFrom(parse, file, e).next);
    }
  }

  lemma {:induction false} BreakBefore(file: string, offset: nat, end: nat)
    requires offset < end <= |file| && file[end - 1] == '\n'
    ensures LineEnd(file, offset) != -1 && LineEnd(file, offset) <= end
    decreases end - offset
  {
    if file[offset] != '\n' {
      BreakBefore(file, offset + 1, end);
    }
  }

  /** A read of the front of a file, up to a line boundary, finds the acks that end there and
      nothing behind. */
  lemma {:induction false} FrontReads(parse: LineParser, file: string, offset: nat, end: nat)
    requires offset <= end && Boundary(file, end)
    ensures ReadFrom(parse, file[..end], offset).next == end
    ensures ReadFrom(parse, file, offset)
            == Behind(ReadFrom(parse, file[..end], offset).acks, ReadFrom(parse, file, end))
    decreases end - offset
  {
    var front := file[..end];
    if offset < end {
      assert front[end - 1] == '\n';
      BreakBefore(front, offset, end);
      FrontReads(parse, file, LineEnd(front, offset), end);
    }
    ReadOn(parse, front, file, offset);
  }

  // ---- What a read finds, exactly ----

  /** A whole line behind this offset: its first byte, and the offset behind its line break. */
  predicate IsLine(file: string, offset: nat, start: nat, end: nat)
  {
    && offset <= start < end <= |file| && (start == offset || file[start - 1] == '\n')
    && file[end - 1] == '\n' && forall k :: start <= k < end - 1 ==> file[k] != '\n'
  }

  lemma {:induction false} FirstLine(file: string, offset: nat)
    requires offset <= |file|
    ensures var e := LineEnd(file, offset);
            if e == -1 then forall k :: offset <= k < |file| ==> file[k] != '\n' else IsLine(file, offset, offset, e)
    decreases |file| - offset
  {
    if offset < |file| && file[offset] != '\n' {
      FirstLine(file, offset + 1);
    }
  }

  /** The lines behind an offset are its first one and those behind that. */
  lemma LinesSplit(file: string, offset: nat, e: nat, start: nat, end: nat)
    requires IsLine(file, offset, offset, e)
    ensures IsLine(file, offset, start, end) <==> (start == offset && end == e) || IsLine(file, e, start, end)
  {
    if IsLine(file, offset, start, end) {
      if start == offset {
        assert end == e;
      } else {
        assert start >= e;
      }
    }
  }

  /** An ack is what the parser makes of a whole line. */
  ghost predicate SaidOn(parse: LineParser, file: string, offset: nat, a: Ack)
  {
    exists start: nat :: IsLine(file, offset, start, a.end) && parse(file[start..a.end]) == Some((a.control, a.toolUse))
  }

  lemma SaidLater(parse: LineParser, file: string, offset: nat, e: nat, a: Ack)
    requires IsLine(file, offset, offset, e)
    ensures SaidOn(parse, file, offset, a) <==>
              (a.end == e && parse(file[offset..e]) == Some((a.control, a.toolUse))) || SaidOn(parse, file, e, a)
  {
    if SaidOn(parse, file, e, a) {
      var start: nat :| IsLine(file, e, start, a.end) && parse(file[start..a.end]) == Some((a.control, a.toolUse));
      LinesSplit(file, offset, e, start, a.end);
    }
    if SaidOn(parse, file, offset, a) {
      var start: nat :| IsLine(file, offset, start, a.end) && parse(file[start..a.end]) == Some((a.control, a.toolUse));
      LinesSplit(file, offset, e, start, a.end);
    }
  }

  /** A read finds the acks on all whole lines behind its offset and no other, in the order of the
      lines, and leaves no whole line behind. */
  lemma {:induction false} ReadExactly(parse: LineParser, file: string, offset: nat)
    requires offset <= |file|
    ensures var r := ReadFrom(parse, file, offset);
            && (forall a :: a in r.acks <==> SaidOn(parse, file, offset, a))
            && Rising(file, r.acks, offset, r.next)
            && (forall k :: r.next <= k < |file| ==> file[k] != '\n') && (r.next == offset || file[r.next - 1] == '\n')
    decreases |file| - offset
  {
    var e := LineEnd(file, offset);
    FirstLine(file, offset);
    EndsGrow(parse, file, offset);
    if e != -1 {
      ReadExactly(parse, file, e);
      forall a ensures a in ReadFrom(parse, file, offset).acks <==> SaidOn(parse, file, offset, a) {
        SaidLater(parse, file, offset, e, a);
      }
    }
  }
}
