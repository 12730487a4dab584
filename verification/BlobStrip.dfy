/** blobstrip.Strip: the line in, the line out, and what the two have in common. */
module BlobStrip {
  import opened Text
  import opened Json
  import opened JsonLayout
  import opened BlobRules
  import opened BlobScan
  import opened BlobTree
  import opened BlobWalk
  import opened BlobSplice

  const NEEDLES := ["base64", "mimeType", "mime_type", "media_type"]

  predicate MayCarryPayload(line: string)
  {
    exists k :: 0 <= k < |NEEDLES| && Contains(line, NEEDLES[k])
  }

  /** A needle in a part is one in the whole. */
  lemma WholeHas(a: string, b: string, c: string)
    requires MayCarryPayload(b)
    ensures MayCarryPayload(a + b + c)
  {
    var line := a + b + c;
    var n :| 0 <= n < |NEEDLES| && Contains(b, NEEDLES[n]);
    var k :| 0 <= k <= |b| - |NEEDLES[n]| && OccursAt(b, NEEDLES[n], k);
    assert line[|a| + k..|a| + k + |NEEDLES[n]|] == b[k..k + |NEEDLES[n]|];
    assert OccursAt(line, NEEDLES[n], |a| + k);
  }

  /** The lines Strip looks into. */
  ghost predicate Opened(line: string)
  {
    |line| >= MIN_BYTES && MayCarryPayload(line) && ValidJson(line)
  }

  /** On the text of a tree the scanner succeeds and finds the tree's edits. */
  lemma ScanFinds(c: Rules, d: Doc)
    requires Sound(c) && WellFormedDoc(d)
    ensures ScanValue(c, PrintDoc(d), 0) == Scan(|d.before| + Size(d.v), ValueEdits(c, d.v, |d.before|))
  {
    var line := PrintDoc(d);
    var i := |d.before|;
    DocParts(d);
    SizeIsLength(d.v);
    PrintedLaid(line, i, d.v);
    LaidStart(line, i, d.v);
    SkipTo(line, 0, i);
    ScanFrom(c, line, 0, i);
    ValueScan(c, line, i, d.v);
  }

  lemma DocBecomes(c: Rules, d: Doc)
    requires WellFormedDoc(d)
    ensures var line := PrintDoc(d);
            Becomes(line, TextEdits(c, d.v, |d.before|), 0, |line|, PrintDoc(StripDoc(c, d)))
    ensures Ordered(TextEdits(c, d.v, |d.before|), |d.before|, |d.before| + Size(d.v))
  {
    var line := PrintDoc(d);
    var i := |d.before|;
    DocParts(d);
    SizeIsLength(d.v);
    ValueBecomes(c, line, i, d.v);
    Around(line, 0, d.before, TextEdits(c, d.v, i), i + Size(d.v), Print(StripTree(c, d.v)), d.after, "");
    assert PrintDoc(StripDoc(c, d)) + "" == PrintDoc(StripDoc(c, d));
  }

  /** Sorted, the edits the scanner finds are the tree's own in text order. They lie one behind
      the other in the line, splicing them prints the transformed tree, and the bytes they save
      are counted right. */
  lemma ScanDoc(c: Rules, d: Doc)
    requires Sound(c) && WellFormedDoc(d)
    ensures var line := PrintDoc(d);
            var r := ScanValue(c, line, 0);
            && r.end >= 0
            && SortByStart(r.edits) == TextEdits(c, d.v, |d.before|)
            && Becomes(line, SortByStart(r.edits), 0, |line|, PrintDoc(StripDoc(c, d)))
            && Saved(SortByStart(r.edits)) == Saved(r.edits)
  {
    var i := |d.before|;
    ScanFinds(c, d);
    DocBecomes(c, d);
    SameValue(c, d.v, i);
    SortIsTextOrder(ValueEdits(c, d.v, i), TextEdits(c, d.v, i), i, i + Size(d.v));
  }

  lemma DocParts(d: Doc)
    requires WellFormedDoc(d)
    ensures var line := PrintDoc(d);
            && At(line, 0, d.before) && At(line, |d.before|, Print(d.v))
            && At(line, |d.before| + |Print(d.v)|, d.after) && At(line, |line|, "")
            && Stops(line, |d.before| + |Print(d.v)|)
            && forall k :: 0 <= k < |d.before| ==> IsSpace(line[k])
  {
    var line := PrintDoc(d);
    assert At(line, 0, line);
    assert line == d.before + Print(d.v) + d.after + "" + "";
    AtElement(line, 0, line, d.before, Print(d.v), d.after, "", "");
  }

  /** Strip. `valid` is the answer of json.Valid, which also refuses JSON that nests too deep. */
  method Strip(c: Rules, line: string, valid: bool) returns (out: string, saved: int)
    requires Sound(c) && (valid ==> ValidJson(line))
    ensures !Opened(line) || !valid ==> out == line && saved == 0
    ensures Opened(line) && valid ==>
              forall d: Doc :: WellFormedDoc(d) && PrintDoc(d) == line ==> out == PrintDoc(StripDoc(c, d))
    ensures saved == |line| - |out|
  {
    if |line| < MIN_BYTES || !MayCarryPayload(line) || !valid {
      return line, 0;
    }
    ghost var d: Doc :| WellFormedDoc(d) && PrintDoc(d) == line;
    forall d: Doc | WellFormedDoc(d) && PrintDoc(d) == line
      ensures PrintDoc(StripDoc(c, d)) == StripText(c, line)
    {
      ScanDoc(c, d);
    }
    ScanDoc(c, d);
    var sc := new Scanner(c, line);
    var end := sc.Value(0);
    assert sc.edits == ScanValue(c, line, 0).edits;
    if end < 0 || |sc.edits| == 0 {
      assert Splice(line, [], 0, |line|) == line;
      return line, 0;
    }
    var edits := SortByStart(sc.edits);
    SpliceLength(line, edits, 0, |line|);
    out := Write(line, edits);
    saved := sc.saved;
  }

  /** What the scanner's edits make of a line. */
  ghost function StripText(c: Rules, line: string): string
  {
    var es := SortByStart(ScanValue(c, line, 0).edits);
    if Ordered(es, 0, |line|) then Splice(line, es, 0, |line|) else line
  }

  /** The loop that copies the line around the edits. */
  method Write(line: string, edits: seq<Edit>) returns (out: string)
    requires Ordered(edits, 0, |line|)
    ensures out == Splice(line, edits, 0, |line|)
  {
    out := "";
    var at: nat, k: nat := 0, 0;
    assert edits[0..] == edits;
    while k < |edits|
      invariant 0 <= k <= |edits| && at <= |line|
      invariant Ordered(edits[k..], at, |line|)
      invariant Splice(line, edits, 0, |line|) == out + Splice(line, edits[k..], at, |line|)
    {
      var e := edits[k];
      assert edits[k..][0] == e && edits[k..][1..] == edits[k + 1..];
      OrderedEnds(edits[k + 1..], e.end, |line|);
      out := out + line[at..e.start] + e.repl;
      at, k := e.end, k + 1;
    }
    assert edits[k..] == [];
    out := out + line[at..];
  }
}
