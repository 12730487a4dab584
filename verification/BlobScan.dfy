/** The scanner of blobstrip over a whole line: first as functions of the line and a position,
    then as the class that collects edits while it walks, proved equal to them. */
module BlobScan {
  import opened Text
  import opened Json
  import opened BlobRules

  /** A literal (with its quotes) and what to write there. */
  datatype Edit = Edit(start: nat, end: nat, repl: string)

  /** Where a value ends (-1 when the text is broken) and the edits met on the way. */
  datatype Scan = Scan(end: int, edits: seq<Edit>)

  datatype Payload = Payload(name: string, start: nat, end: nat)

  function SkipSpace(src: string, i: nat): (j: nat)
    requires i <= |src|
    ensures i <= j <= |src|
    ensures j < |src| ==> !IsSpace(src[j])
    ensures forall k :: i <= k < j ==> IsSpace(src[k])
    decreases |src| - i
  {
    if i < |src| && IsSpace(src[i]) then SkipSpace(src, i + 1) else i
  }

  function AtomEnd(src: string, i: nat): (j: nat)
    requires i <= |src|
    ensures i <= j <= |src|
    decreases |src| - i
  {
    if i < |src| && !IsDelimiter(src[i]) then AtomEnd(src, i + 1) else i
  }

  /** The escape automaton of RFC 8259 section 7, byte by byte: the position behind the quote
      that closes a string, from p on, or -1. `escaped` says the byte before p was a live
      backslash. */
  function CloseQuote(src: string, p: nat, escaped: bool): (e: int)
    requires p <= |src|
    ensures e == -1 || (p < e <= |src| && src[e - 1] == '"')
    decreases |src| - p
  {
    if p == |src| then -1
    else if escaped then CloseQuote(src, p + 1, false)
    else if src[p] == '\\' then CloseQuote(src, p + 1, true)
    else if src[p] == '"' then p + 1
    else CloseQuote(src, p + 1, false)
  }

  function DataEdit(c: Rules, lit: string, at: nat): seq<Edit>
    requires |lit| >= 2
  {
    match c.text(lit) case Some(repl) => [Edit(at, at + |lit|, repl)] case None => []
  }

  function PayloadEdit(c: Rules, src: string, p: Payload, md: Medium): seq<Edit>
    requires p.start + 2 <= p.end <= |src|
  {
    match c.payload(src[p.start..p.end], p.name, md)
    case Some(repl) => [Edit(p.start, p.end, repl)]
    case None => []
  }

  predicate PayloadsIn(ps: seq<Payload>, src: string)
  {
    forall k :: 0 <= k < |ps| ==> ps[k].start + 2 <= ps[k].end <= |src|
  }

  function PayloadEdits(c: Rules, src: string, ps: seq<Payload>, md: Medium): seq<Edit>
    requires PayloadsIn(ps, src)
  {
    if ps == [] then [] else PayloadEdit(c, src, ps[0], md) + PayloadEdits(c, src, ps[1..], md)
  }

  function ScanQuoted(c: Rules, src: string, j: nat): (r: Scan)
    requires j < |src|
    ensures r.end == -1 || j + 2 <= r.end <= |src|
  {
    var end := CloseQuote(src, j + 1, false);
    Scan(end, if end > 0 then DataEdit(c, src[j..end], j) else [])
  }

  function ScanValue(c: Rules, src: string, i: nat): (r: Scan)
    requires i <= |src|
    ensures r.end == -1 || i <= r.end <= |src|
    ensures r.end != -1 && SkipSpace(src, i) < |src| && src[SkipSpace(src, i)] == '"' ==>
              SkipSpace(src, i) + 2 <= r.end
    decreases |src| - i, 2
  {
    var j := SkipSpace(src, i);
    if j == |src| then Scan(-1, [])
    else if src[j] == '"' then ScanQuoted(c, src, j)
    else if src[j] == '{' then ScanObject(c, src, j)
    else if src[j] == '[' then ScanArray(c, src, j)
    else Scan(AtomEnd(src, j), [])
  }

  function ScanArray(c: Rules, src: string, i: nat): (r: Scan)
    requires i < |src|
    ensures r.end == -1 || i < r.end <= |src|
    decreases |src| - i, 1
  {
    var j := SkipSpace(src, i + 1);
    if j < |src| && src[j] == ']' then Scan(j + 1, []) else ScanItems(c, src, j)
  }

  /** One item: broken text, or where to go on; `closed` says the bracket followed, else a
      comma did. */
  datatype ItemStep = ItemStep(next: int, closed: bool, edits: seq<Edit>)

  function ScanItem(c: Rules, src: string, i: nat): (t: ItemStep)
    requires i <= |src|
    ensures t.next == -1 || i < t.next <= |src|
    decreases |src| - i, 3
  {
    var v := ScanValue(c, src, i);
    if v.end < 0 then ItemStep(-1, false, v.edits)
    else
      var j := SkipSpace(src, v.end);
      if j < |src| && (src[j] == ',' || src[j] == ']') then ItemStep(j + 1, src[j] == ']', v.edits)
      else ItemStep(-1, false, v.edits)
  }

  function ScanItems(c: Rules, src: string, i: nat): (r: Scan)
    requires i <= |src|
    ensures r.end == -1 || i < r.end <= |src|
    decreases |src| - i, 4
  {
    var t := ScanItem(c, src, i);
    if t.next < 0 || t.closed then Scan(t.next, t.edits)
    else
      var rest := ScanItems(c, src, t.next);
      Scan(rest.end, t.edits + rest.edits)
  }

  function ScanObject(c: Rules, src: string, i: nat): (r: Scan)
    requires i < |src|
    ensures r.end == -1 || i < r.end <= |src|
    decreases |src| - i, 1
  {
    var j := SkipSpace(src, i + 1);
    if j < |src| && src[j] == '}' then Scan(j + 1, [])
    else ScanMembers(c, src, j, NO_MEDIUM, [])
  }

  /** The payload a member adds to the object's list, if it is a candidate. */
  function Added(c: Rules, src: string, name: string, start: nat, end: nat): (ps: seq<Payload>)
    requires start + 2 <= end <= |src|
    ensures PayloadsIn(ps, src)
  {
    if IsCandidate(name, src[start..end]) then [Payload(name, start, end)] else []
  }

  /** One member of an object: broken text, or where to go on, with the object's medium and
      payload list so far. `closed` says the brace followed, else a comma did. */
  datatype Step = Step(next: int, closed: bool, md: Medium, ps: seq<Payload>, edits: seq<Edit>)

  predicate StepFits(t: Step, src: string, i: nat)
  {
    (t.next == -1 || i < t.next <= |src|) && PayloadsIn(t.ps, src)
  }

  /** The key literal src[k..keyEnd] and the start of the value behind the colon. */
  datatype Head = NoHead | Head(k: nat, keyEnd: nat, start: nat)

  function ScanHead(src: string, i: nat): (h: Head)
    requires i <= |src|
    ensures h.Head? ==> i <= h.k && h.k + 2 <= h.keyEnd < h.start <= |src|
  {
    var k := SkipSpace(src, i);
    if k == |src| || src[k] != '"' then NoHead
    else
      var keyEnd := CloseQuote(src, k + 1, false);
      if keyEnd < 0 then NoHead
      else
        var j := SkipSpace(src, keyEnd);
        if j == |src| || src[j] != ':' then NoHead
        else Head(k, keyEnd, SkipSpace(src, j + 1))
  }

  function ScanMember(c: Rules, src: string, i: nat, md: Medium, ps: seq<Payload>): (t: Step)
    requires i <= |src| && PayloadsIn(ps, src)
    ensures StepFits(t, src, i)
    decreases |src| - i, 3
  {
    match ScanHead(src, i)
    case NoHead => Step(-1, false, md, ps, [])
    case Head(k, keyEnd, start) =>
      var v := ScanValue(c, src, start);
      if v.end < 0 then Step(-1, false, md, ps, v.edits)
      else
        assert start < |src| && src[start] == '"' ==> SkipSpace(src, start) == start;
        AfterValue(c, src, c.name(src[k..keyEnd]), start, v, md, ps)
  }

  /** A member whose value has been read: note it if it is a string, then look for the next. */
  function AfterValue(c: Rules, src: string, name: string, start: nat, v: Scan, md: Medium, ps: seq<Payload>): (t: Step)
    requires start <= v.end <= |src| && PayloadsIn(ps, src)
    requires start < |src| && src[start] == '"' ==> start + 2 <= v.end
    ensures (t.next == -1 || v.end < t.next <= |src|) && PayloadsIn(t.ps, src)
  {
    var isText := start < |src| && src[start] == '"';
    var md' := if isText then c.note(md, name, src[start..v.end]) else md;
    var ps' := if isText then ps + Added(c, src, name, start, v.end) else ps;
    var e := SkipSpace(src, v.end);
    if e == |src| then Step(-1, false, md', ps', v.edits)
    else if src[e] == ',' then Step(e + 1, false, md', ps', v.edits)
    else if src[e] == '}' then Step(e + 1, true, md', ps', v.edits)
    else Step(-1, false, md', ps', v.edits)
  }

  function ScanMembers(c: Rules, src: string, i: nat, md: Medium, ps: seq<Payload>): (r: Scan)
    requires i <= |src| && PayloadsIn(ps, src)
    ensures r.end == -1 || i < r.end <= |src|
    decreases |src| - i, 4
  {
    var t := ScanMember(c, src, i, md, ps);
    if t.next < 0 then Scan(-1, t.edits)
    else if t.closed then Scan(t.next, t.edits + PayloadEdits(c, src, t.ps, t.md))
    else
      var rest := ScanMembers(c, src, t.next, t.md, t.ps);
      Scan(rest.end, t.edits + rest.edits)
  }

  function Saved(edits: seq<Edit>): int
  {
    if edits == [] then 0 else edits[0].end - edits[0].start - |edits[0].repl| + Saved(edits[1..])
  }

  lemma {:induction false} SavedConcat(a: seq<Edit>, b: seq<Edit>)
    ensures Saved(a + b) == Saved(a) + Saved(b)
  {
    if a == [] {
      assert a + b == b;
    } else {
      assert (a + b)[1..] == a[1..] + b;
      SavedConcat(a[1..], b);
    }
  }

  // ---- stringEnd: from quote to quote ----

  /** A stretch without quotes leaves the automaton escaped exactly when an odd number of
      backslashes ends it. */
  lemma {:induction false} Stretch(src: string, from: nat, p: nat, q: nat, escaped: bool)
    requires from <= p <= q <= |src| && forall k :: from <= k < q ==> src[k] != '"'
    requires escaped == (Slashes(src, from, p) % 2 == 1)
    ensures CloseQuote(src, p, escaped) == CloseQuote(src, q, Slashes(src, from, q) % 2 == 1)
    decreases q - p
  {
    if p < q {
      Stretch(src, from, p + 1, q, !escaped && src[p] == '\\');
    }
  }

  /** The number of backslashes right before q, not looking before `low`. */
  function Slashes(src: string, low: nat, q: nat): (n: nat)
    requires low <= q <= |src|
    ensures n <= q - low
    ensures forall k :: q - n <= k < q ==> src[k] == '\\'
    ensures q - n > low ==> src[q - n - 1] != '\\'
    decreases q
  {
    if q > low && src[q - 1] == '\\' then 1 + Slashes(src, low, q - 1) else 0
  }

  /** Counting may stop where a byte other than a backslash stands. */
  lemma {:induction false} SlashesStop(src: string, low: nat, from: nat, q: nat)
    requires low <= from <= q <= |src| && (from == low || src[from - 1] != '\\')
    ensures Slashes(src, low, q) == Slashes(src, from, q)
    decreases q
  {
    if q > from {
      SlashesStop(src, low, from, q - 1);
    }
  }

  /** At the next quote: it closes the string exactly when an even number of backslashes stands
      before it, else it is escaped and the automaton goes on behind it. */
  lemma QuoteStep(src: string, i: nat, from: nat, q: nat)
    requires i < from <= q < |src| && src[q] == '"' && forall k :: from <= k < q ==> src[k] != '"'
    requires from == i + 1 || src[from - 1] == '"'
    ensures CloseQuote(src, from, false)
         == if Slashes(src, i + 1, q) % 2 == 0 then q + 1 else CloseQuote(src, q + 1, false)
  {
    SlashesStop(src, i + 1, from, q);
    Stretch(src, from, from, q, false);
  }

  /** Part way through a list: with `edits` made so far, what `here` still finds completes what
      `all` finds. */
  ghost predicate Ahead(all: Scan, here: Scan, edits0: seq<Edit>, saved0: int, edits: seq<Edit>, saved: int)
  {
    && all.end == here.end
    && edits0 + all.edits == edits + here.edits
    && saved0 + Saved(all.edits) == saved + Saved(here.edits)
  }

  /** One element further. */
  lemma Advance(es: seq<Edit>, rest: Scan, all: Scan, edits0: seq<Edit>, saved0: int, edits: seq<Edit>, saved: int)
    requires Ahead(all, Scan(rest.end, es + rest.edits), edits0, saved0, edits, saved)
    ensures Ahead(all, rest, edits0, saved0, edits + es, saved + Saved(es))
  {
    SavedConcat(es, rest.edits);
    assert edits + (es + rest.edits) == (edits + es) + rest.edits;
  }

  class Scanner {
    const c: Rules
    const src: string
    var edits: seq<Edit>
    var saved: int

    constructor (c: Rules, src: string)
      ensures this.c == c && this.src == src && edits == [] && saved == 0
    {
      this.c := c;
      this.src := src;
      edits := [];
      saved := 0;
    }

    method SkipBlanks(i: nat) returns (j: nat)
      requires i <= |src|
      ensures j == SkipSpace(src, i)
    {
      j := i;
      while j < |src| && IsSpace(src[j])
        invariant i <= j <= |src|
        invariant SkipSpace(src, i) == SkipSpace(src, j)
      {
        j := j + 1;
      }
    }

    /** Jumps from quote to quote and counts the backslashes before each; finds the same end as
        the byte-by-byte automaton, also when the string never closes. */
    method StringEnd(i: nat) returns (end: int)
      requires i < |src|
      ensures end == CloseQuote(src, i + 1, false)
    {
      var from := i + 1;
      while true
        invariant i < from <= |src|
        invariant CloseQuote(src, i + 1, false) == CloseQuote(src, from, false)
        invariant from == i + 1 || src[from - 1] == '"'
        decreases |src| - from
      {
        var q := IndexFrom(src, '"', from);
        if q < 0 {
          Stretch(src, from, from, |src|, false);
          return -1;
        }
        var slashes := CountSlashes(i, q);
        QuoteStep(src, i, from, q);
        if slashes % 2 == 0 {
          return q + 1;
        }
        from := q + 1;
      }
    }

    method CountSlashes(i: nat, q: nat) returns (n: nat)
      requires i < q <= |src|
      ensures n == Slashes(src, i + 1, q)
    {
      n := 0;
      var p := q - 1;
      while p > i && src[p] == '\\'
        invariant i <= p < q && Slashes(src, i + 1, q) == n + Slashes(src, i + 1, p + 1)
      {
        n, p := n + 1, p - 1;
      }
    }

    method Append(es: seq<Edit>)
      modifies this
      ensures edits == old(edits) + es && saved == old(saved) + Saved(es)
    {
      edits := edits + es;
      saved := saved + Saved(es);
    }

    method Value(i: nat) returns (end: int)
      requires i <= |src|
      modifies this
      ensures var r := ScanValue(c, src, i);
              end == r.end && edits == old(edits) + r.edits && saved == old(saved) + Saved(r.edits)
      decreases |src| - i, 2
    {
      var j := SkipBlanks(i);
      if j >= |src| {
        end := -1;
      } else if src[j] == '"' {
        end := Quoted(j);
      } else if src[j] == '{' {
        end := Object(j);
      } else if src[j] == '[' {
        end := Array(j);
      } else {
        end := Bare(j);
      }
    }

    method Quoted(j: nat) returns (end: int)
      requires j < |src|
      modifies this
      ensures end == CloseQuote(src, j + 1, false)
      ensures var es := if end > 0 then DataEdit(c, src[j..end], j) else [];
              edits == old(edits) + es && saved == old(saved) + Saved(es)
    {
      end := StringEnd(j);
      if end > 0 {
        Append(DataEdit(c, src[j..end], j));
      }
    }

    method Bare(j: nat) returns (end: nat)
      requires j <= |src|
      ensures end == AtomEnd(src, j)
    {
      end := j;
      while end < |src| && !IsDelimiter(src[end])
        invariant j <= end <= |src|
        invariant AtomEnd(src, j) == AtomEnd(src, end)
      {
        end := end + 1;
      }
    }

    method Array(i: nat) returns (end: int)
      requires i < |src|
      modifies this
      ensures var r := ScanArray(c, src, i);
              end == r.end && edits == old(edits) + r.edits && saved == old(saved) + Saved(r.edits)
      decreases |src| - i, 1
    {
      var at := SkipBlanks(i + 1);
      if at < |src| && src[at] == ']' {
        return at + 1;
      }
      ghost var all := ScanItems(c, src, at);
      while true
        invariant i < at <= |src|
        invariant Ahead(all, ScanItems(c, src, at), old(edits), old(saved), edits, saved)
        decreases |src| - at
      {
        ghost var edits1, saved1 := edits, saved;
        ghost var t := ScanItem(c, src, at);
        var next, closed := ReadItem(at);
        if next < 0 || closed {
          return next;
        }
        at := next;
        Advance(t.edits, ScanItems(c, src, at), all, old(edits), old(saved), edits1, saved1);
      }
    }

    method ReadItem(at: nat) returns (next: int, closed: bool)
      requires at <= |src|
      modifies this
      ensures var t := ScanItem(c, src, at);
              && next == t.next && closed == t.closed
              && edits == old(edits) + t.edits && saved == old(saved) + Saved(t.edits)
      decreases |src| - at, 3
    {
      next, closed := -1, false;
      var stop := Value(at);
      if stop < 0 {
        return;
      }
      var j := SkipBlanks(stop);
      if j < |src| && (src[j] == ',' || src[j] == ']') {
        next, closed := j + 1, src[j] == ']';
      }
    }

    method Object(i: nat) returns (end: int)
      requires i < |src|
      modifies this
      ensures var r := ScanObject(c, src, i);
              end == r.end && edits == old(edits) + r.edits && saved == old(saved) + Saved(r.edits)
      decreases |src| - i, 1
    {
      var md, payloads: seq<Payload> := NO_MEDIUM, [];
      var at := SkipBlanks(i + 1);
      if at < |src| && src[at] == '}' {
        return at + 1;
      }
      ghost var all := ScanMembers(c, src, at, md, payloads);
      while true
        invariant i < at <= |src| && PayloadsIn(payloads, src)
        invariant Ahead(all, ScanMembers(c, src, at, md, payloads), old(edits), old(saved), edits, saved)
        decreases |src| - at
      {
        ghost var edits1, saved1 := edits, saved;
        ghost var t := ScanMember(c, src, at, md, payloads);
        var next, closed;
        next, closed, md, payloads := ReadMember(at, md, payloads);
        if next < 0 {
          return -1;
        }
        if closed {
          Advance(t.edits, Scan(next, PayloadEdits(c, src, payloads, md)), all, old(edits), old(saved), edits1, saved1);
          Replace(payloads, md);
          return next;
        }
        at := next;
        Advance(t.edits, ScanMembers(c, src, at, md, payloads), all, old(edits), old(saved), edits1, saved1);
      }
    }

    method ReadMember(at: nat, md: Medium, payloads: seq<Payload>)
      returns (next: int, closed: bool, md': Medium, payloads': seq<Payload>)
      requires at <= |src| && PayloadsIn(payloads, src)
      modifies this
      ensures var t := ScanMember(c, src, at, md, payloads);
              && next == t.next && closed == t.closed && md' == t.md && payloads' == t.ps
              && edits == old(edits) + t.edits && saved == old(saved) + Saved(t.edits)
      decreases |src| - at, 3
    {
      next, closed, md', payloads' := -1, false, md, payloads;
      var h := ReadHead(at);
      if h.NoHead? {
        return;
      }
      ghost var v := ScanValue(c, src, h.start);
      var stop := Value(h.start);
      if stop < 0 {
        return;
      }
      next, closed, md', payloads' := NoteValue(c.name(src[h.k..h.keyEnd]), h.start, stop, v, md, payloads);
    }

    method ReadHead(at: nat) returns (h: Head)
      requires at <= |src|
      ensures h == ScanHead(src, at)
    {
      var k := SkipBlanks(at);
      if k >= |src| || src[k] != '"' {
        return NoHead;
      }
      var keyEnd := StringEnd(k);
      if keyEnd < 0 {
        return NoHead;
      }
      var j := SkipBlanks(keyEnd);
      if j >= |src| || src[j] != ':' {
        return NoHead;
      }
      var start := SkipBlanks(j + 1);
      return Head(k, keyEnd, start);
    }

    method NoteValue(name: string, start: nat, stop: nat, ghost v: Scan, md: Medium, payloads: seq<Payload>)
      returns (next: int, closed: bool, md': Medium, payloads': seq<Payload>)
      requires start <= stop == v.end <= |src| && PayloadsIn(payloads, src)
      requires start < |src| && src[start] == '"' ==> start + 2 <= stop
      ensures AfterValue(c, src, name, start, v, md, payloads) == Step(next, closed, md', payloads', v.edits)
    {
      next, closed, md', payloads' := -1, false, md, payloads;
      if start < |src| && src[start] == '"' {
        md' := c.note(md, name, src[start..stop]);
        payloads' := payloads + Added(c, src, name, start, stop);
      }
      var e := SkipBlanks(stop);
      if e < |src| && (src[e] == ',' || src[e] == '}') {
        next, closed := e + 1, src[e] == '}';
      }
    }

    /** At the closing brace: replace the payloads the object admits. */
    method Replace(payloads: seq<Payload>, md: Medium)
      requires PayloadsIn(payloads, src)
      modifies this
      ensures edits == old(edits) + PayloadEdits(c, src, payloads, md)
      ensures saved == old(saved) + Saved(PayloadEdits(c, src, payloads, md))
    {
      ghost var all := Scan(0, PayloadEdits(c, src, payloads, md));
      var k := 0;
      assert payloads[0..] == payloads;
      while k < |payloads|
        invariant 0 <= k <= |payloads|
        invariant Ahead(all, Scan(0, PayloadEdits(c, src, payloads[k..], md)), old(edits), old(saved), edits, saved)
      {
        ghost var edits1, saved1 := edits, saved;
        var es := PayloadEdit(c, src, payloads[k], md);
        Append(es);
        assert payloads[k..][1..] == payloads[k + 1..];
        k := k + 1;
        Advance(es, Scan(0, PayloadEdits(c, src, payloads[k..], md)), all, old(edits), old(saved), edits1, saved1);
      }
      assert payloads[k..] == [];
    }
  }
}
