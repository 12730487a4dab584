/** The scanner on a laid-out tree: it consumes exactly one value and makes exactly the tree's
    edits. */
module BlobWalk {
  import opened Text
  import opened Json
  import opened JsonLayout
  import opened BlobRules
  import opened BlobScan
  import opened BlobTree

  lemma {:induction false} SkipTo(src: string, i: nat, j: nat)
    requires i <= j <= |src| && (forall k :: i <= k < j ==> IsSpace(src[k]))
    requires j == |src| || !IsSpace(src[j])
    ensures SkipSpace(src, i) == j
    decreases j - i
  {
    if i < j {
      SkipTo(src, i + 1, j);
    }
  }

  lemma SkipTwice(src: string, i: nat)
    requires i <= |src|
    ensures SkipSpace(src, SkipSpace(src, i)) == SkipSpace(src, i)
  {
    SkipTo(src, SkipSpace(src, i), SkipSpace(src, i));
  }

  /** An escaped code point: the automaton passes over its four digits. */
  lemma CloseUnicode(src: string, q: nat)
    requires q + 6 <= |src| && src[q] == '\\' && src[q + 1] == 'u'
    requires IsHex(src[q + 2]) && IsHex(src[q + 3]) && IsHex(src[q + 4]) && IsHex(src[q + 5])
    ensures CloseQuote(src, q, false) == CloseQuote(src, q + 6, false)
  {
    assert CloseQuote(src, q, false) == CloseQuote(src, q + 2, false);
    assert CloseQuote(src, q + 2, false) == CloseQuote(src, q + 4, false);
  }

  lemma UnicodeAt(src: string, i: nat, lit: string, p: nat)
    requires At(src, i, lit) && p + 6 <= |lit| && lit[p] == '\\' && lit[p + 1] == 'u' && forall k :: p + 2 <= k < p + 6 ==> IsHex(lit[k])
    ensures CloseQuote(src, i + p, false) == CloseQuote(src, i + p + 6, false)
  {
    var q := i + p;
    assert src[q] == lit[p] && src[q + 1] == lit[p + 1];
    assert src[q + 2] == lit[p + 2] && src[q + 3] == lit[p + 3] && src[q + 4] == lit[p + 4] && src[q + 5] == lit[p + 5];
    CloseUnicode(src, q);
  }

  lemma EscapeAt(src: string, i: nat, lit: string, p: nat)
    requires At(src, i, lit) && p + 2 <= |lit| && lit[p] == '\\'
    ensures CloseQuote(src, i + p, false) == CloseQuote(src, i + p + 2, false)
  {
    assert src[i + p] == lit[p] && src[i + p + 1] == lit[p + 1];
  }

  lemma ByteOf(src: string, i: nat, lit: string, p: nat)
    requires At(src, i, lit) && p < |lit| && lit[p] != '\\'
    ensures CloseQuote(src, i + p, false) == if lit[p] == '"' then i + p + 1 else CloseQuote(src, i + p + 1, false)
  {
    assert src[i + p] == lit[p];
  }

  /** How many bytes of a literal's body make one character. */
  function CharSize(lit: string, p: nat): nat
    requires p + 1 < |lit|
  {
    if lit[p] != '\\' then 1 else if lit[p + 1] == 'u' then 6 else 2
  }

  lemma CharAt(src: string, i: nat, lit: string, p: nat)
    requires At(src, i, lit) && 0 < p < |lit| - 1 && BodyFrom(lit, p)
    ensures var q := p + CharSize(lit, p);
            q < |lit| && BodyFrom(lit, q) && CloseQuote(src, i + p, false) == CloseQuote(src, i + q, false)
  {
    if lit[p] != '\\' {
      ByteOf(src, i, lit, p);
    } else if lit[p + 1] == 'u' {
      UnicodeAt(src, i, lit, p);
    } else {
      EscapeAt(src, i, lit, p);
    }
  }

  lemma {:induction false} CloseBody(src: string, i: nat, lit: string, p: nat)
    requires At(src, i, lit) && 0 < p < |lit| && BodyFrom(lit, p) && lit[|lit| - 1] == '"'
    ensures CloseQuote(src, i + p, false) == i + |lit|
    decreases |lit| - p
  {
    if p == |lit| - 1 {
      ByteOf(src, i, lit, p);
    } else {
      CharAt(src, i, lit, p);
      CloseBody(src, i, lit, p + CharSize(lit, p));
    }
  }

  lemma StringScan(src: string, i: nat, lit: string)
    requires IsString(lit) && At(src, i, lit)
    ensures CloseQuote(src, i + 1, false) == i + |lit|
    ensures ByteAt(src, i, '"') && src[i..i + |lit|] == lit
  {
    assert src[i] == lit[0];
    CloseBody(src, i, lit, 1);
  }

  lemma {:induction false} AtomScan(src: string, i: nat, end: nat)
    requires i <= end <= |src| && (forall k :: i <= k < end ==> !IsDelimiter(src[k]))
    requires end == |src| || IsDelimiter(src[end])
    ensures AtomEnd(src, i) == end
    decreases end - i
  {
    if i < end {
      AtomScan(src, i + 1, end);
    }
  }

  predicate Stops(src: string, end: nat) { end == |src| || (end < |src| && IsDelimiter(src[end])) }

  /** After a value: white space, then a byte that ends it. */
  lemma AfterScan(src: string, end: nat, n: nat, b: char)
    requires Blank(src, end, n) && ByteAt(src, end + n, b) && b in ",]}"
    ensures SkipSpace(src, end) == end + n && Stops(src, end)
  {
    SkipTo(src, end, end + n);
  }

  /** The white space before a value does not change what is read. */
  lemma ScanFrom(c: Rules, src: string, i: nat, at: nat)
    requires i <= at <= |src| && SkipSpace(src, i) == at
    ensures ScanValue(c, src, i) == ScanValue(c, src, at)
  {
    SkipTwice(src, i);
  }

  lemma QuotedScan(c: Rules, src: string, i: nat, lit: string)
    requires IsString(lit) && At(src, i, lit)
    ensures ScanValue(c, src, i) == Scan(i + |lit|, DataEdit(c, lit, i))
  {
    StringScan(src, i, lit);
    SkipTo(src, i, i);
  }

  lemma BareScan(c: Rules, src: string, i: nat, text: string)
    requires IsAtom(text) && At(src, i, text) && Stops(src, i + |text|)
    ensures ScanValue(c, src, i) == Scan(i + |text|, [])
  {
    AtomChars(text);
    assert src[i] == text[0];
    SkipTo(src, i, i);
    AtomScan(src, i, i + |text|);
  }

  lemma EmptyScan(c: Rules, src: string, i: nat, n: nat, open: char, close: char)
    requires (open == '[' && close == ']') || (open == '{' && close == '}')
    requires ByteAt(src, i, open) && Blank(src, i + 1, n) && ByteAt(src, i + 1 + n, close)
    ensures ScanValue(c, src, i) == Scan(i + n + 2, [])
  {
    SkipTo(src, i, i);
    SkipTo(src, i + 1, i + 1 + n);
  }

  lemma BracketScan(c: Rules, src: string, i: nat)
    requires ByteAt(src, i, '[') || ByteAt(src, i, '{')
    ensures ScanValue(c, src, i) == if src[i] == '[' then ScanArray(c, src, i) else ScanObject(c, src, i)
  {
    SkipTo(src, i, i);
  }

  /** What the scanner is to make of a value at i. */
  function WholeValue(c: Rules, v: Value, i: nat): Scan
    requires WellFormed(v)
  {
    Scan(i + Size(v), ValueEdits(c, v, i))
  }

  lemma {:induction false} ValueScan(c: Rules, src: string, i: nat, v: Value)
    requires WellFormed(v) && Laid(src, i, v) && Stops(src, i + Size(v))
    ensures ScanValue(c, src, i) == WholeValue(c, v, i)
    decreases v, 4
  {
    match v {
      case Arr(items) => ArrayValueScan(c, src, i, v);
      case Obj(members) => ObjectValueScan(c, src, i, v);
      case _ => FlatScan(c, src, i, v);
    }
  }

  lemma FlatScan(c: Rules, src: string, i: nat, v: Value)
    requires WellFormed(v) && Laid(src, i, v) && Stops(src, i + Size(v)) && !v.Arr? && !v.Obj?
    ensures ScanValue(c, src, i) == WholeValue(c, v, i)
  {
    match v {
      case Str(lit) => QuotedScan(c, src, i, lit);
      case Atom(text) => BareScan(c, src, i, text);
      case EmptyArr(gap) => EmptyScan(c, src, i, |gap|, '[', ']');
      case EmptyObj(gap) => EmptyScan(c, src, i, |gap|, '{', '}');
    }
  }

  lemma {:induction false} ArrayValueScan(c: Rules, src: string, i: nat, v: Value)
    requires WellFormed(v) && Laid(src, i, v) && v.Arr?
    ensures ScanValue(c, src, i) == WholeValue(c, v, i)
    decreases v, 3
  {
    ArrayScan(c, src, i + 1, v.items, ScanValue(c, src, i));
  }

  lemma {:induction false} ObjectValueScan(c: Rules, src: string, i: nat, v: Value)
    requires WellFormed(v) && Laid(src, i, v) && v.Obj?
    ensures ScanValue(c, src, i) == WholeValue(c, v, i)
    decreases v, 3
  {
    ObjectScan(c, src, i + 1, v.members, ScanValue(c, src, i), WholeValue(c, v, i));
  }

  /** An array that starts right before j. */
  lemma {:induction false} ArrayScan(c: Rules, src: string, j: nat, items: Items, r: Scan)
    requires j > 0 && WellFormedItems(items) && ByteAt(src, j - 1, '[') && LaidItems(src, j, items)
    requires r == ScanValue(c, src, j - 1)
    ensures r == Scan(j + ItemsSize(items), ItemsEdits(c, items, j))
    decreases items, 3
  {
    ItemsFrom(c, src, j, items, r);
    ItemsScan(c, src, j, items);
  }

  lemma FirstItemLaid(src: string, i: nat, items: Items)
    requires LaidItems(src, i, items)
    ensures SkipSpace(src, i) == ItemAt(items, i) < |src| && src[ItemAt(items, i)] != ']'
  {
    ItemSkips(src, i, items.pre, items.v);
    LaidStart(src, ItemAt(items, i), items.v);
  }

  lemma ItemsFrom(c: Rules, src: string, j: nat, items: Items, r: Scan)
    requires j > 0 && ByteAt(src, j - 1, '[') && LaidItems(src, j, items)
    requires r == ScanValue(c, src, j - 1)
    ensures r == ScanItems(c, src, j)
  {
    FirstItemLaid(src, j, items);
    ItemsBehind(c, src, j, r);
  }

  lemma ItemsBehind(c: Rules, src: string, j: nat, r: Scan)
    requires 0 < j <= |src| && ByteAt(src, j - 1, '[') && r == ScanValue(c, src, j - 1)
    requires SkipSpace(src, j) < |src| && src[SkipSpace(src, j)] != ']'
    ensures r == ScanItems(c, src, j)
  {
    BracketScan(c, src, j - 1);
    ItemsOpen(c, src, j - 1, SkipSpace(src, j));
    ItemsLater(c, src, j);
  }

  lemma ItemsOpen(c: Rules, src: string, i: nat, at: nat)
    requires i < |src| && SkipSpace(src, i + 1) == at < |src| && src[at] != ']'
    ensures ScanArray(c, src, i) == ScanItems(c, src, at)
  {
  }

  lemma ItemsLater(c: Rules, src: string, i: nat)
    requires i <= |src|
    ensures ScanItems(c, src, i) == ScanItems(c, src, SkipSpace(src, i))
  {
    ScanFrom(c, src, i, SkipSpace(src, i));
    assert ScanItem(c, src, i) == ScanItem(c, src, SkipSpace(src, i));
  }

  /** The first item of a list and where it stands. */
  lemma ItemsParts(src: string, i: nat, items: Items)
    requires WellFormedItems(items) && LaidItems(src, i, items)
    ensures WellFormed(items.v) && Laid(src, ItemAt(items, i), items.v)
    ensures SkipSpace(src, i) == ItemAt(items, i) <= ItemEnd(items, i) <= |src|
    ensures Stops(src, ItemEnd(items, i)) && SkipSpace(src, ItemEnd(items, i)) == NextItem(items, i) - 1
    ensures ByteAt(src, NextItem(items, i) - 1, if items.MoreItems? then ',' else ']')
  {
    ItemSkips(src, i, items.pre, items.v);
    ItemTail(src, ItemEnd(items, i), |items.post|, items.MoreItems?);
  }

  lemma ItemTail(src: string, end: nat, n: nat, more: bool)
    requires Blank(src, end, n) && ByteAt(src, end + n, if more then ',' else ']')
    ensures SkipSpace(src, end) == end + n && Stops(src, end)
  {
    AfterScan(src, end, n, if more then ',' else ']');
  }

  /** What stands behind it. */
  lemma ItemsRest(src: string, i: nat, items: Items)
    requires WellFormedItems(items) && LaidItems(src, i, items) && items.MoreItems?
    ensures WellFormedItems(items.rest) && LaidItems(src, NextItem(items, i), items.rest)
  {
  }

  lemma ItemSkips(src: string, i: nat, pre: string, v: Value)
    requires Blank(src, i, |pre|) && Laid(src, i + |pre|, v)
    ensures SkipSpace(src, i) == i + |pre| <= i + |pre| + Size(v) <= |src|
  {
    LaidStart(src, i + |pre|, v);
    LaidInside(src, i + |pre|, v);
    SkipTo(src, i, i + |pre|);
  }

  /** A value behind white space. */
  lemma {:induction false} ValueScanFrom(c: Rules, src: string, i: nat, at: nat, v: Value)
    requires i <= at <= |src| && SkipSpace(src, i) == at
    requires WellFormed(v) && Laid(src, at, v) && Stops(src, at + Size(v))
    ensures ScanValue(c, src, i) == WholeValue(c, v, at)
    decreases v, 5
  {
    ScanFrom(c, src, i, at);
    ValueScan(c, src, at, v);
  }

  lemma {:induction false} ItemValue(c: Rules, src: string, i: nat, items: Items)
    requires WellFormedItems(items) && LaidItems(src, i, items) && i <= |src|
    ensures ScanValue(c, src, i) == Scan(ItemEnd(items, i), ValueEdits(c, items.v, ItemAt(items, i)))
    decreases items, 0
  {
    ItemsParts(src, i, items);
    ValueScanFrom(c, src, i, ItemAt(items, i), items.v);
  }

  lemma {:induction false} ItemScan(c: Rules, src: string, i: nat, items: Items)
    requires WellFormedItems(items) && LaidItems(src, i, items)
    ensures ScanItem(c, src, i)
         == ItemStep(NextItem(items, i), items.LastItem?, ValueEdits(c, items.v, ItemAt(items, i)))
    decreases items, 1
  {
    ItemsParts(src, i, items);
    ItemValue(c, src, i, items);
    ItemEnds(c, src, i, Scan(ItemEnd(items, i), ValueEdits(c, items.v, ItemAt(items, i))), items.LastItem?);
  }

  lemma ItemEnds(c: Rules, src: string, i: nat, v: Scan, closed: bool)
    requires i <= |src| && ScanValue(c, src, i) == v && 0 <= v.end <= |src|
    requires ByteAt(src, SkipSpace(src, v.end), if closed then ']' else ',')
    ensures ScanItem(c, src, i) == ItemStep(SkipSpace(src, v.end) + 1, closed, v.edits)
  {
  }

  lemma {:induction false} ItemsScan(c: Rules, src: string, i: nat, items: Items)
    requires WellFormedItems(items) && LaidItems(src, i, items)
    ensures ScanItems(c, src, i) == Scan(i + ItemsSize(items), ItemsEdits(c, items, i))
    decreases items, 2
  {
    ItemScan(c, src, i, items);
    if items.MoreItems? {
      ItemsRest(src, i, items);
      ItemsScan(c, src, NextItem(items, i), items.rest);
    }
  }

  // ---- Objects ----

  function PayloadOf(c: Rules, m: Member, at: nat): seq<Payload>
    requires MemberParts(m) && WellFormed(m.v)
  {
    if m.v.Str? && IsCandidate(c.name(m.key), m.v.lit)
    then [Payload(c.name(m.key), at, at + |m.v.lit|)] else []
  }

  function PayloadsOf(c: Rules, members: Members, i: nat): seq<Payload>
    requires WellFormedMembers(members)
    decreases members
  {
    var here := PayloadOf(c, members.m, ValueAt(members.m, i));
    if members.MoreMembers? then here + PayloadsOf(c, members.rest, NextMember(members.m, i)) else here
  }

  lemma HeadSkips(src: string, i: nat, m: Member)
    requires LaidHead(src, i, m) && ValueAt(m, i) < |src| && !IsSpace(src[ValueAt(m, i)])
    ensures SkipSpace(src, i) == KeyAt(m, i) && ByteAt(src, KeyAt(m, i), '"')
    ensures CloseQuote(src, KeyAt(m, i) + 1, false) == KeyEnd(m, i)
    ensures SkipSpace(src, KeyEnd(m, i)) == ColonAt(m, i)
    ensures SkipSpace(src, ColonAt(m, i) + 1) == ValueAt(m, i)
    ensures src[KeyAt(m, i)..KeyEnd(m, i)] == m.key
  {
    StringScan(src, KeyAt(m, i), m.key);
    SkipTo(src, i, KeyAt(m, i));
    SkipTo(src, KeyEnd(m, i), ColonAt(m, i));
    SkipTo(src, ColonAt(m, i) + 1, ValueAt(m, i));
  }

  lemma HeadFound(src: string, i: nat, k: nat, keyEnd: nat, colon: nat, start: nat)
    requires i <= |src| && SkipSpace(src, i) == k && ByteAt(src, k, '"') && CloseQuote(src, k + 1, false) == keyEnd <= |src|
    requires SkipSpace(src, keyEnd) == colon && ByteAt(src, colon, ':') && SkipSpace(src, colon + 1) == start
    ensures ScanHead(src, i) == Head(k, keyEnd, start)
  {
  }

  lemma HeadScan(src: string, i: nat, m: Member)
    requires LaidHead(src, i, m) && ValueAt(m, i) < |src| && !IsSpace(src[ValueAt(m, i)])
    ensures ScanHead(src, i) == Head(KeyAt(m, i), KeyEnd(m, i), ValueAt(m, i))
    ensures src[KeyAt(m, i)..KeyEnd(m, i)] == m.key
  {
    HeadSkips(src, i, m);
    HeadFound(src, i, KeyAt(m, i), KeyEnd(m, i), ColonAt(m, i), ValueAt(m, i));
  }

  /** A laid-out member that ends with this byte. */
  ghost predicate LaidMember(src: string, i: nat, m: Member, b: char)
  {
    && MemberParts(m) && WellFormed(m.v)
    && LaidHead(src, i, m)
    && Laid(src, ValueAt(m, i), m.v)
    && Blank(src, ValueEnd(m, i), |m.post|)
    && ByteAt(src, NextMember(m, i) - 1, b)
  }

  lemma TextAt(src: string, at: nat, v: Value)
    requires Laid(src, at, v)
    ensures at < |src| && !IsSpace(src[at]) && at + Size(v) <= |src|
    ensures ByteAt(src, at, '"') <==> v.Str?
    ensures v.Str? ==> Size(v) == |v.lit| >= 2 && src[at..at + |v.lit|] == v.lit
  {
    LaidStart(src, at, v);
    LaidInside(src, at, v);
  }

  function Closing(closed: bool): char { if closed then '}' else ',' }

  /** What follows a value that has been read, when white space and a closing byte stand there. */
  lemma NoteStep(c: Rules, src: string, name: string, start: nat, v: Scan, md: Medium, ps: seq<Payload>, n: nat, closed: bool)
    requires start <= v.end <= |src| && PayloadsIn(ps, src)
    requires ByteAt(src, start, '"') ==> start + 2 <= v.end
    requires Blank(src, v.end, n) && ByteAt(src, v.end + n, Closing(closed))
    ensures AfterValue(c, src, name, start, v, md, ps)
         == if ByteAt(src, start, '"')
            then Step(v.end + n + 1, closed, c.note(md, name, src[start..v.end]), ps + Added(c, src, name, start, v.end), v.edits)
            else Step(v.end + n + 1, closed, md, ps, v.edits)
  {
    AfterScan(src, v.end, n, Closing(closed));
  }

  lemma NoteScan(c: Rules, src: string, i: nat, m: Member, closed: bool, md: Medium, ps: seq<Payload>, v: Scan)
    requires LaidMember(src, i, m, Closing(closed)) && PayloadsIn(ps, src)
    requires v.end == ValueEnd(m, i)
    ensures v.end <= |src| && (ByteAt(src, ValueAt(m, i), '"') ==> ValueAt(m, i) + 2 <= v.end)
    ensures AfterValue(c, src, c.name(m.key), ValueAt(m, i), v, md, ps)
         == Step(NextMember(m, i), closed, NotedMember(c, md, m), ps + PayloadOf(c, m, ValueAt(m, i)), v.edits)
  {
    var at := ValueAt(m, i);
    TextAt(src, at, m.v);
    NoteStep(c, src, c.name(m.key), at, v, md, ps, |m.post|, closed);
    if !m.v.Str? {
      assert ps + [] == ps;
    }
  }

  lemma MemberHeadScan(src: string, i: nat, m: Member, b: char)
    requires LaidMember(src, i, m, b)
    ensures i <= |src| && ScanHead(src, i).Head? && ScanHead(src, i).start == ValueAt(m, i) <= |src|
    ensures src[ScanHead(src, i).k..ScanHead(src, i).keyEnd] == m.key
  {
    TextAt(src, ValueAt(m, i), m.v);
    HeadScan(src, i, m);
  }

  lemma {:induction false} MemberValue(c: Rules, src: string, i: nat, m: Member, closed: bool)
    requires LaidMember(src, i, m, Closing(closed))
    ensures ScanValue(c, src, ValueAt(m, i)) == Scan(ValueEnd(m, i), ValueEdits(c, m.v, ValueAt(m, i)))
    decreases m.v, 5
  {
    AfterScan(src, ValueEnd(m, i), |m.post|, Closing(closed));
    ValueScan(c, src, ValueAt(m, i), m.v);
  }

  lemma {:induction false} MemberScan(c: Rules, src: string, i: nat, m: Member, closed: bool, md: Medium, ps: seq<Payload>)
    requires LaidMember(src, i, m, Closing(closed)) && PayloadsIn(ps, src)
    ensures ScanMember(c, src, i, md, ps)
         == Step(NextMember(m, i), closed, NotedMember(c, md, m), ps + PayloadOf(c, m, ValueAt(m, i)),
                 ValueEdits(c, m.v, ValueAt(m, i)))
    decreases m.v, 6
  {
    MemberHeadScan(src, i, m, Closing(closed));
    MemberValue(c, src, i, m, closed);
    NoteScan(c, src, i, m, closed, md, ps, Scan(ValueEnd(m, i), ValueEdits(c, m.v, ValueAt(m, i))));
    MemberStep(c, src, i, md, ps);
  }

  lemma MemberStep(c: Rules, src: string, i: nat, md: Medium, ps: seq<Payload>)
    requires i <= |src| && PayloadsIn(ps, src) && ScanHead(src, i).Head?
    ensures var h := ScanHead(src, i);
            var v := ScanValue(c, src, h.start);
            v.end >= 0 ==>
              && (h.start < |src| && src[h.start] == '"' ==> h.start + 2 <= v.end)
              && ScanMember(c, src, i, md, ps)
                 == AfterValue(c, src, c.name(src[h.k..h.keyEnd]), h.start, v, md, ps)
  {
    var h := ScanHead(src, i);
    if h.start < |src| && src[h.start] == '"' {
      SkipTo(src, h.start, h.start);
    }
  }

  lemma Assoc<T>(a: seq<T>, b: seq<T>, c: seq<T>)
    ensures a + (b + c) == (a + b) + c
  {
  }

  lemma {:induction false} MembersScan(c: Rules, src: string, i: nat, members: Members, md: Medium, ps: seq<Payload>)
    requires WellFormedMembers(members) && LaidMembers(src, i, members) && PayloadsIn(ps, src)
    ensures PayloadsIn(ps + PayloadsOf(c, members, i), src)
    ensures ScanMembers(c, src, i, md, ps)
         == Scan(i + MembersSize(members),
                 MembersEdits(c, members, i)
                 + PayloadEdits(c, src, ps + PayloadsOf(c, members, i), MediumOf(c, md, members)))
    decreases members, 0, 1
  {
    if members.MoreMembers? {
      MembersMore(c, src, i, members, md, ps);
    } else {
      MemberScan(c, src, i, members.m, true, md, ps);
    }
  }

  lemma {:induction false} MembersMore(c: Rules, src: string, i: nat, members: Members, md: Medium, ps: seq<Payload>)
    requires WellFormedMembers(members) && LaidMembers(src, i, members) && PayloadsIn(ps, src)
    requires members.MoreMembers?
    ensures PayloadsIn(ps + PayloadsOf(c, members, i), src)
    ensures ScanMembers(c, src, i, md, ps)
         == Scan(i + MembersSize(members),
                 MembersEdits(c, members, i)
                 + PayloadEdits(c, src, ps + PayloadsOf(c, members, i), MediumOf(c, md, members)))
    decreases members, 0, 0
  {
    var m := members.m;
    var own := PayloadOf(c, m, ValueAt(m, i));
    MemberScan(c, src, i, m, false, md, ps);
    var next := NextMember(m, i);
    MembersScan(c, src, next, members.rest, NotedMember(c, md, m), ps + own);
    var later := PayloadsOf(c, members.rest, next);
    Assoc(ps, own, later);
    Assoc(ValueEdits(c, m.v, ValueAt(m, i)), MembersEdits(c, members.rest, next),
          PayloadEdits(c, src, ps + PayloadsOf(c, members, i), MediumOf(c, md, members)));
  }

  lemma {:induction false} PayloadEditsJoin(c: Rules, src: string, a: seq<Payload>, b: seq<Payload>, md: Medium)
    requires PayloadsIn(a, src) && PayloadsIn(b, src) && PayloadsIn(a + b, src)
    ensures PayloadEdits(c, src, a + b, md) == PayloadEdits(c, src, a, md) + PayloadEdits(c, src, b, md)
  {
    if a == [] {
      assert a + b == b;
    } else {
      assert (a + b)[1..] == a[1..] + b;
      PayloadEditsJoin(c, src, a[1..], b, md);
    }
  }

  lemma OwnPayload(c: Rules, src: string, m: Member, at: nat, md: Medium)
    requires MemberParts(m) && WellFormed(m.v) && Laid(src, at, m.v)
    ensures PayloadsIn(PayloadOf(c, m, at), src)
    ensures PayloadEdits(c, src, PayloadOf(c, m, at), md) == OwnEdit(c, m, at, md)
  {
    TextAt(src, at, m.v);
    var own := PayloadOf(c, m, at);
    if own != [] {
      assert own[1..] == [];
    }
  }

  /** The payload list collected on the way names exactly the tree's own payloads. */
  lemma {:induction false} OwnPayloads(c: Rules, src: string, i: nat, members: Members, md: Medium)
    requires WellFormedMembers(members) && LaidMembers(src, i, members)
    ensures PayloadsIn(PayloadsOf(c, members, i), src)
    ensures PayloadEdits(c, src, PayloadsOf(c, members, i), md) == OwnEdits(c, members, i, md)
    decreases members
  {
    var m := members.m;
    var own := PayloadOf(c, m, ValueAt(m, i));
    OwnPayload(c, src, m, ValueAt(m, i), md);
    if members.MoreMembers? {
      OwnPayloads(c, src, NextMember(m, i), members.rest, md);
      PayloadEditsJoin(c, src, own, PayloadsOf(c, members.rest, NextMember(m, i)), md);
    } else {
      assert PayloadsOf(c, members, i) == own;
    }
  }

  /** What the scanner is to make of an object's members from its first one on. */
  function WholeObject(c: Rules, members: Members, i: nat): Scan
    requires WellFormedMembers(members)
  {
    Scan(i + MembersSize(members),
         MembersEdits(c, members, i) + OwnEdits(c, members, i, MediumOf(c, NO_MEDIUM, members)))
  }

  /** An object that starts right before j. */
  lemma {:induction false} ObjectScan(c: Rules, src: string, j: nat, members: Members, r: Scan, whole: Scan)
    requires j > 0 && WellFormedMembers(members) && ByteAt(src, j - 1, '{') && LaidMembers(src, j, members)
    requires r == ScanValue(c, src, j - 1) && whole == WholeObject(c, members, j)
    ensures r == whole
    decreases members, 1
  {
    ObjectOpens(c, src, j, members, r);
    AllMembersScan(c, src, j, members, r, whole);
  }

  lemma ObjectOpens(c: Rules, src: string, j: nat, members: Members, r: Scan)
    requires j > 0 && ByteAt(src, j - 1, '{') && LaidMembers(src, j, members)
    requires r == ScanValue(c, src, j - 1)
    ensures r == ScanMembers(c, src, j, NO_MEDIUM, [])
  {
    FirstLaid(src, j, members);
    BraceOpens(c, src, j, members.m, r);
  }

  lemma BraceOpens(c: Rules, src: string, j: nat, m: Member, r: Scan)
    requires j > 0 && ByteAt(src, j - 1, '{') && LaidHead(src, j, m) && r == ScanValue(c, src, j - 1)
    requires ValueAt(m, j) < |src| && !IsSpace(src[ValueAt(m, j)])
    ensures r == ScanMembers(c, src, j, NO_MEDIUM, [])
  {
    BracketScan(c, src, j - 1);
    MembersFrom(c, src, j, m, r);
  }

  lemma FirstLaid(src: string, i: nat, members: Members)
    requires LaidMembers(src, i, members)
    ensures var m := members.m;
            LaidHead(src, i, m) && ValueAt(m, i) < |src| && !IsSpace(src[ValueAt(m, i)])
  {
    LaidStart(src, ValueAt(members.m, i), members.m.v);
  }

  lemma {:induction false} MembersScanWith(c: Rules, src: string, i: nat, members: Members, md: Medium, ps: seq<Payload>, all: seq<Payload>)
    requires WellFormedMembers(members) && LaidMembers(src, i, members) && PayloadsIn(ps, src)
    requires all == ps + PayloadsOf(c, members, i)
    ensures PayloadsIn(all, src)
    ensures ScanMembers(c, src, i, md, ps)
         == Scan(i + MembersSize(members), MembersEdits(c, members, i) + PayloadEdits(c, src, all, MediumOf(c, md, members)))
    decreases members, 0, 2
  {
    MembersScan(c, src, i, members, md, ps);
  }

  lemma {:induction false} FromTheFirst(c: Rules, src: string, i: nat, members: Members)
    requires WellFormedMembers(members) && LaidMembers(src, i, members)
    ensures PayloadsIn(PayloadsOf(c, members, i), src)
    ensures ScanMembers(c, src, i, NO_MEDIUM, [])
         == Scan(i + MembersSize(members),
                 MembersEdits(c, members, i) + PayloadEdits(c, src, PayloadsOf(c, members, i), MediumOf(c, NO_MEDIUM, members)))
    decreases members, 0, 3
  {
    MembersScanWith(c, src, i, members, NO_MEDIUM, [], PayloadsOf(c, members, i));
  }

  lemma {:induction false} AllMembersScan(c: Rules, src: string, i: nat, members: Members, r: Scan, whole: Scan)
    requires WellFormedMembers(members) && LaidMembers(src, i, members)
    requires r == ScanMembers(c, src, i, NO_MEDIUM, []) && whole == WholeObject(c, members, i)
    ensures r == whole
    decreases members, 0, 4
  {
    FromTheFirst(c, src, i, members);
    OwnPayloads(c, src, i, members, MediumOf(c, NO_MEDIUM, members));
  }

  lemma MembersFrom(c: Rules, src: string, j: nat, m: Member, r: Scan)
    requires j > 0 && ByteAt(src, j - 1, '{') && LaidHead(src, j, m)
    requires ValueAt(m, j) < |src| && !IsSpace(src[ValueAt(m, j)])
    requires r == ScanObject(c, src, j - 1)
    ensures r == ScanMembers(c, src, j, NO_MEDIUM, [])
  {
    HeadSkips(src, j, m);
    MembersOpen(c, src, j - 1, KeyAt(m, j));
    MembersLater(c, src, j);
  }

  lemma MembersOpen(c: Rules, src: string, i: nat, j: nat)
    requires i < |src| && SkipSpace(src, i + 1) == j && ByteAt(src, j, '"')
    ensures ScanObject(c, src, i) == ScanMembers(c, src, j, NO_MEDIUM, [])
  {
  }

  lemma HeadLater(src: string, i: nat)
    requires i <= |src|
    ensures ScanHead(src, i) == ScanHead(src, SkipSpace(src, i))
  {
    SkipTwice(src, i);
  }

  lemma MemberLater(c: Rules, src: string, i: nat, at: nat)
    requires i <= |src| && at <= |src| && ScanHead(src, i) == ScanHead(src, at)
    ensures ScanMember(c, src, i, NO_MEDIUM, []) == ScanMember(c, src, at, NO_MEDIUM, [])
  {
  }

  lemma MembersLater(c: Rules, src: string, i: nat)
    requires i <= |src|
    ensures ScanMembers(c, src, i, NO_MEDIUM, []) == ScanMembers(c, src, SkipSpace(src, i), NO_MEDIUM, [])
  {
    HeadLater(src, i);
    MemberLater(c, src, i, SkipSpace(src, i));
  }
}
