/** Splicing the scanner's edits into the line gives the text of the transformed tree. */
module BlobSplice {
  import opened Text
  import opened Json
  import opened JsonLayout
  import opened BlobRules
  import opened BlobScan
  import opened BlobTree

  // ---- In text order, the edits print the new tree ----

  lemma SliceAt(src: string, i: nat, s: string)
    requires At(src, i, s)
    ensures src[i..i + |s|] == s
  {
  }

  /** One stretch that edits leave alone, or turn into a given text. */
  ghost predicate Becomes(src: string, edits: seq<Edit>, from: nat, to: nat, text: string)
  {
    to <= |src| && Ordered(edits, from, to) && Splice(src, edits, from, to) == text
  }

  lemma Keep(src: string, i: nat, s: string)
    requires At(src, i, s)
    ensures Becomes(src, [], i, i + |s|, s)
  {
    SliceAt(src, i, s);
  }

  lemma Join(src: string, a: seq<Edit>, b: seq<Edit>, from: nat, mid: nat, to: nat, s: string, t: string)
    requires Becomes(src, a, from, mid, s) && Becomes(src, b, mid, to, t)
    ensures Becomes(src, a + b, from, to, s + t)
  {
    SpliceJoin(src, a, b, from, mid, to);
  }

  /** An untouched head, a changed middle, an untouched tail of two parts. */
  lemma Around(src: string, i: nat, head: string, edits: seq<Edit>, end: nat, text: string, post: string, close: string)
    requires At(src, i, head) && Becomes(src, edits, i + |head|, end, text)
    requires At(src, end, post) && At(src, end + |post|, close)
    ensures Becomes(src, edits, i, end + |post| + |close|, head + text + post + close)
  {
    Keep(src, i, head);
    Keep(src, end, post);
    Keep(src, end + |post|, close);
    Join(src, [], edits, i, i + |head|, end, head, text);
    Join(src, [] + edits, [], i, end, end + |post|, head + text, post);
    Join(src, [] + edits + [], [], i, end + |post|, end + |post| + |close|, head + text + post, close);
    assert [] + edits + [] + [] == edits;
  }

  /** An untouched head. */
  lemma Behind(src: string, i: nat, head: string, edits: seq<Edit>, end: nat, text: string)
    requires At(src, i, head) && Becomes(src, edits, i + |head|, end, text)
    ensures Becomes(src, edits, i, end, head + text)
  {
    Keep(src, i, head);
    Join(src, [], edits, i, i + |head|, end, head, text);
    assert [] + edits == edits;
  }

  lemma LeafBecomes(src: string, i: nat, lit: string, repl: string)
    requires At(src, i, lit) && |lit| > 0
    ensures Becomes(src, LeafEdit(lit, repl, i), i, i + |lit|, repl)
  {
    SliceAt(src, i, lit);
    if repl != lit {
      var e := Edit(i, i + |lit|, repl);
      assert [e][1..] == [];
      assert Ordered([e], i, i + |lit|);
      assert src[i..i] == "" && src[i + |lit|..i + |lit|] == "";
      calc {
        Splice(src, [e], i, i + |lit|);
        src[i..i] + (repl + Splice(src, [], i + |lit|, i + |lit|));
        repl;
      }
    }
  }

  lemma {:induction false} ValueBecomes(c: Rules, src: string, i: nat, v: Value)
    requires WellFormed(v) && At(src, i, Print(v))
    ensures Becomes(src, TextEdits(c, v, i), i, i + Size(v), Print(StripTree(c, v)))
    decreases v, 0
  {
    SizeIsLength(v);
    match v {
      case Str(lit) => LeafBecomes(src, i, lit, PlainLiteral(c, lit));
      case Arr(items) =>
        Opened(src, i, '[', PrintItems(items));
        ArrayBecomes(c, src, i, items);
      case Obj(members) =>
        Opened(src, i, '{', PrintMembers(members));
        ObjectBecomes(c, src, i, members);
      case _ =>
        Keep(src, i, Print(v));
    }
  }

  /** Behind one byte. */
  lemma BehindByte(src: string, i: nat, open: char, edits: seq<Edit>, end: nat, text: string)
    requires ByteAt(src, i, open) && Becomes(src, edits, i + 1, end, text)
    ensures Becomes(src, edits, i, end, [open] + text)
  {
    Behind(src, i, [open], edits, end, text);
  }

  lemma {:induction false} ArrayBecomes(c: Rules, src: string, i: nat, items: Items)
    requires WellFormedItems(items) && ByteAt(src, i, '[') && At(src, i + 1, PrintItems(items))
    ensures Becomes(src, TextItems(c, items, i + 1), i, i + 1 + ItemsSize(items),
                    "[" + PrintItems(StripItems(c, items)))
    decreases items, 2
  {
    ItemsBecome(c, src, i + 1, items);
    BehindByte(src, i, '[', TextItems(c, items, i + 1), i + 1 + ItemsSize(items), PrintItems(StripItems(c, items)));
  }

  lemma {:induction false} ObjectBecomes(c: Rules, src: string, i: nat, members: Members)
    requires WellFormedMembers(members) && ByteAt(src, i, '{') && At(src, i + 1, PrintMembers(members))
    ensures var md := MediumOf(c, NO_MEDIUM, members);
            Becomes(src, TextMembers(c, members, i + 1, md), i, i + 1 + MembersSize(members),
                    "{" + PrintMembers(StripMembers(c, members, md)))
    decreases members, 3
  {
    var md := MediumOf(c, NO_MEDIUM, members);
    MembersBecome(c, src, i + 1, members, md);
    BehindByte(src, i, '{', TextMembers(c, members, i + 1, md), i + 1 + MembersSize(members),
               PrintMembers(StripMembers(c, members, md)));
  }

  function ItemClose(items: Items): string { if items.MoreItems? then "," else "]" }

  /** One item with the byte behind it. */
  lemma ItemBecomes(src: string, i: nat, items: Items, here: seq<Edit>, text: string)
    requires At(src, i, items.pre) && Becomes(src, here, ItemAt(items, i), ItemEnd(items, i), text)
    requires At(src, ItemEnd(items, i), items.post) && At(src, NextItem(items, i) - 1, ItemClose(items))
    ensures Becomes(src, here, i, NextItem(items, i), items.pre + text + items.post + ItemClose(items))
  {
    Around(src, i, items.pre, here, ItemEnd(items, i), text, items.post, ItemClose(items));
  }

  lemma {:induction false} FirstItemBecomes(c: Rules, src: string, i: nat, items: Items)
    requires WellFormedItems(items) && At(src, i, PrintItems(items))
    ensures Becomes(src, TextEdits(c, items.v, ItemAt(items, i)), i, NextItem(items, i),
                    items.pre + Print(StripTree(c, items.v)) + items.post + ItemClose(items))
    ensures items.MoreItems? ==> At(src, NextItem(items, i), PrintItems(items.rest))
    decreases items, 0
  {
    PrintedItemParts(src, i, Print(items.v), items);
    ValueBecomes(c, src, ItemAt(items, i), items.v);
    ItemBecomes(src, i, items, TextEdits(c, items.v, ItemAt(items, i)), Print(StripTree(c, items.v)));
  }

  lemma {:induction false} ItemsBecome(c: Rules, src: string, i: nat, items: Items)
    requires WellFormedItems(items) && At(src, i, PrintItems(items))
    ensures Becomes(src, TextItems(c, items, i), i, i + ItemsSize(items), PrintItems(StripItems(c, items)))
    decreases items, 1
  {
    FirstItemBecomes(c, src, i, items);
    if items.MoreItems? {
      var next := NextItem(items, i);
      ItemsBecome(c, src, next, items.rest);
      Join(src, TextEdits(c, items.v, ItemAt(items, i)), TextItems(c, items.rest, next), i, next, i + ItemsSize(items),
           items.pre + Print(StripTree(c, items.v)) + items.post + ",", PrintItems(StripItems(c, items.rest)));
    }
  }

  lemma {:induction false} MemberBecomes(c: Rules, src: string, at: nat, m: Member, md: Medium)
    requires MemberParts(m) && WellFormed(m.v) && At(src, at, Print(m.v))
    ensures Becomes(src, TextMember(c, m, at, md), at, at + Size(m.v), Print(StripValue(c, m, md)))
    decreases m.v, 1
  {
    if m.v.Str? {
      LeafBecomes(src, at, m.v.lit, MemberLiteral(c, m.v.lit, c.name(m.key), md));
    } else {
      ValueBecomes(c, src, at, m.v);
    }
  }

  /** One member with the byte behind it. */
  lemma MemberWhole(src: string, i: nat, members: Members, head: string, here: seq<Edit>, text: string)
    requires At(src, i, head) && i + |head| == ValueAt(members.m, i)
    requires Becomes(src, here, ValueAt(members.m, i), ValueEnd(members.m, i), text)
    requires At(src, ValueEnd(members.m, i), members.m.post) && At(src, NextMember(members.m, i) - 1, CloseOf(members))
    ensures Becomes(src, here, i, NextMember(members.m, i), head + text + members.m.post + CloseOf(members))
  {
    Around(src, i, head, here, ValueEnd(members.m, i), text, members.m.post, CloseOf(members));
  }

  lemma {:induction false} HeadBecomes(c: Rules, src: string, i: nat, members: Members, md: Medium)
    requires WellFormedMembers(members) && At(src, i, PrintMembers(members))
    ensures Becomes(src, TextMember(c, members.m, ValueAt(members.m, i), md), i, NextMember(members.m, i),
                    MemberHead(members.m) + Print(StripValue(c, members.m, md)) + members.m.post + CloseOf(members))
    ensures At(src, NextMember(members.m, i), RestOf(members))
    decreases members, 1
  {
    var m := members.m;
    PrintedMemberParts(src, i, members, MemberHead(m), Print(m.v), RestOf(members));
    MemberBecomes(c, src, ValueAt(m, i), m, md);
    HeadSize(m, i);
    MemberWhole(src, i, members, MemberHead(m), TextMember(c, m, ValueAt(m, i), md), Print(StripValue(c, m, md)));
  }

  lemma {:induction false} MembersBecome(c: Rules, src: string, i: nat, members: Members, md: Medium)
    requires WellFormedMembers(members) && At(src, i, PrintMembers(members))
    ensures Becomes(src, TextMembers(c, members, i, md), i, i + MembersSize(members),
                    PrintMembers(StripMembers(c, members, md)))
    decreases members, 2
  {
    var m := members.m;
    HeadBecomes(c, src, i, members, md);
    if members.MoreMembers? {
      MembersBecome(c, src, NextMember(m, i), members.rest, md);
      Join(src, TextMember(c, m, ValueAt(m, i), md), TextMembers(c, members.rest, NextMember(m, i), md),
           i, NextMember(m, i), i + MembersSize(members),
           MemberHead(m) + Print(StripValue(c, m, md)) + m.post + ",", PrintMembers(StripMembers(c, members.rest, md)));
    }
  }

  // ---- Scanner order and text order hold the same edits ----

  ghost predicate SameEdits(a: seq<Edit>, b: seq<Edit>)
  {
    multiset(a) == multiset(b) && Saved(a) == Saved(b)
  }

  lemma SameJoin(a: seq<Edit>, b: seq<Edit>, a': seq<Edit>, b': seq<Edit>)
    requires SameEdits(a, a') && SameEdits(b, b')
    ensures SameEdits(a + b, a' + b')
  {
    SavedConcat(a, b);
    SavedConcat(a', b');
  }

  /** (a1 + a2) + (b1 + b2) regrouped. */
  lemma SameCross(a1: seq<Edit>, a2: seq<Edit>, b1: seq<Edit>, b2: seq<Edit>, x: seq<Edit>, y: seq<Edit>)
    requires SameEdits(a1 + b1, x) && SameEdits(a2 + b2, y)
    ensures SameEdits((a1 + a2) + (b1 + b2), x + y)
  {
    SavedConcat(a1, b1);
    SavedConcat(a2, b2);
    SavedConcat(a1, a2);
    SavedConcat(b1, b2);
    SavedConcat(a1 + a2, b1 + b2);
    SavedConcat(x, y);
  }

  lemma {:induction false} SameValue(c: Rules, v: Value, i: nat)
    requires Sound(c) && WellFormed(v)
    ensures SameEdits(ValueEdits(c, v, i), TextEdits(c, v, i))
    decreases v, 0
  {
    match v
    case Str(lit) =>
    case Arr(items) => SameItems(c, items, i + 1);
    case Obj(members) => SameMembers(c, members, i + 1, MediumOf(c, NO_MEDIUM, members));
    case _ =>
  }

  lemma {:induction false} SameItems(c: Rules, items: Items, i: nat)
    requires Sound(c) && WellFormedItems(items)
    ensures SameEdits(ItemsEdits(c, items, i), TextItems(c, items, i))
    decreases items
  {
    SameValue(c, items.v, ItemAt(items, i));
    if items.MoreItems? {
      SameItems(c, items.rest, NextItem(items, i));
      SameJoin(ValueEdits(c, items.v, ItemAt(items, i)), ItemsEdits(c, items.rest, NextItem(items, i)),
               TextEdits(c, items.v, ItemAt(items, i)), TextItems(c, items.rest, NextItem(items, i)));
    }
  }

  lemma SameText(c: Rules, lit: string, name: string, at: nat, md: Medium)
    requires Sound(c) && IsString(lit)
    ensures SameEdits(DataEdit(c, lit, at) + PayloadOnly(c, lit, name, at, md),
                      LeafEdit(lit, MemberLiteral(c, lit, name, md), at))
  {
    var data, own := DataEdit(c, lit, at), PayloadOnly(c, lit, name, at, md);
    if c.text(lit).Some? {
      assert own == [] && data + own == data;
    } else {
      assert data == [] && data + own == own;
    }
  }

  lemma {:induction false} SameMember(c: Rules, m: Member, at: nat, md: Medium)
    requires Sound(c) && MemberParts(m) && WellFormed(m.v)
    ensures SameEdits(ValueEdits(c, m.v, at) + OwnEdit(c, m, at, md), TextMember(c, m, at, md))
    decreases m.v, 1
  {
    if m.v.Str? {
      SameText(c, m.v.lit, c.name(m.key), at, md);
    } else {
      SameValue(c, m.v, at);
      assert ValueEdits(c, m.v, at) + [] == ValueEdits(c, m.v, at);
    }
  }

  lemma {:induction false} SameMembers(c: Rules, members: Members, i: nat, md: Medium)
    requires Sound(c) && WellFormedMembers(members)
    ensures SameEdits(MembersEdits(c, members, i) + OwnEdits(c, members, i, md), TextMembers(c, members, i, md))
    decreases members
  {
    var m := members.m;
    SameMember(c, m, ValueAt(m, i), md);
    if members.MoreMembers? {
      var next := NextMember(m, i);
      SameMembers(c, members.rest, next, md);
      SameCross(ValueEdits(c, m.v, ValueAt(m, i)), MembersEdits(c, members.rest, next),
                OwnEdit(c, m, ValueAt(m, i), md), OwnEdits(c, members.rest, next, md),
                TextMember(c, m, ValueAt(m, i), md), TextMembers(c, members.rest, next, md));
    }
  }

  // ---- Sorting ----

  predicate Sorted(es: seq<Edit>)
  {
    |es| <= 1 || (es[0].start <= es[1].start && Sorted(es[1..]))
  }

  function Insert(e: Edit, es: seq<Edit>): seq<Edit>
  {
    if es == [] || e.start <= es[0].start then [e] + es else [es[0]] + Insert(e, es[1..])
  }

  /** sort.Slice by start. */
  function SortByStart(es: seq<Edit>): seq<Edit>
  {
    if es == [] then [] else Insert(es[0], SortByStart(es[1..]))
  }

  lemma {:induction false} InsertHolds(e: Edit, es: seq<Edit>)
    ensures multiset(Insert(e, es)) == multiset{e} + multiset(es)
  {
    if es != [] && es[0].start < e.start {
      InsertHolds(e, es[1..]);
      assert es == [es[0]] + es[1..];
    }
  }

  lemma SortedCons(e: Edit, es: seq<Edit>)
    requires Sorted(es) && (es != [] ==> e.start <= es[0].start)
    ensures Sorted([e] + es)
  {
    assert ([e] + es)[1..] == es;
  }

  lemma {:induction false} InsertSorts(e: Edit, es: seq<Edit>)
    requires Sorted(es)
    ensures Sorted(Insert(e, es))
    ensures Insert(e, es)[0] == e || (es != [] && Insert(e, es)[0] == es[0])
  {
    if es != [] && es[0].start < e.start {
      InsertSorts(e, es[1..]);
      SortedCons(es[0], Insert(e, es[1..]));
    } else {
      SortedCons(e, es);
    }
  }

  lemma {:induction false} SortSorts(es: seq<Edit>)
    ensures Sorted(SortByStart(es)) && multiset(SortByStart(es)) == multiset(es)
  {
    if es != [] {
      SortSorts(es[1..]);
      InsertSorts(es[0], SortByStart(es[1..]));
      InsertHolds(es[0], SortByStart(es[1..]));
      assert es == [es[0]] + es[1..];
    }
  }

  lemma {:induction false} SortedHead(es: seq<Edit>, x: Edit)
    requires Sorted(es) && x in multiset(es)
    ensures es[0].start <= x.start
  {
    if x != es[0] {
      assert es == [es[0]] + es[1..];
      SortedHead(es[1..], x);
    }
  }

  lemma {:induction false} OrderedSorted(es: seq<Edit>, from: int, to: int)
    requires Ordered(es, from, to)
    ensures Sorted(es)
  {
    if |es| > 1 {
      OrderedSorted(es[1..], es[0].end, to);
    }
  }

  lemma OrderedHead(es: seq<Edit>, from: int, to: int, x: Edit)
    requires Ordered(es, from, to) && x in multiset(es) && x != es[0]
    ensures es[0].start < x.start
  {
    assert es == [es[0]] + es[1..];
    OrderedSorted(es[1..], es[0].end, to);
    SortedHead(es[1..], x);
  }

  /** The start that comes first is the same in both. */
  lemma SameHead(a: seq<Edit>, b: seq<Edit>, from: int, to: int)
    requires Sorted(a) && Ordered(b, from, to) && multiset(a) == multiset(b) && a != [] && b != []
    ensures a[0] == b[0]
  {
    assert a[0] in multiset(a) && b[0] in multiset(b);
    SortedHead(a, b[0]);
    if a[0] != b[0] {
      OrderedHead(b, from, to, a[0]);
    }
  }

  lemma TailsEqual(a: seq<Edit>, b: seq<Edit>)
    requires a != [] && b != [] && multiset(a) == multiset(b) && a[0] == b[0]
    ensures multiset(a[1..]) == multiset(b[1..])
  {
    WithoutFirst(a);
    WithoutFirst(b);
  }

  lemma WithoutFirst(a: seq<Edit>)
    requires a != []
    ensures multiset(a[1..]) == multiset(a) - multiset{a[0]}
  {
    assert a == [a[0]] + a[1..];
  }

  lemma SameSize(a: seq<Edit>, b: seq<Edit>)
    requires multiset(a) == multiset(b)
    ensures |a| == |b|
  {
    assert |a| == |multiset(a)| && |b| == |multiset(b)|;
  }

  lemma {:induction false} SortedUnique(a: seq<Edit>, b: seq<Edit>, from: int, to: int)
    requires Sorted(a) && Ordered(b, from, to) && multiset(a) == multiset(b)
    ensures a == b
  {
    SameSize(a, b);
    if a != [] {
      SameHead(a, b, from, to);
      TailsEqual(a, b);
      SortedUnique(a[1..], b[1..], b[0].end, to);
      assert a == [a[0]] + a[1..] && b == [b[0]] + b[1..];
    }
  }

  /** Sorting the scanner's edits puts them in text order, whatever order they came in: edits
      that do not overlap have one order by start. */
  lemma SortIsTextOrder(found: seq<Edit>, inText: seq<Edit>, from: int, to: int)
    requires multiset(found) == multiset(inText) && Ordered(inText, from, to)
    ensures SortByStart(found) == inText
  {
    SortSorts(found);
    SortedUnique(SortByStart(found), inText, from, to);
  }
}
