/** blobstrip as a transformation of JSON trees, and the proof that the scanner's byte edits
    carry it out: same structure, same bytes, except at the replaced string leaves. */
module BlobTree {
  import opened Text
  import opened Json
  import opened BlobRules
  import opened BlobScan
  import opened JsonLayout

  // ---- The transformation ----

  function StripTree(c: Rules, v: Value): Value
    requires WellFormed(v)
    decreases v, 0
  {
    match v
    case Str(lit) => Str(PlainLiteral(c, lit))
    case Arr(items) => Arr(StripItems(c, items))
    case Obj(members) => Obj(StripMembers(c, members, MediumOf(c, NO_MEDIUM, members)))
    case _ => v
  }

  function StripItems(c: Rules, items: Items): Items
    requires WellFormedItems(items)
    decreases items, 0
  {
    match items
    case LastItem(pre, v, post) => LastItem(pre, StripTree(c, v), post)
    case MoreItems(pre, v, post, rest) => MoreItems(pre, StripTree(c, v), post, StripItems(c, rest))
  }

  function StripMembers(c: Rules, members: Members, md: Medium): Members
    requires WellFormedMembers(members)
    decreases members, 0
  {
    match members
    case LastMember(m) => LastMember(m.(v := StripValue(c, m, md)))
    case MoreMembers(m, rest) => MoreMembers(m.(v := StripValue(c, m, md)), StripMembers(c, rest, md))
  }

  /** The new value of a member of an object with this medium. */
  function StripValue(c: Rules, m: Member, md: Medium): Value
    requires MemberParts(m) && WellFormed(m.v)
    decreases m.v, 1
  {
    if m.v.Str? then Str(MemberLiteral(c, m.v.lit, c.name(m.key), md)) else StripTree(c, m.v)
  }

  /** What an object's string members say about its payloads, read in order. */
  function MediumOf(c: Rules, md: Medium, members: Members): Medium
    requires WellFormedMembers(members)
    decreases members, 0
  {
    var md' := NotedMember(c, md, members.m);
    if members.MoreMembers? then MediumOf(c, md', members.rest) else md'
  }

  function NotedMember(c: Rules, md: Medium, m: Member): Medium
    requires MemberParts(m) && WellFormed(m.v)
  {
    if m.v.Str? then c.note(md, c.name(m.key), m.v.lit) else md
  }

  function StripDoc(c: Rules, d: Doc): Doc
    requires WellFormedDoc(d)
  {
    d.(v := StripTree(c, d.v))
  }

  // ---- The same edits twice: in scanner order and in text order ----

  /** The edits the scanner makes for a value that starts at i, in its order: an object's own
      payloads come after all its members. */
  function ValueEdits(c: Rules, v: Value, i: nat): seq<Edit>
    requires WellFormed(v)
    decreases v, 0
  {
    match v
    case Str(lit) => DataEdit(c, lit, i)
    case Arr(items) => ItemsEdits(c, items, i + 1)
    case Obj(members) =>
      MembersEdits(c, members, i + 1) + OwnEdits(c, members, i + 1, MediumOf(c, NO_MEDIUM, members))
    case _ => []
  }

  function ItemsEdits(c: Rules, items: Items, i: nat): seq<Edit>
    requires WellFormedItems(items)
    decreases items, 0
  {
    var here := ValueEdits(c, items.v, ItemAt(items, i));
    if items.MoreItems? then here + ItemsEdits(c, items.rest, NextItem(items, i)) else here
  }

  function MembersEdits(c: Rules, members: Members, i: nat): seq<Edit>
    requires WellFormedMembers(members)
    decreases members, 0
  {
    var here := ValueEdits(c, members.m.v, ValueAt(members.m, i));
    if members.MoreMembers? then here + MembersEdits(c, members.rest, NextMember(members.m, i)) else here
  }

  /** The payload edits an object makes at its closing brace. */
  function OwnEdits(c: Rules, members: Members, i: nat, md: Medium): seq<Edit>
    requires WellFormedMembers(members)
    decreases members, 0
  {
    var here := OwnEdit(c, members.m, ValueAt(members.m, i), md);
    if members.MoreMembers? then here + OwnEdits(c, members.rest, NextMember(members.m, i), md) else here
  }

  function OwnEdit(c: Rules, m: Member, at: nat, md: Medium): seq<Edit>
    requires MemberParts(m) && WellFormed(m.v)
  {
    if m.v.Str? then PayloadOnly(c, m.v.lit, c.name(m.key), at, md) else []
  }

  function PayloadOnly(c: Rules, lit: string, name: string, at: nat, md: Medium): seq<Edit>
  {
    if IsCandidate(name, lit) then
      match c.payload(lit, name, md) case Some(repl) => [Edit(at, at + |lit|, repl)] case None => []
    else []
  }

  /** The same edits in the order of the text. */
  function TextEdits(c: Rules, v: Value, i: nat): seq<Edit>
    requires WellFormed(v)
    decreases v, 0
  {
    match v
    case Str(lit) => LeafEdit(lit, PlainLiteral(c, lit), i)
    case Arr(items) => TextItems(c, items, i + 1)
    case Obj(members) => TextMembers(c, members, i + 1, MediumOf(c, NO_MEDIUM, members))
    case _ => []
  }

  function LeafEdit(lit: string, repl: string, at: nat): seq<Edit>
  {
    if repl == lit then [] else [Edit(at, at + |lit|, repl)]
  }

  function TextItems(c: Rules, items: Items, i: nat): seq<Edit>
    requires WellFormedItems(items)
    decreases items, 0
  {
    var here := TextEdits(c, items.v, ItemAt(items, i));
    if items.MoreItems? then here + TextItems(c, items.rest, NextItem(items, i)) else here
  }

  function TextMembers(c: Rules, members: Members, i: nat, md: Medium): seq<Edit>
    requires WellFormedMembers(members)
    decreases members, 0
  {
    var here := TextMember(c, members.m, ValueAt(members.m, i), md);
    if members.MoreMembers? then here + TextMembers(c, members.rest, NextMember(members.m, i), md) else here
  }

  function TextMember(c: Rules, m: Member, at: nat, md: Medium): seq<Edit>
    requires MemberParts(m) && WellFormed(m.v)
    decreases m.v, 1
  {
    if m.v.Str? then LeafEdit(m.v.lit, MemberLiteral(c, m.v.lit, c.name(m.key), md), at)
    else TextEdits(c, m.v, at)
  }

  // ---- Splicing ----

  /** Edits that lie in [from, to), one after the other. */
  predicate Ordered(edits: seq<Edit>, from: int, to: int)
  {
    if edits == [] then from <= to
    else from <= edits[0].start < edits[0].end && Ordered(edits[1..], edits[0].end, to)
  }

  /** src[from..to] with the edits written in. */
  function Splice(src: string, edits: seq<Edit>, from: nat, to: nat): string
    requires to <= |src| && Ordered(edits, from, to)
  {
    if edits == [] then src[from..to]
    else
      OrderedEnds(edits[1..], edits[0].end, to);
      src[from..edits[0].start] + (edits[0].repl + Splice(src, edits[1..], edits[0].end, to))
  }

  lemma {:induction false} OrderedEnds(edits: seq<Edit>, from: int, to: int)
    requires Ordered(edits, from, to)
    ensures from <= to
    ensures forall k :: 0 <= k < |edits| ==> from <= edits[k].start < edits[k].end <= to
  {
    if edits != [] {
      OrderedEnds(edits[1..], edits[0].end, to);
      assert forall k :: 1 <= k < |edits| ==> edits[k] == edits[1..][k - 1];
    }
  }

  lemma Regroup(x: string, y: string, s: string, t: string)
    ensures x + (y + (s + t)) == (x + (y + s)) + t
  {
  }

  /** The first edit in front of the others. */
  lemma SpliceFirst(src: string, e: Edit, es: seq<Edit>, from: nat, to: nat)
    requires to <= |src| && from <= e.start < e.end && Ordered(es, e.end, to)
    ensures Ordered([e] + es, from, to) && e.end <= to
    ensures Splice(src, [e] + es, from, to) == src[from..e.start] + (e.repl + Splice(src, es, e.end, to))
  {
    OrderedEnds(es, e.end, to);
    assert ([e] + es)[1..] == es;
  }

  lemma FirstOf(a: seq<Edit>, b: seq<Edit>)
    requires a != []
    ensures a == [a[0]] + a[1..] && a + b == [a[0]] + (a[1..] + b)
  {
  }

  lemma JoinFirst(src: string, a: seq<Edit>, ab: seq<Edit>, e: Edit, rest: seq<Edit>, b: seq<Edit>, from: nat, mid: nat, to: nat)
    requires mid <= to <= |src| && from <= e.start < e.end && Ordered(rest, e.end, mid)
    requires Ordered(rest + b, e.end, to) && Ordered(b, mid, to) && a == [e] + rest && ab == [e] + (rest + b)
    requires Splice(src, rest + b, e.end, to) == Splice(src, rest, e.end, mid) + Splice(src, b, mid, to)
    ensures Ordered(a, from, mid) && Ordered(ab, from, to)
    ensures Splice(src, ab, from, to) == Splice(src, a, from, mid) + Splice(src, b, mid, to)
  {
    SpliceFirst(src, e, rest, from, mid);
    SpliceFirst(src, e, rest + b, from, to);
    Regroup(src[from..e.start], e.repl, Splice(src, rest, e.end, mid), Splice(src, b, mid, to));
  }

  lemma {:induction false} SpliceJoin(src: string, a: seq<Edit>, b: seq<Edit>, from: nat, mid: nat, to: nat)
    requires to <= |src| && Ordered(a, from, mid) && Ordered(b, mid, to)
    ensures Ordered(a + b, from, to)
    ensures mid <= to && Splice(src, a + b, from, to) == Splice(src, a, from, mid) + Splice(src, b, mid, to)
  {
    OrderedEnds(b, mid, to);
    if a == [] {
      SpliceEarlier(src, b, from, mid, to);
      assert a + b == b;
    } else {
      SpliceJoin(src, a[1..], b, a[0].end, mid, to);
      FirstOf(a, b);
      JoinFirst(src, a, a + b, a[0], a[1..], b, from, mid, to);
    }
  }

  lemma SpliceEarlier(src: string, b: seq<Edit>, from: nat, mid: nat, to: nat)
    requires from <= mid <= to <= |src| && Ordered(b, mid, to)
    ensures Ordered(b, from, to)
    ensures Splice(src, b, from, to) == src[from..mid] + Splice(src, b, mid, to)
  {
    if b == [] {
      assert src[from..to] == src[from..mid] + src[mid..to];
    } else {
      OrderedEnds(b[1..], b[0].end, to);
      SliceJoin(src, from, mid, b[0].start, b[0].repl + Splice(src, b[1..], b[0].end, to));
    }
  }

  lemma SliceJoin(src: string, from: nat, mid: nat, to: nat, tail: string)
    requires from <= mid <= to <= |src|
    ensures src[from..to] + tail == src[from..mid] + (src[mid..to] + tail)
  {
    assert src[from..to] == src[from..mid] + src[mid..to];
  }

  /** Splicing removes exactly what the edits claim to save. */
  lemma {:induction false} SpliceLength(src: string, edits: seq<Edit>, from: nat, to: nat)
    requires to <= |src| && Ordered(edits, from, to)
    ensures from <= to && |Splice(src, edits, from, to)| == to - from - Saved(edits)
  {
    OrderedEnds(edits, from, to);
    if edits != [] {
      SpliceLength(src, edits[1..], edits[0].end, to);
    }
  }
}
