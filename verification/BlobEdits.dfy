/** What the scanner's edits are: whole string literals of the line, one behind the other, each
    replaced by a shorter one. */
module BlobEdits {
  import opened Text
  import opened Json
  import opened JsonLayout
  import opened BlobRules
  import opened BlobScan
  import opened BlobTree
  import opened BlobSplice
  import opened BlobStrip

  /** An edit that takes a whole string literal of the line and writes a shorter one. */
  ghost predicate OnLiteral(src: string, e: Edit)
  {
    && e.end <= |src| && e.start <= e.end && IsString(src[e.start..e.end])
    && IsString(e.repl) && |e.repl| < e.end - e.start
  }

  ghost predicate AllOnLiterals(src: string, edits: seq<Edit>)
  {
    forall e :: e in edits ==> OnLiteral(src, e)
  }

  lemma LeafOnLiteral(c: Rules, src: string, i: nat, lit: string, name: string, md: Medium)
    requires Sound(c) && IsString(lit) && At(src, i, lit)
    ensures AllOnLiterals(src, LeafEdit(lit, PlainLiteral(c, lit), i))
    ensures AllOnLiterals(src, LeafEdit(lit, MemberLiteral(c, lit, name, md), i))
  {
    SliceAt(src, i, lit);
  }

  lemma {:induction false} TextOnLiterals(c: Rules, src: string, i: nat, v: Value)
    requires Sound(c) && WellFormed(v) && Laid(src, i, v)
    ensures AllOnLiterals(src, TextEdits(c, v, i))
    decreases v, 0
  {
    match v
    case Str(lit) => LeafOnLiteral(c, src, i, lit, "", NO_MEDIUM);
    case Arr(items) => ItemsOnLiterals(c, src, i + 1, items);
    case Obj(members) => MembersOnLiterals(c, src, i + 1, members, MediumOf(c, NO_MEDIUM, members));
    case _ =>
  }

  lemma {:induction false} ItemsOnLiterals(c: Rules, src: string, i: nat, items: Items)
    requires Sound(c) && WellFormedItems(items) && LaidItems(src, i, items)
    ensures AllOnLiterals(src, TextItems(c, items, i))
    decreases items, 0
  {
    TextOnLiterals(c, src, ItemAt(items, i), items.v);
    if items.MoreItems? {
      ItemsOnLiterals(c, src, NextItem(items, i), items.rest);
    }
  }

  lemma {:induction false} MembersOnLiterals(c: Rules, src: string, i: nat, members: Members, md: Medium)
    requires Sound(c) && WellFormedMembers(members) && LaidMembers(src, i, members)
    ensures AllOnLiterals(src, TextMembers(c, members, i, md))
    decreases members, 0
  {
    var m := members.m;
    if m.v.Str? {
      LeafOnLiteral(c, src, ValueAt(m, i), m.v.lit, c.name(m.key), md);
    } else {
      TextOnLiterals(c, src, ValueAt(m, i), m.v);
    }
    if members.MoreMembers? {
      MembersOnLiterals(c, src, NextMember(m, i), members.rest, md);
    }
  }

  lemma {:induction false} OrderedApart(edits: seq<Edit>, from: int, to: int, j: nat, k: nat)
    requires Ordered(edits, from, to) && j < k < |edits|
    ensures edits[j].end <= edits[k].start
    decreases |edits|
  {
    OrderedEnds(edits[1..], edits[0].end, to);
    if j > 0 {
      OrderedApart(edits[1..], edits[0].end, to, j - 1, k - 1);
    } else {
      assert edits[k] == edits[1..][k - 1];
    }
  }

  /** The edits collected on the text of any JSON document: sorted they are pairwise apart and
      in range, each covers exactly one string literal and writes a shorter one, and together
      they account for the whole difference in length. */
  lemma EditsApart(c: Rules, d: Doc)
    requires Sound(c) && WellFormedDoc(d)
    ensures var line := PrintDoc(d);
            var found := ScanValue(c, line, 0).edits;
            && (forall e :: e in found ==> OnLiteral(line, e))
            && multiset(SortByStart(found)) == multiset(found)
            && (forall j, k :: 0 <= j < k < |SortByStart(found)| ==>
                  SortByStart(found)[j].end <= SortByStart(found)[k].start)
            && |PrintDoc(StripDoc(c, d))| == |line| - Saved(found)
  {
    var line := PrintDoc(d);
    var i := |d.before|;
    var found, es := ScanValue(c, line, 0).edits, TextEdits(c, d.v, i);
    ScanDoc(c, d);
    DocParts(d);
    PrintedLaid(line, i, d.v);
    TextOnLiterals(c, line, i, d.v);
    SortSorts(found);
    SpliceLength(line, es, 0, |line|);
    forall e | e in found ensures OnLiteral(line, e) {
      assert e in multiset(found);
      assert e in es;
    }
    forall j: nat, k: nat | j < k < |es| ensures es[j].end <= es[k].start {
      OrderedApart(es, 0, |line|, j, k);
    }
  }
}
