/** Where the parts of a JSON tree stand in a line that holds its text. */
module JsonLayout {
  import opened Text
  import opened Json

  // ---- The length of a printed tree ----

  function Size(v: Value): nat
  {
    match v
    case Str(lit) => |lit|
    case Atom(text) => |text|
    case EmptyArr(gap) => |gap| + 2
    case Arr(items) => 1 + ItemsSize(items)
    case EmptyObj(gap) => |gap| + 2
    case Obj(members) => 1 + MembersSize(members)
  }

  function ItemsSize(items: Items): nat
  {
    |items.pre| + Size(items.v) + |items.post| + 1 + if items.MoreItems? then ItemsSize(items.rest) else 0
  }

  function MembersSize(members: Members): nat
  {
    var m := members.m;
    |m.pre| + |m.key| + |m.mid| + 1 + |m.gap| + Size(m.v) + |m.post| + 1 +
    if members.MoreMembers? then MembersSize(members.rest) else 0
  }

  /** Where an item's value starts and ends, and where the next item starts. */
  function ItemAt(items: Items, i: nat): nat { i + |items.pre| }

  function ItemEnd(items: Items, i: nat): nat { ItemAt(items, i) + Size(items.v) }

  function NextItem(items: Items, i: nat): nat { ItemEnd(items, i) + |items.post| + 1 }

  /** The same for members: key, colon, value. */
  function KeyAt(m: Member, i: nat): nat { i + |m.pre| }

  function KeyEnd(m: Member, i: nat): nat { KeyAt(m, i) + |m.key| }

  function ColonAt(m: Member, i: nat): nat { KeyEnd(m, i) + |m.mid| }

  function ValueAt(m: Member, i: nat): nat { ColonAt(m, i) + 1 + |m.gap| }

  function ValueEnd(m: Member, i: nat): nat { ValueAt(m, i) + Size(m.v) }

  function NextMember(m: Member, i: nat): nat { ValueEnd(m, i) + |m.post| + 1 }

  // ---- A text at a place of the line ----

  predicate At(src: string, i: nat, s: string)
  {
    i + |s| <= |src| && forall k :: i <= k < i + |s| ==> src[k] == s[k - i]
  }

  predicate Blank(src: string, i: nat, n: nat)
  {
    i + n <= |src| && forall k :: i <= k < i + n ==> IsSpace(src[k])
  }

  predicate ByteAt(src: string, i: nat, b: char) { i < |src| && src[i] == b }

  ghost predicate Laid(src: string, i: nat, v: Value)
    decreases v
  {
    match v
    case Str(lit) => IsString(lit) && At(src, i, lit)
    case Atom(text) => IsAtom(text) && At(src, i, text)
    case EmptyArr(gap) => ByteAt(src, i, '[') && Blank(src, i + 1, |gap|) && ByteAt(src, i + 1 + |gap|, ']')
    case Arr(items) => ByteAt(src, i, '[') && LaidItems(src, i + 1, items)
    case EmptyObj(gap) => ByteAt(src, i, '{') && Blank(src, i + 1, |gap|) && ByteAt(src, i + 1 + |gap|, '}')
    case Obj(members) => ByteAt(src, i, '{') && LaidMembers(src, i + 1, members)
  }

  ghost predicate LaidItems(src: string, i: nat, items: Items)
    decreases items
  {
    && Blank(src, i, |items.pre|)
    && Laid(src, ItemAt(items, i), items.v)
    && Blank(src, ItemEnd(items, i), |items.post|)
    && ByteAt(src, NextItem(items, i) - 1, if items.MoreItems? then ',' else ']')
    && (items.MoreItems? ==> LaidItems(src, NextItem(items, i), items.rest))
  }

  ghost predicate LaidMembers(src: string, i: nat, members: Members)
    decreases members
  {
    var m := members.m;
    && LaidHead(src, i, m)
    && Laid(src, ValueAt(m, i), m.v)
    && Blank(src, ValueEnd(m, i), |m.post|)
    && ByteAt(src, NextMember(m, i) - 1, if members.MoreMembers? then ',' else '}')
    && (members.MoreMembers? ==> LaidMembers(src, NextMember(m, i), members.rest))
  }

  predicate LaidHead(src: string, i: nat, m: Member)
  {
    && Blank(src, i, |m.pre|)
    && IsString(m.key) && At(src, KeyAt(m, i), m.key)
    && Blank(src, KeyEnd(m, i), |m.mid|)
    && ByteAt(src, ColonAt(m, i), ':')
    && Blank(src, ColonAt(m, i) + 1, |m.gap|)
  }

  // ---- A printed tree is laid out so ----

  lemma AtSplit(src: string, i: nat, a: string, b: string)
    requires At(src, i, a + b)
    ensures At(src, i, a) && At(src, i + |a|, b)
  {
    forall k | i + |a| <= k < i + |a| + |b| ensures src[k] == b[k - i - |a|] {
      assert src[k] == (a + b)[k - i];
    }
    forall k | i <= k < i + |a| ensures src[k] == a[k - i] {
      assert src[k] == (a + b)[k - i];
    }
  }

  lemma AtBlank(src: string, i: nat, ws: string)
    requires At(src, i, ws) && Spaces(ws)
    ensures Blank(src, i, |ws|)
  {
  }

  lemma AtOne(src: string, i: nat, s: string)
    requires At(src, i, s) && |s| == 1
    ensures ByteAt(src, i, s[0])
  {
  }

  lemma {:induction false} SizeIsLength(v: Value)
    ensures Size(v) == |Print(v)|
    decreases v
  {
    match v
    case Arr(items) => ItemsSizeIsLength(items);
    case Obj(members) => MembersSizeIsLength(members);
    case _ =>
  }

  lemma {:induction false} ItemsSizeIsLength(items: Items)
    ensures ItemsSize(items) == |PrintItems(items)|
    decreases items
  {
    SizeIsLength(items.v);
    if items.MoreItems? {
      ItemsSizeIsLength(items.rest);
    }
  }

  lemma {:induction false} MembersSizeIsLength(members: Members)
    ensures MembersSize(members) == |PrintMembers(members)|
    decreases members
  {
    SizeIsLength(members.m.v);
    if members.MoreMembers? {
      MembersSizeIsLength(members.rest);
    }
  }

  lemma Opened(src: string, i: nat, open: char, rest: string)
    requires At(src, i, [open] + rest)
    ensures ByteAt(src, i, open) && At(src, i + 1, rest)
  {
    AtSplit(src, i, [open], rest);
    AtOne(src, i, [open]);
  }

  lemma {:induction false} PrintedLaid(src: string, i: nat, v: Value)
    requires WellFormed(v) && At(src, i, Print(v))
    ensures Laid(src, i, v)
    decreases v
  {
    match v
    case Str(_) =>
    case Atom(_) =>
    case EmptyArr(gap) => EmptyLaid(src, i, "[", gap, "]");
    case EmptyObj(gap) => EmptyLaid(src, i, "{", gap, "}");
    case Arr(items) =>
      Opened(src, i, '[', PrintItems(items));
      PrintedItemsLaid(src, i + 1, items);
    case Obj(members) =>
      Opened(src, i, '{', PrintMembers(members));
      PrintedMembersLaid(src, i + 1, members);
  }

  lemma EmptyLaid(src: string, i: nat, open: string, gap: string, close: string)
    requires |open| == |close| == 1 && Spaces(gap) && At(src, i, open + gap + close)
    ensures ByteAt(src, i, open[0]) && Blank(src, i + 1, |gap|) && ByteAt(src, i + 1 + |gap|, close[0])
  {
    AtSplit(src, i, open + gap, close);
    AtSplit(src, i, open, gap);
    AtOne(src, i, open);
    AtBlank(src, i + 1, gap);
    AtOne(src, i + 1 + |gap|, close);
  }

  /** The parts of an element, and of what follows it. */
  lemma AtElement(src: string, i: nat, all: string, a: string, v: string, post: string, close: string, rest: string)
    requires At(src, i, all) && all == a + v + post + close + rest
    ensures At(src, i, a) && At(src, i + |a|, v) && At(src, i + |a| + |v|, post)
    ensures At(src, i + |a| + |v| + |post|, close) && At(src, i + |a| + |v| + |post| + |close|, rest)
  {
    AtSplit(src, i, a + v + post + close, rest);
    AtSplit(src, i, a + v + post, close);
    AtSplit(src, i, a + v, post);
    AtSplit(src, i, a, v);
  }

  lemma TextOfItems(v: string, close: string, rest: string, items: Items)
    requires v == Print(items.v)
    requires close == (if items.MoreItems? then "," else "]")
    requires rest == (if items.MoreItems? then PrintItems(items.rest) else "")
    ensures PrintItems(items) == items.pre + v + items.post + close + rest
  {
    if items.LastItem? {
      assert items.pre + v + items.post + close + "" == items.pre + v + items.post + close;
    }
  }

  lemma PrintedItemParts(src: string, i: nat, v: string, items: Items)
    requires WellFormedItems(items) && At(src, i, PrintItems(items)) && v == Print(items.v)
    ensures At(src, i, items.pre) && At(src, ItemAt(items, i), v)
    ensures At(src, ItemEnd(items, i), items.post)
    ensures At(src, NextItem(items, i) - 1, if items.MoreItems? then "," else "]")
    ensures items.MoreItems? ==> At(src, NextItem(items, i), PrintItems(items.rest))
  {
    SizeIsLength(items.v);
    var rest := if items.MoreItems? then PrintItems(items.rest) else "";
    var close := if items.MoreItems? then "," else "]";
    TextOfItems(v, close, rest, items);
    PartsAt(src, i, PrintItems(items), items.pre, v, items.post, close, rest, ItemAt(items, i), ItemEnd(items, i), NextItem(items, i));
  }

  /** The parts of an element, at places worked out beforehand. */
  lemma PartsAt(src: string, i: nat, all: string, pre: string, v: string, post: string, close: string, rest: string, at: nat, end: nat, next: nat)
    requires At(src, i, all) && all == pre + v + post + close + rest && |close| == 1
    requires at == i + |pre| && end == at + |v| && next == end + |post| + 1
    ensures At(src, i, pre) && At(src, at, v) && At(src, end, post) && At(src, next - 1, close) && At(src, next, rest)
  {
    AtElement(src, i, all, pre, v, post, close, rest);
  }

  lemma {:induction false} PrintedItemsLaid(src: string, i: nat, items: Items)
    requires WellFormedItems(items) && At(src, i, PrintItems(items))
    ensures LaidItems(src, i, items)
    decreases items
  {
    PrintedItemParts(src, i, Print(items.v), items);
    AtBlank(src, i, items.pre);
    AtBlank(src, ItemEnd(items, i), items.post);
    AtOne(src, NextItem(items, i) - 1, if items.MoreItems? then "," else "]");
    PrintedLaid(src, ItemAt(items, i), items.v);
    if items.MoreItems? {
      PrintedItemsLaid(src, NextItem(items, i), items.rest);
    }
  }

  lemma PrintedHeadLaid(src: string, i: nat, m: Member)
    requires MemberParts(m) && At(src, i, MemberHead(m))
    ensures LaidHead(src, i, m) && i + |MemberHead(m)| == ValueAt(m, i)
  {
    AtElement(src, i, MemberHead(m), m.pre, m.key, m.mid, ":", m.gap);
    AtBlank(src, i, m.pre);
    AtBlank(src, KeyEnd(m, i), m.mid);
    AtOne(src, ColonAt(m, i), ":");
    AtBlank(src, ColonAt(m, i) + 1, m.gap);
  }

  /** What stands behind a member's value besides white space. */
  function CloseOf(members: Members): string { if members.MoreMembers? then "," else "}" }

  function RestOf(members: Members): string
  {
    if members.MoreMembers? then PrintMembers(members.rest) else ""
  }

  lemma TextOfMembers(members: Members, head: string, text: string, close: string, rest: string)
    requires head == MemberHead(members.m) && text == Print(members.m.v) && close == CloseOf(members) && rest == RestOf(members)
    ensures PrintMembers(members) == head + text + members.m.post + close + rest
  {
    if members.LastMember? {
      assert head + text + members.m.post + close + "" == head + text + members.m.post + close;
    }
  }

  lemma HeadSize(m: Member, i: nat)
    ensures i + |MemberHead(m)| == ValueAt(m, i)
  {
  }

  /** Where the parts of the first member stand. */
  lemma PrintedMemberParts(src: string, i: nat, members: Members, head: string, text: string, rest: string)
    requires WellFormedMembers(members) && At(src, i, PrintMembers(members))
    requires head == MemberHead(members.m) && text == Print(members.m.v) && rest == RestOf(members)
    ensures At(src, i, head) && At(src, ValueAt(members.m, i), text)
    ensures At(src, ValueEnd(members.m, i), members.m.post)
    ensures At(src, NextMember(members.m, i) - 1, CloseOf(members)) && At(src, NextMember(members.m, i), rest)
  {
    var m, close := members.m, CloseOf(members);
    HeadSize(m, i);
    SizeIsLength(m.v);
    TextOfMembers(members, head, text, close, rest);
    PartsAt(src, i, PrintMembers(members), head, text, m.post, close, rest, ValueAt(m, i), ValueEnd(m, i), NextMember(m, i));
  }

  /** White space and one byte behind a value. */
  lemma TailLaid(src: string, e: nat, post: string, close: string, b: char)
    requires At(src, e, post) && Spaces(post) && At(src, e + |post|, close) && close == [b]
    ensures Blank(src, e, |post|) && ByteAt(src, e + |post|, b)
  {
    AtBlank(src, e, post);
    AtOne(src, e + |post|, close);
  }

  lemma PrintedFirstLaid(src: string, i: nat, members: Members, text: string, rest: string)
    requires WellFormedMembers(members) && At(src, i, PrintMembers(members))
    requires text == Print(members.m.v) && rest == RestOf(members)
    ensures LaidHead(src, i, members.m) && At(src, ValueAt(members.m, i), text)
    ensures Blank(src, ValueEnd(members.m, i), |members.m.post|)
    ensures ByteAt(src, NextMember(members.m, i) - 1, if members.MoreMembers? then ',' else '}')
    ensures At(src, NextMember(members.m, i), rest)
  {
    PrintedMemberParts(src, i, members, MemberHead(members.m), text, rest);
    PrintedHeadLaid(src, i, members.m);
    TailLaid(src, ValueEnd(members.m, i), members.m.post, CloseOf(members), if members.MoreMembers? then ',' else '}');
  }

  lemma {:induction false} PrintedMembersLaid(src: string, i: nat, members: Members)
    requires WellFormedMembers(members) && At(src, i, PrintMembers(members))
    ensures LaidMembers(src, i, members)
    decreases members
  {
    PrintedFirstLaid(src, i, members, Print(members.m.v), RestOf(members));
    PrintedLaid(src, ValueAt(members.m, i), members.m.v);
    if members.MoreMembers? {
      PrintedMembersLaid(src, NextMember(members.m, i), members.rest);
    }
  }

  // ---- What a laid-out tree says about the line ----

  lemma {:induction false} LaidInside(src: string, i: nat, v: Value)
    requires Laid(src, i, v)
    ensures i + Size(v) <= |src|
    decreases v
  {
    match v
    case Arr(items) => LaidItemsInside(src, i + 1, items);
    case Obj(members) => LaidMembersInside(src, i + 1, members);
    case _ =>
  }

  lemma {:induction false} LaidItemsInside(src: string, i: nat, items: Items)
    requires LaidItems(src, i, items)
    ensures i + ItemsSize(items) <= |src|
    decreases items
  {
    if items.MoreItems? {
      LaidItemsInside(src, NextItem(items, i), items.rest);
    }
  }

  lemma {:induction false} LaidMembersInside(src: string, i: nat, members: Members)
    requires LaidMembers(src, i, members)
    ensures i + MembersSize(members) <= |src|
    decreases members
  {
    if members.MoreMembers? {
      LaidMembersInside(src, NextMember(members.m, i), members.rest);
    }
  }

  /** The first byte tells the kind of value. */
  lemma LaidStart(src: string, i: nat, v: Value)
    requires Laid(src, i, v)
    ensures Size(v) > 0 && i < |src| && !IsDelimiter(src[i])
    ensures src[i] == '"' <==> v.Str?
    ensures src[i] == '[' <==> v.Arr? || v.EmptyArr?
    ensures src[i] == '{' <==> v.Obj? || v.EmptyObj?
  {
    if v.Str? {
      assert src[i] == v.lit[0];
    } else if v.Atom? {
      AtomChars(v.text);
      assert src[i] == v.text[0];
    }
  }
}
