/** What blobstrip leaves behind, and what a second pass over its own output does. */
module BlobAgain {
  import opened Text
  import opened Json
  import opened BlobRules
  import opened BlobMarks
  import opened BlobTree
  import opened BlobStrip

  predicate IsLong(lit: string) { |lit| - 2 >= MIN_BYTES }

  /** Rules that write marks, and only in place of long literals. */
  ghost predicate Marking(c: Rules)
  {
    && (forall lit {:trigger c.text(lit)} :: |lit| >= 2 && c.text(lit).Some? ==>
          IsMark(c.text(lit).value) && IsLong(lit))
    && (forall lit, name, md {:trigger c.payload(lit, name, md)} ::
          |lit| >= 2 && c.payload(lit, name, md).Some? ==> IsMark(c.payload(lit, name, md).value))
  }

  lemma RulesOfMarking(c: Codec)
    ensures Marking(RulesOf(c))
  {
    var r := RulesOf(c);
    forall lit | |lit| >= 2 && r.text(lit).Some?
      ensures IsMark(r.text(lit).value) && IsLong(lit)
    {
      DataUrlIsMark(c, lit);
    }
    forall lit, name, md | |lit| >= 2 && r.payload(lit, name, md).Some?
      ensures IsMark(r.payload(lit, name, md).value)
    {
      ObjectPayloadIsMark(c, lit, name, md);
    }
  }

  // ---- The shape stays ----

  /** A literal and what it may become: itself, or, when it is long, a mark. */
  ghost predicate LeafKept(lit: string, lit': string)
  {
    lit' == lit || (IsLong(lit) && IsMark(lit') && !IsLong(lit'))
  }

  /** The same tree, byte for byte, except at string leaves. */
  ghost predicate SameShape(v: Value, w: Value)
    decreases v, 0
  {
    match v
    case Str(lit) => w.Str? && LeafKept(lit, w.lit)
    case Arr(items) => w.Arr? && SameItems(items, w.items)
    case Obj(members) => w.Obj? && SameMembers(members, w.members)
    case _ => w == v
  }

  ghost predicate SameItems(a: Items, b: Items)
    decreases a, 0
  {
    && a.LastItem? == b.LastItem? && a.pre == b.pre && a.post == b.post && SameShape(a.v, b.v)
    && (a.MoreItems? ==> SameItems(a.rest, b.rest))
  }

  ghost predicate SameMembers(a: Members, b: Members)
    decreases a, 0
  {
    && a.LastMember? == b.LastMember? && b.m == a.m.(v := b.m.v) && SameShape(a.m.v, b.m.v)
    && (a.MoreMembers? ==> SameMembers(a.rest, b.rest))
  }

  lemma MemberLiteralKept(c: Rules, lit: string, name: string, md: Medium)
    requires Marking(c) && IsString(lit)
    ensures LeafKept(lit, MemberLiteral(c, lit, name, md)) && LeafKept(lit, PlainLiteral(c, lit))
  {
  }

  lemma {:induction false} ShapeStays(c: Rules, v: Value)
    requires Marking(c) && WellFormed(v)
    ensures SameShape(v, StripTree(c, v))
    decreases v, 0
  {
    match v
    case Str(lit) => MemberLiteralKept(c, lit, "", NO_MEDIUM);
    case Arr(items) => ItemsShapeStays(c, items);
    case Obj(members) => MembersShapeStays(c, members, MediumOf(c, NO_MEDIUM, members));
    case _ =>
  }

  lemma {:induction false} ItemsShapeStays(c: Rules, items: Items)
    requires Marking(c) && WellFormedItems(items)
    ensures SameItems(items, StripItems(c, items))
    decreases items, 0
  {
    ShapeStays(c, items.v);
    if items.MoreItems? {
      ItemsShapeStays(c, items.rest);
    }
  }

  lemma {:induction false} MembersShapeStays(c: Rules, members: Members, md: Medium)
    requires Marking(c) && WellFormedMembers(members)
    ensures SameMembers(members, StripMembers(c, members, md))
    decreases members, 0
  {
    var m := members.m;
    if m.v.Str? {
      MemberLiteralKept(c, m.v.lit, c.name(m.key), md);
    } else {
      ShapeStays(c, m.v);
    }
    if members.MoreMembers? {
      MembersShapeStays(c, members.rest, md);
    }
  }

  lemma {:induction false} ShapeWellFormed(v: Value, w: Value)
    requires WellFormed(v) && SameShape(v, w)
    ensures WellFormed(w)
    decreases v, 0
  {
    match v
    case Arr(items) => ItemsShapeWellFormed(items, w.items);
    case Obj(members) => MembersShapeWellFormed(members, w.members);
    case _ =>
  }

  lemma {:induction false} ItemsShapeWellFormed(a: Items, b: Items)
    requires WellFormedItems(a) && SameItems(a, b)
    ensures WellFormedItems(b)
    decreases a, 0
  {
    ShapeWellFormed(a.v, b.v);
    if a.MoreItems? {
      ItemsShapeWellFormed(a.rest, b.rest);
    }
  }

  lemma {:induction false} MembersShapeWellFormed(a: Members, b: Members)
    requires WellFormedMembers(a) && SameMembers(a, b)
    ensures WellFormedMembers(b)
    decreases a, 0
  {
    ShapeWellFormed(a.m.v, b.m.v);
    if a.MoreMembers? {
      MembersShapeWellFormed(a.rest, b.rest);
    }
  }

  /** What Strip returns is valid JSON again, of the same shape. */
  lemma StripKeepsJson(c: Codec, d: Doc)
    requires WellFormedDoc(d)
    ensures WellFormedDoc(StripDoc(RulesOf(c), d))
    ensures SameShape(d.v, StripDoc(RulesOf(c), d).v)
    ensures ValidJson(PrintDoc(StripDoc(RulesOf(c), d)))
  {
    RulesOfMarking(c);
    ShapeStays(RulesOf(c), d.v);
    ShapeWellFormed(d.v, StripTree(RulesOf(c), d.v));
  }

  // ---- Long literals only get fewer ----

  function LongLiterals(v: Value): nat
    decreases v, 0
  {
    match v
    case Str(lit) => if IsLong(lit) then 1 else 0
    case Arr(items) => LongItems(items)
    case Obj(members) => LongMembers(members)
    case _ => 0
  }

  function LongItems(items: Items): nat
    decreases items, 0
  {
    LongLiterals(items.v) + if items.MoreItems? then LongItems(items.rest) else 0
  }

  function LongMembers(members: Members): nat
    decreases members, 0
  {
    LongLiterals(members.m.v) + if members.MoreMembers? then LongMembers(members.rest) else 0
  }

  /** Whatever changes in a tree of the same shape, a long literal went. */
  lemma {:induction false} ChangeShortens(v: Value, w: Value)
    requires SameShape(v, w)
    ensures LongLiterals(w) <= LongLiterals(v)
    ensures w != v ==> LongLiterals(w) < LongLiterals(v)
    decreases v, 0
  {
    match v
    case Arr(items) => ItemsChangeShortens(items, w.items);
    case Obj(members) => MembersChangeShortens(members, w.members);
    case _ =>
  }

  lemma {:induction false} ItemsChangeShortens(a: Items, b: Items)
    requires SameItems(a, b)
    ensures LongItems(b) <= LongItems(a)
    ensures b != a ==> LongItems(b) < LongItems(a)
    decreases a, 0
  {
    ChangeShortens(a.v, b.v);
    if a.MoreItems? {
      ItemsChangeShortens(a.rest, b.rest);
    }
  }

  lemma {:induction false} MembersChangeShortens(a: Members, b: Members)
    requires SameMembers(a, b)
    ensures LongMembers(b) <= LongMembers(a)
    ensures b != a ==> LongMembers(b) < LongMembers(a)
    decreases a, 0
  {
    ChangeShortens(a.m.v, b.m.v);
    if a.MoreMembers? {
      MembersChangeShortens(a.rest, b.rest);
    }
  }

  // ---- Running Strip again and again ----

  /** Strip on the tree of a line: lines that are not looked into stay. */
  ghost function StripLine(c: Codec, d: Doc): Doc
  {
    if WellFormedDoc(d) && Opened(PrintDoc(d)) then StripDoc(RulesOf(c), d) else d
  }

  /** f applied n times. */
  ghost function Iterate<T>(f: T -> T, x: T, n: nat): T
    decreases n
  {
    if n == 0 then x else Iterate(f, f(x), n - 1)
  }

  /** A step that either changes nothing or lowers a measure settles within that measure. */
  lemma {:induction false} Settles<T(!new)>(f: T -> T, size: T -> nat, x: T, n: nat)
    requires forall y :: f(y) == y || size(f(y)) < size(y)
    requires n >= size(x)
    ensures f(Iterate(f, x, n)) == Iterate(f, x, n)
    decreases n
  {
    if f(x) == x {
      StaysPut(f, x, n);
    } else {
      Settles(f, size, f(x), n - 1);
    }
  }

  lemma {:induction false} StaysPut<T>(f: T -> T, x: T, n: nat)
    requires f(x) == x
    ensures Iterate(f, x, n) == x
    decreases n
  {
    if n > 0 {
      StaysPut(f, x, n - 1);
    }
  }

  /** A pass that changes the line leaves fewer long literals. */
  lemma PassShortens(c: Codec, d: Doc)
    ensures StripLine(c, d) == d || LongLiterals(StripLine(c, d).v) < LongLiterals(d.v)
  {
    if StripLine(c, d) != d {
      StripKeepsJson(c, d);
      ChangeShortens(d.v, StripTree(RulesOf(c), d.v));
    }
  }

  ghost function Pass(c: Codec): Doc -> Doc { (d: Doc) => StripLine(c, d) }

  function LongCount(): Doc -> nat { (d: Doc) => LongLiterals(d.v) }

  /** After as many passes as the line has long literals, nothing changes any more. */
  lemma FixedPoint(c: Codec, d: Doc, n: nat)
    requires n >= LongLiterals(d.v)
    ensures StripLine(c, Iterate(Pass(c), d, n)) == Iterate(Pass(c), d, n)
  {
    forall y: Doc
      ensures Pass(c)(y) == y || LongCount()(Pass(c)(y)) < LongCount()(y)
    {
      PassShortens(c, y);
    }
    Settles(Pass(c), LongCount(), d, n);
  }

  // ---- When one pass is already enough ----

  /** What replacing string members adds to an object's medium: a media type, a type. */
  datatype Gain = Gain(mime: bool, typ: bool)

  function Gained(c: Codec, g: Gain, name: string, lit: string): Gain
    requires |lit| >= 2
  {
    if name == "type" then g.(typ := DataUrl(c, lit).Some?)
    else if IsMimeKey(name) && DataUrl(c, lit).Some? then g.(mime := true)
    else g
  }

  function GainedMember(c: Codec, g: Gain, m: Member): Gain
    requires MemberParts(m) && WellFormed(m.v)
  {
    if m.v.Str? then Gained(c, g, Name(c, m.key), m.v.lit) else g
  }

  function GainOf(c: Codec, g: Gain, members: Members): Gain
    requires WellFormedMembers(members)
    decreases members
  {
    var g' := GainedMember(c, g, members.m);
    if members.MoreMembers? then GainOf(c, g', members.rest) else g'
  }

  /** A long base64 literal under a payload key that the object does not admit. */
  predicate Dormant(c: Codec, lit: string, name: string, md: Medium)
    requires |lit| >= 2
  {
    && IsCandidate(name, lit) && DataUrl(c, lit).None? && !Admits(md, name)
    && Literal(c, lit).Some? && |Literal(c, lit).value| >= MIN_BYTES && c.digest(Literal(c, lit).value).Some?
  }

  predicate Wakes(g: Gain, name: string) { g.mime || (name == "base64" && g.typ) }

  /** Some object holds a dormant payload and a member whose replacement names a type for it. */
  predicate Exposes(c: Codec, v: Value)
    requires WellFormed(v)
    decreases v, 0
  {
    match v
    case Arr(items) => ItemsExpose(c, items)
    case Obj(members) =>
      MembersExpose(c, members, MediumOf(RulesOf(c), NO_MEDIUM, members), GainOf(c, Gain(false, false), members))
    case _ => false
  }

  predicate ItemsExpose(c: Codec, items: Items)
    requires WellFormedItems(items)
    decreases items, 0
  {
    Exposes(c, items.v) || (items.MoreItems? && ItemsExpose(c, items.rest))
  }

  predicate MembersExpose(c: Codec, members: Members, md: Medium, g: Gain)
    requires WellFormedMembers(members)
    decreases members, 0
  {
    var m := members.m;
    assert WellFormed(m.v);
    || (m.v.Str? && Dormant(c, m.v.lit, Name(c, m.key), md) && Wakes(g, Name(c, m.key)))
    || (!m.v.Str? && Exposes(c, m.v))
    || (members.MoreMembers? && MembersExpose(c, members.rest, md, g))
  }

  /** The medium after one pass, compared with the one before. */
  ghost predicate Shifted(md: Medium, md': Medium, g: Gain)
  {
    && (md'.mime != "" <==> md.mime != "" || g.mime)
    && if g.typ then md.typ == "" && '/' in md'.typ else md'.typ == md.typ
  }

  lemma ShiftedAdmits(md: Medium, md': Medium, g: Gain, name: string)
    requires Shifted(md, md', g) && IsPayloadKey(name)
    ensures Admits(md', name) <==> Admits(md, name) || Wakes(g, name)
  {
  }

  lemma MarkReadsShort(c: Codec, lit: string)
    requires IsMark(lit)
    ensures '/' in Short(c, lit)
  {
  }

  /** One string member after a pass: a type or media type that was too long to read is a mark
      now. */
  lemma ShiftedStep(c: Codec, name: string, lit: string, lit': string, md: Medium, md': Medium, g: Gain)
    requires |lit| >= 2 && |lit'| >= 2 && Shifted(md, md', g)
    requires lit' != lit ==> IsLong(lit) && IsMark(lit')
    requires !IsPayloadKey(name) ==> (lit' != lit <==> DataUrl(c, lit).Some?)
    ensures Shifted(Noted(c, md, name, lit), Noted(c, md', name, lit'), Gained(c, g, name, lit))
  {
    if lit' != lit {
      MarkReadsShort(c, lit');
      assert Short(c, lit) == "";
    }
  }

  lemma ShiftedMember(c: Codec, m: Member, m': Member, final: Medium, md: Medium, md': Medium, g: Gain)
    requires MemberParts(m) && WellFormed(m.v) && Shifted(md, md', g)
    requires m' == m.(v := StripValue(RulesOf(c), m, final))
    ensures MemberParts(m') && WellFormed(m'.v)
    ensures Shifted(NotedMember(RulesOf(c), md, m), NotedMember(RulesOf(c), md', m'), GainedMember(c, g, m))
  {
    var r := RulesOf(c);
    RulesOfMarking(c);
    if m.v.Str? {
      var lit, name := m.v.lit, Name(c, m.key);
      MemberLiteralKept(r, lit, name, final);
      DataUrlIsMark(c, lit);
      ShiftedStep(c, name, lit, MemberLiteral(r, lit, name, final), md, md', g);
    } else {
      ShapeStays(r, m.v);
      ShapeWellFormed(m.v, m'.v);
      assert !m'.v.Str?;
    }
  }

  lemma {:induction false} MediumAfter(c: Codec, members: Members, final: Medium, md: Medium, md': Medium, g: Gain)
    requires WellFormedMembers(members) && Shifted(md, md', g)
    ensures WellFormedMembers(StripMembers(RulesOf(c), members, final))
    ensures Shifted(MediumOf(RulesOf(c), md, members),
                    MediumOf(RulesOf(c), md', StripMembers(RulesOf(c), members, final)),
                    GainOf(c, g, members))
    decreases members
  {
    var r := RulesOf(c);
    StripMembersWellFormed(c, members, final);
    var m, m' := members.m, StripMembers(r, members, final).m;
    ShiftedMember(c, m, m', final, md, md', g);
    if members.MoreMembers? {
      MediumAfter(c, members.rest, final, NotedMember(r, md, m), NotedMember(r, md', m'), GainedMember(c, g, m));
    }
  }

  lemma StripMembersWellFormed(c: Codec, members: Members, md: Medium)
    requires WellFormedMembers(members)
    ensures WellFormedMembers(StripMembers(RulesOf(c), members, md))
  {
    RulesOfMarking(c);
    MembersShapeStays(RulesOf(c), members, md);
    MembersShapeWellFormed(members, StripMembers(RulesOf(c), members, md));
  }

  /** Stripping what was stripped. */
  lemma StripWellFormed(c: Codec, v: Value)
    requires WellFormed(v)
    ensures WellFormed(StripTree(RulesOf(c), v))
  {
    RulesOfMarking(c);
    ShapeStays(RulesOf(c), v);
    ShapeWellFormed(v, StripTree(RulesOf(c), v));
  }

  lemma StripItemsWellFormed(c: Codec, items: Items)
    requires WellFormedItems(items)
    ensures WellFormedItems(StripItems(RulesOf(c), items))
  {
    RulesOfMarking(c);
    ItemsShapeStays(RulesOf(c), items);
    ItemsShapeWellFormed(items, StripItems(RulesOf(c), items));
  }

  /** A short literal is never edited. */
  lemma ShortStays(c: Codec, lit: string, name: string, md: Medium)
    requires IsString(lit) && !IsLong(lit)
    ensures MemberLiteral(RulesOf(c), lit, name, md) == lit && PlainLiteral(RulesOf(c), lit) == lit
  {
  }

  lemma LongShrinks(c: Codec, lit: string, mime: string, payload: string)
    requires |lit| >= MIN_BYTES
    ensures Replacement(c, lit, mime, payload).Some? <==> |payload| >= MIN_BYTES && c.digest(payload).Some?
  {
    if c.digest(payload).Some? {
      PlaceholderIsMark(c, mime, payload);
    }
  }

  /** A payload of this length always shrinks, so only admission and readability decide. */
  lemma PayloadReplaced(c: Codec, lit: string, name: string, md: Medium)
    requires |lit| >= 2 && IsCandidate(name, lit)
    ensures ObjectPayload(c, lit, name, md).Some? <==>
              Admits(md, name) && Literal(c, lit).Some? && |Literal(c, lit).value| >= MIN_BYTES
              && c.digest(Literal(c, lit).value).Some?
  {
    if Literal(c, lit).Some? {
      LongShrinks(c, lit, MimeFor(md, name), Literal(c, lit).value);
    }
  }

  /** A literal that is rewritten stays, and it was not dormant. */
  lemma RewrittenStays(c: Codec, lit: string, name: string, md: Medium, md': Medium)
    requires IsString(lit) && Written(c, lit, name, md) != lit
    ensures !Dormant(c, lit, name, md)
    ensures MemberLiteral(RulesOf(c), Written(c, lit, name, md), name, md') == Written(c, lit, name, md)
  {
    var lit' := Written(c, lit, name, md);
    DataUrlIsMark(c, lit);
    ObjectPayloadIsMark(c, lit, name, md);
    ShortStays(c, lit', name, md');
    if IsCandidate(name, lit) {
      PayloadReplaced(c, lit, name, md);
    }
  }

  /** One that is left alone is rewritten next time if and only if it was dormant and wakes. */
  lemma LeftWakes(c: Codec, lit: string, name: string, md: Medium, md': Medium, g: Gain)
    requires IsString(lit) && Shifted(md, md', g) && Written(c, lit, name, md) == lit
    ensures Written(c, lit, name, md') == lit <==> !(Dormant(c, lit, name, md) && Wakes(g, name))
  {
    DataUrlIsMark(c, lit);
    if IsCandidate(name, lit) && DataUrl(c, lit).None? {
      PayloadReplaced(c, lit, name, md);
      PayloadReplaced(c, lit, name, md');
      ShiftedAdmits(md, md', g, name);
      ObjectPayloadIsMark(c, lit, name, md);
      ObjectPayloadIsMark(c, lit, name, md');
    }
  }

  lemma LeafTwice(c: Codec, lit: string, name: string, md: Medium, md': Medium, g: Gain)
    requires IsString(lit) && Shifted(md, md', g)
    ensures var lit' := MemberLiteral(RulesOf(c), lit, name, md);
            MemberLiteral(RulesOf(c), lit', name, md') == lit' <==> !(Dormant(c, lit, name, md) && Wakes(g, name))
  {
    RulesWrite(c, lit, name, md);
    if Written(c, lit, name, md) != lit {
      RewrittenStays(c, lit, name, md, md');
    } else {
      RulesWrite(c, lit, name, md');
      LeftWakes(c, lit, name, md, md', g);
    }
  }

  lemma PlainTwice(c: Codec, lit: string)
    requires IsString(lit)
    ensures var lit' := PlainLiteral(RulesOf(c), lit);
            IsString(lit') && PlainLiteral(RulesOf(c), lit') == lit'
  {
    DataUrlIsMark(c, lit);
    if DataUrl(c, lit).Some? {
      ShortStays(c, DataUrl(c, lit).value, "", NO_MEDIUM);
    }
  }

  lemma {:induction false} TreeTwice(c: Codec, v: Value)
    requires WellFormed(v)
    ensures WellFormed(StripTree(RulesOf(c), v))
    ensures StripTree(RulesOf(c), StripTree(RulesOf(c), v)) == StripTree(RulesOf(c), v) <==> !Exposes(c, v)
    decreases v, 0
  {
    var r := RulesOf(c);
    StripWellFormed(c, v);
    match v
    case Str(lit) => PlainTwice(c, lit);
    case Arr(items) => ItemsTwice(c, items);
    case Obj(members) =>
      var md, g := MediumOf(r, NO_MEDIUM, members), GainOf(c, Gain(false, false), members);
      MediumAfter(c, members, md, NO_MEDIUM, NO_MEDIUM, Gain(false, false));
      MembersTwice(c, members, md, MediumOf(r, NO_MEDIUM, StripMembers(r, members, md)), g);
    case _ =>
  }

  lemma {:induction false} ItemsTwice(c: Codec, items: Items)
    requires WellFormedItems(items)
    ensures WellFormedItems(StripItems(RulesOf(c), items))
    ensures (StripItems(RulesOf(c), StripItems(RulesOf(c), items)) == StripItems(RulesOf(c), items))
            <==> !ItemsExpose(c, items)
    decreases items, 0
  {
    StripItemsWellFormed(c, items);
    TreeTwice(c, items.v);
    if items.MoreItems? {
      ItemsTwice(c, items.rest);
    }
  }

  lemma {:induction false} MembersTwice(c: Codec, members: Members, md: Medium, md': Medium, g: Gain)
    requires WellFormedMembers(members) && Shifted(md, md', g)
    ensures WellFormedMembers(StripMembers(RulesOf(c), members, md))
    ensures (StripMembers(RulesOf(c), StripMembers(RulesOf(c), members, md), md') == StripMembers(RulesOf(c), members, md))
            <==> !MembersExpose(c, members, md, g)
    decreases members, 0
  {
    StripMembersWellFormed(c, members, md);
    var m := members.m;
    if m.v.Str? {
      LeafTwice(c, m.v.lit, Name(c, m.key), md, md', g);
    } else {
      TreeTwice(c, m.v);
    }
    if members.MoreMembers? {
      MembersTwice(c, members.rest, md, md', g);
    }
  }

  /** A second Strip changes the line exactly when it is looked into again and an object of the
      original exposes a dormant payload. */
  lemma SecondPass(c: Codec, d: Doc)
    requires WellFormedDoc(d) && Opened(PrintDoc(d))
    ensures var once := StripLine(c, d);
            StripLine(c, once) == once <==> !Opened(PrintDoc(once)) || !Exposes(c, d.v)
  {
    StripKeepsJson(c, d);
    TreeTwice(c, d.v);
  }
}
