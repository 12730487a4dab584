/** The needles: which lines the filter turns away although they hold a payload. A name written with
    escapes must be to blame. */
module BlobFilter {
  import opened Text
  import opened Json
  import opened JsonLayout
  import opened BlobRules
  import opened BlobMarks
  import opened BlobTree
  import opened BlobStrip
  import opened BlobAgain
  import opened BlobExample

  lemma PartHasNone(a: string, b: string, c: string)
    requires !MayCarryPayload(a + b + c)
    ensures !MayCarryPayload(b)
  {
    if MayCarryPayload(b) {
      WholeHas(a, b, c);
    }
  }

  // ---- Names written without escapes ----

  /** The literals blobstrip compares with names: short ones and data URLs. */
  predicate SpelledLiteral(lit: string)
  {
    '\\' in lit ==> |lit| > SHORT_BYTES && !HasPrefix(lit, "\"data:")
  }

  predicate Spelled(v: Value)
  {
    match v
    case Str(lit) => SpelledLiteral(lit)
    case Arr(items) => SpelledItems(items)
    case Obj(members) => SpelledMembers(members)
    case _ => true
  }

  predicate SpelledItems(items: Items)
  {
    Spelled(items.v) && (items.MoreItems? ==> SpelledItems(items.rest))
  }

  predicate SpelledMembers(members: Members)
  {
    '\\' !in members.m.key && Spelled(members.m.v) && (members.MoreMembers? ==> SpelledMembers(members.rest))
  }

  // ---- Without needles nothing is stripped ----

  /** What an object can say about its medium without any needle. */
  predicate Mute(md: Medium) { md.mime == "" && md.typ != "base64" }

  /** A name that holds no needle is none. */
  lemma NotNeedle(name: string, n: nat)
    requires !MayCarryPayload(name) && n < |NEEDLES|
    ensures name != NEEDLES[n]
  {
    assert !Contains(name, NEEDLES[n]);
    assert OccursAt(NEEDLES[n], NEEDLES[n], 0);
  }

  lemma NotNamed(name: string, lit: string)
    requires |lit| >= 2 && name == lit[1..|lit| - 1] && !MayCarryPayload(lit)
    ensures name != "base64" && !IsMimeKey(name)
  {
    assert lit == lit[..1] + name + lit[|lit| - 1..];
    PartHasNone(lit[..1], name, lit[|lit| - 1..]);
    NotNeedle(name, 0);
    NotNeedle(name, 1);
    NotNeedle(name, 2);
    NotNeedle(name, 3);
    assert NEEDLES[0] == "base64" && NEEDLES[1] == "mimeType" && NEEDLES[2] == "mime_type" && NEEDLES[3] == "media_type";
  }

  lemma HeaderNames(header: string)
    requires HasSuffix(header, ";base64")
    ensures MayCarryPayload(header)
  {
    var k := |header| - 6;
    assert header[k..] == header[|header| - 7..][1..] == ";base64"[1..] == "base64";
    assert NEEDLES[0] == "base64" && OccursAt(header, NEEDLES[0], k);
  }

  /** A data URL spelled out holds a needle. */
  lemma DataUrlNames(c: Codec, lit: string)
    requires |lit| >= 2 && SpelledLiteral(lit) && DataParts(c, lit).Some?
    ensures MayCarryPayload(lit)
  {
    var text := lit[1..|lit| - 1];
    var comma := IndexFrom(text, ',', 0);
    DataPrefix(c, lit);
    var header := text[5..comma];
    HeaderNames(header);
    InnerSlice(lit, comma);
    WholeHas(lit[..6], header, lit[comma + 1..]);
  }

  lemma InnerSlice(lit: string, n: nat)
    requires 5 <= n <= |lit| - 2
    ensures lit[..6] + lit[1..|lit| - 1][5..n] + lit[n + 1..] == lit
  {
    var text, inner := lit[1..|lit| - 1], lit[1..|lit| - 1][5..n];
    assert |inner| == n - 5;
    forall k | 0 <= k < n - 5 ensures inner[k] == lit[6 + k] {
      assert inner[k] == text[5 + k] == lit[6 + k];
    }
    assert inner == lit[6..n + 1];
    assert lit[..6] + lit[6..n + 1] == lit[..n + 1];
  }

  lemma NoDataUrl(c: Codec, lit: string)
    requires |lit| >= 2 && SpelledLiteral(lit) && !MayCarryPayload(lit)
    ensures DataUrl(c, lit).None?
  {
    if DataParts(c, lit).Some? {
      DataUrlNames(c, lit);
    }
  }

  lemma ShortMute(c: Codec, md: Medium, name: string, lit: string)
    requires |lit| >= 2 && SpelledLiteral(lit) && !MayCarryPayload(lit) && Mute(md) && !IsMimeKey(name)
    ensures Mute(Noted(c, md, name, lit))
  {
    if |lit| <= SHORT_BYTES {
      NotNamed(Short(c, lit), lit);
    }
  }

  lemma NotAdmitted(md: Medium, name: string)
    requires Mute(md) && name != "base64"
    ensures !Admits(md, name)
  {
  }

  /** One member tells nothing and is not touched. */
  lemma MemberMute(c: Codec, key: string, lit: string, md: Medium)
    requires |key| >= 2 && |lit| >= 2 && '\\' !in key && SpelledLiteral(lit) && Mute(md)
    requires !MayCarryPayload(key) && !MayCarryPayload(lit)
    ensures Mute(Noted(c, md, Name(c, key), lit))
    ensures MemberLiteral(RulesOf(c), lit, Name(c, key), md) == PlainLiteral(RulesOf(c), lit) == lit
  {
    var name := Name(c, key);
    NotNamed(name, key);
    NoDataUrl(c, lit);
    ShortMute(c, md, name, lit);
    NotAdmitted(md, name);
    NotTaken(c, lit, name, md);
  }

  lemma NotTaken(c: Codec, lit: string, name: string, md: Medium)
    requires |lit| >= 2 && DataUrl(c, lit).None? && !Admits(md, name)
    ensures MemberLiteral(RulesOf(c), lit, name, md) == PlainLiteral(RulesOf(c), lit) == lit
  {
    assert ObjectPayload(c, lit, name, md).None?;
  }

  lemma MemberPieces(m: Member, tail: string)
    requires !MayCarryPayload(MemberHead(m) + Print(m.v) + m.post + tail)
    ensures !MayCarryPayload(m.key) && !MayCarryPayload(Print(m.v)) && !MayCarryPayload(tail)
  {
    var line := MemberHead(m) + Print(m.v) + m.post + tail;
    assert line == m.pre + m.key + (m.mid + ":" + m.gap + Print(m.v) + m.post + tail);
    PartHasNone(m.pre, m.key, m.mid + ":" + m.gap + Print(m.v) + m.post + tail);
    assert line == MemberHead(m) + Print(m.v) + (m.post + tail);
    PartHasNone(MemberHead(m), Print(m.v), m.post + tail);
    assert line == (MemberHead(m) + Print(m.v) + m.post) + tail + "";
    PartHasNone(MemberHead(m) + Print(m.v) + m.post, tail, "");
  }

  lemma {:induction false} NothingInValue(c: Codec, v: Value)
    requires WellFormed(v) && Spelled(v) && !MayCarryPayload(Print(v))
    ensures StripTree(RulesOf(c), v) == v
    decreases v, 0
  {
    match v
    case Str(lit) => NoDataUrl(c, lit);
    case Arr(items) =>
      assert Print(v) == "[" + PrintItems(items) + "";
      PartHasNone("[", PrintItems(items), "");
      NothingInItems(c, items);
    case Obj(members) =>
      assert Print(v) == "{" + PrintMembers(members) + "";
      PartHasNone("{", PrintMembers(members), "");
      MediumMute(c, members, NO_MEDIUM);
      NothingInMembers(c, members, MediumOf(RulesOf(c), NO_MEDIUM, members));
    case _ =>
  }

  lemma {:induction false} NothingInItems(c: Codec, items: Items)
    requires WellFormedItems(items) && SpelledItems(items) && !MayCarryPayload(PrintItems(items))
    ensures StripItems(RulesOf(c), items) == items
    decreases items, 0
  {
    var tail := if items.MoreItems? then "," + PrintItems(items.rest) else "]";
    assert PrintItems(items) == items.pre + Print(items.v) + (items.post + tail);
    PartHasNone(items.pre, Print(items.v), items.post + tail);
    NothingInValue(c, items.v);
    if items.MoreItems? {
      assert PrintItems(items) == (items.pre + Print(items.v) + items.post + ",") + PrintItems(items.rest) + "";
      PartHasNone(items.pre + Print(items.v) + items.post + ",", PrintItems(items.rest), "");
      NothingInItems(c, items.rest);
    }
  }

  function Tail(members: Members): string
  {
    if members.MoreMembers? then "," + PrintMembers(members.rest) else "}"
  }

  lemma MembersPieces(members: Members)
    requires !MayCarryPayload(PrintMembers(members))
    ensures !MayCarryPayload(members.m.key) && !MayCarryPayload(Print(members.m.v))
    ensures members.MoreMembers? ==> !MayCarryPayload(PrintMembers(members.rest))
  {
    var m := members.m;
    assert PrintMembers(members) == MemberHead(m) + Print(m.v) + m.post + Tail(members);
    MemberPieces(m, Tail(members));
    if members.MoreMembers? {
      assert Tail(members) == "," + PrintMembers(members.rest) + "";
      PartHasNone(",", PrintMembers(members.rest), "");
    }
  }

  lemma {:induction false} MediumMute(c: Codec, members: Members, md: Medium)
    requires WellFormedMembers(members) && SpelledMembers(members) && !MayCarryPayload(PrintMembers(members)) && Mute(md)
    ensures Mute(MediumOf(RulesOf(c), md, members))
    decreases members
  {
    MembersPieces(members);
    var m := members.m;
    if m.v.Str? {
      MemberMute(c, m.key, m.v.lit, md);
    }
    if members.MoreMembers? {
      MediumMute(c, members.rest, NotedMember(RulesOf(c), md, m));
    }
  }

  lemma {:induction false} NothingInMembers(c: Codec, members: Members, md: Medium)
    requires WellFormedMembers(members) && SpelledMembers(members) && !MayCarryPayload(PrintMembers(members)) && Mute(md)
    ensures StripMembers(RulesOf(c), members, md) == members
    decreases members, 0
  {
    MembersPieces(members);
    var m := members.m;
    if m.v.Str? {
      MemberMute(c, m.key, m.v.lit, md);
    } else {
      NothingInValue(c, m.v);
    }
    if members.MoreMembers? {
      NothingInMembers(c, members.rest, md);
    }
  }

  /** The filter is safe: a JSON line without needles, whose names are written without escapes,
      would come out of the scanner unchanged. */
  lemma FilterIsSafe(c: Codec, d: Doc)
    requires WellFormedDoc(d) && Spelled(d.v) && !MayCarryPayload(PrintDoc(d))
    ensures StripDoc(RulesOf(c), d) == d
  {
    PartHasNone(d.before, Print(d.v), d.after);
    NothingInValue(c, d.v);
  }

  // ---- What a line must hold for the scanner to change it ----

  /** A payload the digest reads. */
  predicate Payloadlike(c: Codec, payload: string) { |payload| >= MIN_BYTES && c.digest(payload).Some? }

  /** A literal data:<mime>;base64,<payload>. */
  predicate HoldsUrl(c: Codec, lit: string)
    requires |lit| >= 2
  {
    DataParts(c, lit).Some? && Payloadlike(c, DataParts(c, lit).value.1)
  }

  /** A payload under a name that its object admits. */
  predicate HoldsOwn(c: Codec, lit: string, name: string, md: Medium)
    requires |lit| >= 2
  {
    IsCandidate(name, lit) && Admits(md, name) && Literal(c, lit).Some? && Payloadlike(c, Literal(c, lit).value)
  }

  /** At some depth a data URL, or a payload whose object declares itself a medium. */
  predicate HoldsPayload(c: Codec, v: Value)
    requires WellFormed(v)
    decreases v, 0
  {
    match v
    case Str(lit) => HoldsUrl(c, lit)
    case Arr(items) => ItemsHold(c, items)
    case Obj(members) => MembersHold(c, members, MediumOf(RulesOf(c), NO_MEDIUM, members))
    case _ => false
  }

  predicate ItemsHold(c: Codec, items: Items)
    requires WellFormedItems(items)
    decreases items, 0
  {
    HoldsPayload(c, items.v) || (items.MoreItems? && ItemsHold(c, items.rest))
  }

  predicate MembersHold(c: Codec, members: Members, md: Medium)
    requires WellFormedMembers(members)
    decreases members, 0
  {
    var m := members.m;
    assert WellFormed(m.v);
    (if m.v.Str? then HoldsUrl(c, m.v.lit) || HoldsOwn(c, m.v.lit, Name(c, m.key), md) else HoldsPayload(c, m.v)) ||
    (members.MoreMembers? && MembersHold(c, members.rest, md))
  }

  /** The size guard never stops a data URL: what is written is shorter than any that counts. */
  lemma UrlReplaced(c: Codec, lit: string)
    requires |lit| >= 2
    ensures DataUrl(c, lit).Some? <==> HoldsUrl(c, lit)
    ensures DataUrl(c, lit).Some? ==> |DataUrl(c, lit).value| < |lit|
  {
    if HoldsUrl(c, lit) {
      var (mime, payload) := DataParts(c, lit).value;
      PlaceholderIsMark(c, mime, payload);
    }
  }

  lemma OwnReplaced(c: Codec, lit: string, name: string, md: Medium)
    requires |lit| >= 2 && IsCandidate(name, lit)
    ensures ObjectPayload(c, lit, name, md).Some? <==> HoldsOwn(c, lit, name, md)
    ensures ObjectPayload(c, lit, name, md).Some? ==> |ObjectPayload(c, lit, name, md).value| < |lit|
  {
    PayloadReplaced(c, lit, name, md);
    ObjectPayloadIsMark(c, lit, name, md);
  }

  lemma WrittenChanges(c: Codec, lit: string, name: string, md: Medium)
    requires |lit| >= 2
    ensures Written(c, lit, name, md) != lit <==> HoldsUrl(c, lit) || HoldsOwn(c, lit, name, md)
    ensures |Written(c, lit, name, md)| < |lit| || Written(c, lit, name, md) == lit
  {
    UrlReplaced(c, lit);
    if IsCandidate(name, lit) {
      OwnReplaced(c, lit, name, md);
    }
  }

  lemma LiteralChanges(c: Codec, lit: string, name: string, md: Medium)
    requires |lit| >= 2
    ensures MemberLiteral(RulesOf(c), lit, name, md) != lit <==> HoldsUrl(c, lit) || HoldsOwn(c, lit, name, md)
    ensures PlainLiteral(RulesOf(c), lit) != lit <==> HoldsUrl(c, lit)
    ensures |MemberLiteral(RulesOf(c), lit, name, md)| < |lit| || MemberLiteral(RulesOf(c), lit, name, md) == lit
    ensures |PlainLiteral(RulesOf(c), lit)| < |lit| || PlainLiteral(RulesOf(c), lit) == lit
  {
    RulesWrite(c, lit, name, md);
    UrlReplaced(c, lit);
    WrittenChanges(c, lit, name, md);
  }

  /** The scanner changes exactly the values that hold a payload, and makes them shorter. */
  lemma {:induction false} ValueChanges(c: Codec, v: Value)
    requires WellFormed(v)
    ensures StripTree(RulesOf(c), v) != v <==> HoldsPayload(c, v)
    ensures StripTree(RulesOf(c), v) == v || Size(StripTree(RulesOf(c), v)) < Size(v)
    decreases v, 0
  {
    match v
    case Str(lit) => LiteralChanges(c, lit, "", NO_MEDIUM);
    case Arr(items) => ItemsChange(c, items);
    case Obj(members) => MembersChange(c, members, MediumOf(RulesOf(c), NO_MEDIUM, members));
    case _ =>
  }

  lemma {:induction false} ItemsChange(c: Codec, items: Items)
    requires WellFormedItems(items)
    ensures StripItems(RulesOf(c), items) != items <==> ItemsHold(c, items)
    ensures StripItems(RulesOf(c), items) == items || ItemsSize(StripItems(RulesOf(c), items)) < ItemsSize(items)
    decreases items, 0
  {
    ValueChanges(c, items.v);
    if items.MoreItems? {
      ItemsChange(c, items.rest);
    }
  }

  lemma {:induction false} MembersChange(c: Codec, members: Members, md: Medium)
    requires WellFormedMembers(members)
    ensures StripMembers(RulesOf(c), members, md) != members <==> MembersHold(c, members, md)
    ensures StripMembers(RulesOf(c), members, md) == members
            || MembersSize(StripMembers(RulesOf(c), members, md)) < MembersSize(members)
    decreases members, 0
  {
    var m := members.m;
    assert RulesOf(c).name(m.key) == Name(c, m.key);
    if m.v.Str? {
      LiteralChanges(c, m.v.lit, Name(c, m.key), md);
    } else {
      ValueChanges(c, m.v);
    }
    if members.MoreMembers? {
      MembersChange(c, members.rest, md);
    }
  }

  /** The filter exactly: on a JSON line of the least length or more, Strip comes to what the scanner
      would make of it if and only if the line has a needle or holds no payload. And a line without
      needles holds none as long as its keys, short strings and data URLs are written without
      escapes: one that is wrongly turned away owes it to an escaped name. */
  lemma FilterExactly(c: Codec, d: Doc)
    requires WellFormedDoc(d) && |PrintDoc(d)| >= MIN_BYTES
    ensures PrintDoc(StripLine(c, d)) == PrintDoc(StripDoc(RulesOf(c), d)) <==> MayCarryPayload(PrintDoc(d)) || !HoldsPayload(c, d.v)
    ensures !MayCarryPayload(PrintDoc(d)) && Spelled(d.v) ==> !HoldsPayload(c, d.v)
  {
    ValueChanges(c, d.v);
    SizeIsLength(d.v);
    SizeIsLength(StripTree(RulesOf(c), d.v));
    if !MayCarryPayload(PrintDoc(d)) && Spelled(d.v) {
      FilterIsSafe(c, d);
    }
    assert ValidJson(PrintDoc(d));
  }

  // ---- With escapes the filter can miss a payload ----

  const ESCAPED := "ba\\u0073e64"

  lemma EscapedKey()
    ensures IsString(Quote(ESCAPED)) && '\\' in ESCAPED && !HasPrefix(Quote(ESCAPED), "\"data:")
    ensures Name(KnowingCodec(Quote(ESCAPED), "base64"), Quote(ESCAPED)) == "base64"
  {
    var lit := Quote(ESCAPED);
    PlainBody(lit, 9);
    assert lit[3] == '\\' && lit[4] == 'u' && forall k :: 5 <= k < 9 ==> IsHex(lit[k]);
    assert BodyFrom(lit, 3);
    assert BodyFrom(lit, 2);
    assert ESCAPED[2] == '\\';
    assert lit[..6][1] == 'b' && "\"data:"[1] == 'd';
    assert lit[1..|lit| - 1] == ESCAPED;
  }

  lemma TypePart(c: Codec)
    ensures Part(RulesOf(c), Quote("type"), "type", Quote("a/b"), NO_MEDIUM, Medium("a/b", ""), Quote("a/b"))
  {
    PlainReads(c, "type");
    PlainReads(c, "a/b");
    NamesRead(c, Quote("type"), Quote("type"));
    ShortLeft(c, "type", Quote("a/b"), Medium("a/b", ""));
  }

  lemma PayloadPart(c: Codec, k2: string, p: string) returns (repl: string)
    requires IsString(k2) && Name(c, k2) == "base64" && AllA(p) && c.digest(p).Some?
    ensures Part(RulesOf(c), k2, "base64", Quote(p), Medium("a/b", ""), Medium("a/b", ""), repl)
    ensures |repl| < |Quote(p)|
  {
    var md := Medium("a/b", "");
    PlainPayload(p);
    NamesRead(c, k2, k2);
    assert |"base64"| == 6 && "a/b"[1] == '/';
    PayloadTaken(c, "base64", Quote(p), md);
    repl := MemberLiteral(RulesOf(c), Quote(p), "base64", md);
  }

  /** No m and no s, so no needle. */
  predicate Humble(s: string) { 'm' !in s && 's' !in s }

  lemma HumbleHasNone(line: string)
    requires Humble(line)
    ensures !MayCarryPayload(line)
  {
    forall n, k | 0 <= n < |NEEDLES| && 0 <= k <= |line| - |NEEDLES[n]| ensures !OccursAt(line, NEEDLES[n], k) {
      var w := line[k..k + |NEEDLES[n]|];
      assert "base64"[2] == 's' && "mimeType"[0] == 'm' && "mime_type"[0] == 'm' && "media_type"[0] == 'm';
      assert forall i :: 0 <= i < |w| ==> w[i] == line[k + i];
    }
  }

  /** Shorter with a shorter second literal, and without needles. */
  lemma TwoLine(k1: string, l1: string, k2: string, l2: string, repl: string)
    requires Humble(k1) && Humble(l1) && Humble(k2) && Humble(l2) && |repl| < |l2|
    ensures !MayCarryPayload(PrintDoc(TwoDoc(k1, l1, k2, l2))) && |PrintDoc(TwoDoc(k1, l1, k2, l2))| >= |l2|
    ensures |PrintDoc(TwoDoc(k1, l1, k2, repl))| < |PrintDoc(TwoDoc(k1, l1, k2, l2))|
  {
    TwoText(k1, l1, k2, l2);
    TwoText(k1, l1, k2, repl);
    assert Humble(k1 + ":" + l1) && Humble(k2 + ":" + l2);
    HumbleHasNone("{" + (k1 + ":" + l1) + "," + (k2 + ":" + l2) + "}");
  }

  /** A long JSON line that the filter turns away and the scanner would shorten. */
  ghost predicate Missed(c: Codec, d: Doc)
  {
    && WellFormedDoc(d) && |PrintDoc(d)| >= MIN_BYTES && !MayCarryPayload(PrintDoc(d))
    && |PrintDoc(StripDoc(RulesOf(c), d))| < |PrintDoc(d)|
  }

  lemma HumbleParts(p: string)
    requires forall k :: 0 <= k < |p| ==> p[k] == 'A'
    ensures Humble(Quote("type")) && Humble(Quote("a/b")) && Humble(Quote(ESCAPED)) && Humble(Quote(p))
  {
    assert forall k :: 0 < k < |Quote(p)| - 1 ==> Quote(p)[k] == p[k - 1];
  }

  /** Such lines exist: in this one the name base64 is written with an escape. */
  lemma EscapeSlipsPast()
    ensures exists c: Codec, d: Doc :: Missed(c, d)
  {
    EscapedKey();
    var c := KnowingCodec(Quote(ESCAPED), "base64");
    var p := seq(MIN_BYTES, i => 'A');
    PlainPayload(p);
    HumbleParts(p);
    TypePart(c);
    var repl := PayloadPart(c, Quote(ESCAPED), p);
    var md := Medium("a/b", "");
    TwoParts(RulesOf(c), Quote("type"), "type", Quote("a/b"), Quote(ESCAPED), "base64", Quote(p), md, Quote("a/b"), repl);
    PassStrips(RulesOf(c), Quote("type"), Quote("a/b"), Quote(ESCAPED), Quote(p), md, Quote("a/b"), repl);
    TwoLine(Quote("type"), Quote("a/b"), Quote(ESCAPED), Quote(p), repl);
    assert Missed(c, TwoDoc(Quote("type"), Quote("a/b"), Quote(ESCAPED), Quote(p)));
  }
}
