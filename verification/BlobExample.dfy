/** A line on which Strip is not idempotent: its media type is itself a data URL, so only the
    first pass turns it into something that names a type. Objects of two strings, for this and
    other examples. */
module BlobExample {
  import opened Text
  import opened Json
  import opened BlobRules
  import opened BlobMarks
  import opened BlobTree
  import opened BlobStrip
  import opened BlobAgain

  function Quote(s: string): string { "\"" + s + "\"" }

  lemma QuotedPlain(s: string)
    requires Plain(s)
    ensures IsString(Quote(s)) && '\\' !in Quote(s) && Quote(s)[1..|Quote(s)| - 1] == s
  {
    PlainBody(Quote(s), 1);
  }

  lemma PlainReads(c: Codec, s: string)
    requires Plain(s)
    ensures IsString(Quote(s)) && Name(c, Quote(s)) == s && Literal(c, Quote(s)) == Some(s)
  {
    QuotedPlain(s);
  }

  // ---- An object of two strings ----

  function StrMember(key: string, lit: string): Member { Member("", key, "", "", Str(lit), "") }

  /** {<k1>:<l1>,<k2>:<l2>} */
  function TwoDoc(k1: string, l1: string, k2: string, l2: string): Doc
  {
    Doc("", Obj(MoreMembers(StrMember(k1, l1), LastMember(StrMember(k2, l2)))), "")
  }

  lemma TwoText(k1: string, l1: string, k2: string, l2: string)
    ensures PrintDoc(TwoDoc(k1, l1, k2, l2)) == "{" + (k1 + ":" + l1) + "," + (k2 + ":" + l2) + "}"
  {
    var last := LastMember(StrMember(k2, l2));
    assert MemberHead(StrMember(k1, l1)) == k1 + ":" && MemberHead(StrMember(k2, l2)) == k2 + ":";
    assert PrintMembers(last) == k2 + ":" + l2 + "" + "}";
    assert PrintMembers(MoreMembers(StrMember(k1, l1), last)) == k1 + ":" + l1 + "" + "," + PrintMembers(last);
  }

  /** What these rules make of the two strings, with this medium. */
  ghost predicate Pass(rules: Rules, k1: string, l1: string, k2: string, l2: string, md: Medium, r1: string, r2: string)
  {
    && IsString(k1) && IsString(l1) && IsString(k2) && IsString(l2)
    && rules.note(NO_MEDIUM, rules.name(k1), l1) == md == rules.note(md, rules.name(k2), l2)
    && MemberLiteral(rules, l1, rules.name(k1), md) == r1 && MemberLiteral(rules, l2, rules.name(k2), md) == r2
  }

  lemma PassStrips(rules: Rules, k1: string, l1: string, k2: string, l2: string, md: Medium, r1: string, r2: string)
    requires Pass(rules, k1, l1, k2, l2, md, r1, r2)
    ensures WellFormedDoc(TwoDoc(k1, l1, k2, l2))
    ensures StripDoc(rules, TwoDoc(k1, l1, k2, l2)) == TwoDoc(k1, r1, k2, r2)
  {
    var first, last := StrMember(k1, l1), LastMember(StrMember(k2, l2));
    assert WellFormedMembers(last) && WellFormedMembers(MoreMembers(first, last));
    assert NotedMember(rules, NO_MEDIUM, first) == md;
    assert MediumOf(rules, md, last) == md;
    assert StripMembers(rules, last, md) == LastMember(StrMember(k2, r2));
    assert StripMembers(rules, MoreMembers(first, last), md) == MoreMembers(StrMember(k1, r1), LastMember(StrMember(k2, r2)));
  }

  // ---- Single strings ----

  /** A short string is left alone unless its name is that of a payload. */
  lemma ShortLeft(c: Codec, name: string, lit: string, md: Medium)
    requires |lit| >= 2 && |lit| - 2 < MIN_BYTES
    ensures MemberLiteral(RulesOf(c), lit, name, md) == lit
  {
    assert DataUrl(c, lit).None?;
  }

  /** So is a long one that is no data URL and is not admitted. */
  lemma PayloadLeft(c: Codec, name: string, lit: string, md: Medium)
    requires |lit| >= 2 && !HasPrefix(lit, "\"data:") && !Admits(md, name)
    ensures MemberLiteral(RulesOf(c), lit, name, md) == lit
  {
    assert DataUrl(c, lit).None? && ObjectPayload(c, lit, name, md).None?;
  }

  lemma AdmitsKey(md: Medium, name: string)
    requires Admits(md, name)
    ensures IsPayloadKey(name)
  {
  }

  lemma NoUrl(c: Codec, lit: string)
    requires |lit| >= 2 && !HasPrefix(lit, "\"data:")
    ensures DataUrl(c, lit).None?
  {
  }

  lemma OwnWritten(c: Codec, name: string, lit: string, md: Medium)
    requires |lit| >= 2 && DataUrl(c, lit).None? && IsCandidate(name, lit) && ObjectPayload(c, lit, name, md).Some?
    ensures |MemberLiteral(RulesOf(c), lit, name, md)| < |lit|
  {
    ObjectPayloadIsMark(c, lit, name, md);
    RulesWrite(c, lit, name, md);
  }

  /** An admitted payload is replaced by something short. */
  lemma PayloadTaken(c: Codec, name: string, lit: string, md: Medium)
    requires |lit| - 2 >= MIN_BYTES && '\\' !in lit && !HasPrefix(lit, "\"data:")
    requires c.digest(lit[1..|lit| - 1]).Some? && Admits(md, name)
    ensures |MemberLiteral(RulesOf(c), lit, name, md)| < |lit|
  {
    AdmitsKey(md, name);
    PayloadReplaced(c, lit, name, md);
    NoUrl(c, lit);
    OwnWritten(c, name, lit, md);
  }

  /** A data URL with a payload is replaced by a mark, and read as no type. */
  lemma UrlTaken(c: Codec, name: string, lit: string, mime: string, payload: string, md: Medium)
    requires |lit| >= 2 && DataParts(c, lit) == Some((mime, payload))
    requires |payload| >= MIN_BYTES && c.digest(payload).Some?
    ensures Short(c, lit) == "" && IsMark(MemberLiteral(RulesOf(c), lit, name, md))
  {
    PlaceholderIsMark(c, mime, payload);
    assert DataUrl(c, lit).Some?;
    DataUrlIsMark(c, lit);
    assert RulesOf(c).text(lit) == DataUrl(c, lit);
  }

  lemma PlainPayload(p: string)
    requires |p| > 0 && forall k :: 0 <= k < |p| ==> p[k] == 'A'
    ensures Plain(p) && AllBase64(p) && IsString(Quote(p)) && '\\' !in Quote(p)
    ensures !HasPrefix(Quote(p), "\"data:") && Quote(p)[1..|Quote(p)| - 1] == p
  {
    QuotedPlain(p);
    assert Quote(p)[1] == 'A' && "\"data:"[1] == 'd';
  }

  // ---- A codec for examples ----

  const SUM := "0123456789abcdef"

  predicate AllBase64(p: string) { forall k :: 0 <= k < |p| ==> IsBase64(p[k]) }

  lemma {:induction false} Pow10Positive(n: nat)
    ensures Pow10(n) > 0
  {
    if n > 0 {
      Pow10Positive(n - 1);
    }
  }

  function KnowingFunctions(known: string, text: string): CodecFunctions
  {
    CodecFunctions(
      (lit: string) => if lit == known then Some(text) else None,
      (p: string) => if AllBase64(p) then Some(Digest(0, SUM)) else None,
      (m: string) => m)
  }

  lemma KnowingIsLawful(known: string, text: string)
    requires !HasPrefix(known, "\"data:")
    ensures Lawful(KnowingFunctions(known, text))
  {
    Pow10Positive(19);
    SumIsHex();
    assert WellSummed(Digest(0, SUM));
  }

  lemma SumIsHex()
    ensures |SUM| == 16 && forall k :: 0 <= k < 16 ==> IsHex(SUM[k])
  {
  }

  /** Reads a text as base64 exactly when it consists of its characters, and knows how one literal
      unescapes. */
  ghost function KnowingCodec(known: string, text: string): Codec
    requires !HasPrefix(known, "\"data:")
  {
    KnowingIsLawful(known, text);
    KnowingFunctions(known, text)
  }

  // ---- A media type that is a data URL ----

  const HEADER := "data:a/b;base64,"

  lemma HeaderCut(p: string)
    ensures IndexFrom(HEADER + p, ',', 0) == 15
    ensures (HEADER + p)[5..15] == "a/b;base64" && (HEADER + p)[16..] == p
  {
    var t := HEADER + p;
    assert t[15] == HEADER[15] == ',' && forall k :: 0 <= k < 15 ==> t[k] == HEADER[k] != ',';
    assert t[5..15] == HEADER[5..15] == "a/b;base64";
  }

  lemma HeaderStarts(p: string)
    ensures HasPrefix(Quote(HEADER + p), "\"data:")
  {
    assert Quote(HEADER + p)[..6] == "\"data:";
  }

  lemma HeaderEnds()
    ensures HasSuffix("a/b;base64", ";base64")
  {
    assert "a/b;base64"[3..] == ";base64";
  }

  lemma HeaderParts(c: Codec, p: string)
    requires Plain(p) && |p| == MIN_BYTES
    ensures Plain(HEADER + p) && DataParts(c, Quote(HEADER + p)) == Some(("a/b", p))
  {
    assert Plain(HEADER);
    PlainJoin(HEADER, p);
    PlainReads(c, HEADER + p);
    HeaderStarts(p);
    HeaderCut(p);
    HeaderEnds();
    HeaderMime();
  }

  lemma HeaderMime()
    ensures BeforeSemicolon("a/b;base64") == "a/b"
  {
    var h := "a/b;base64";
    assert h[3] == ';' && forall k :: 0 <= k < 3 ==> h[k] != ';';
    assert h[..3] == "a/b";
  }

  /** The first pass cannot read the media type, and replaces it. */
  lemma TypeOnce(c: Codec, p: string) returns (mark: string)
    requires Plain(p) && |p| == MIN_BYTES && c.digest(p).Some?
    ensures var t := Quote(HEADER + p);
            && IsString(t) && Noted(c, NO_MEDIUM, "mimeType", t) == NO_MEDIUM
            && MemberLiteral(RulesOf(c), t, "mimeType", NO_MEDIUM) == mark && IsMark(mark)
  {
    var t := Quote(HEADER + p);
    HeaderParts(c, p);
    QuotedPlain(HEADER + p);
    UrlTaken(c, "mimeType", t, "a/b", p, NO_MEDIUM);
    mark := MemberLiteral(RulesOf(c), t, "mimeType", NO_MEDIUM);
  }

  /** A mark is read as a media type. */
  lemma MarkRead(c: Codec, mark: string)
    requires IsMark(mark)
    ensures Noted(c, NO_MEDIUM, "mimeType", mark) == Medium("", Short(c, mark)) && Short(c, mark) != ""
  {
    assert Short(c, mark) == mark[1..|mark| - 1];
  }

  lemma BlobNoted(c: Codec, md: Medium, lit: string)
    requires |lit| >= 2
    ensures Noted(c, md, "blob", lit) == md
  {
    assert |"blob"| == 4 && "blob"[0] == 'b' && "type"[0] == 't';
  }

  lemma NamesRead(c: Codec, k1: string, k2: string)
    requires |k1| >= 2 && |k2| >= 2
    ensures RulesOf(c).name(k1) == Name(c, k1) && RulesOf(c).name(k2) == Name(c, k2)
    ensures forall md, name, lit :: |lit| >= 2 ==> RulesOf(c).note(md, name, lit) == Noted(c, md, name, lit)
  {
  }

  predicate AllA(p: string) { |p| == MIN_BYTES && forall k :: 0 <= k < |p| ==> p[k] == 'A' }

  /** What the rules read in the parts of {"mimeType":<l>,"blob":<p>}. */
  ghost predicate Part(rules: Rules, key: string, name: string, lit: string, before: Medium, md: Medium, repl: string)
  {
    && IsString(key) && rules.name(key) == name && IsString(lit)
    && rules.note(before, name, lit) == md && MemberLiteral(rules, lit, name, md) == repl
  }

  lemma PartOf(c: Codec, key: string, name: string, lit: string, before: Medium, md: Medium, repl: string)
    requires IsString(key) && RulesOf(c).name(key) == name && IsString(lit)
    requires Noted(c, before, name, lit) == md && MemberLiteral(RulesOf(c), lit, name, md) == repl
    ensures Part(RulesOf(c), key, name, lit, before, md, repl)
  {
  }

  lemma TwoParts(rules: Rules, k1: string, n1: string, l1: string, k2: string, n2: string, l2: string, md: Medium, r1: string, r2: string)
    requires Part(rules, k1, n1, l1, NO_MEDIUM, md, r1) && Part(rules, k2, n2, l2, md, md, r2)
    ensures Pass(rules, k1, l1, k2, l2, md, r1, r2)
  {
  }

  /** A key literal that stands for this name. */
  ghost predicate Named(c: Codec, key: string, name: string) { IsString(key) && RulesOf(c).name(key) == name }

  lemma NameRead(c: Codec, name: string)
    requires Plain(name)
    ensures Named(c, Quote(name), name)
  {
    PlainReads(c, name);
  }

  lemma TypePart(c: Codec, key: string, p: string) returns (mark: string)
    requires AllA(p) && c.digest(p).Some? && Named(c, key, "mimeType")
    ensures Part(RulesOf(c), key, "mimeType", Quote(HEADER + p), NO_MEDIUM, NO_MEDIUM, mark)
    ensures IsMark(mark)
  {
    mark := TypeOnce(c, p);
    PartOf(c, key, "mimeType", Quote(HEADER + p), NO_MEDIUM, NO_MEDIUM, mark);
  }

  lemma MarkPart(c: Codec, key: string, mark: string) returns (md: Medium)
    requires IsMark(mark) && Named(c, key, "mimeType")
    ensures Part(RulesOf(c), key, "mimeType", mark, NO_MEDIUM, md, mark) && md.mime != "" && md.typ == ""
  {
    MarkRead(c, mark);
    md := Medium("", Short(c, mark));
    ShortLeft(c, "mimeType", mark, md);
    PartOf(c, key, "mimeType", mark, NO_MEDIUM, md, mark);
  }

  /** The payload stays without a media type, and goes with one. */
  lemma BlobWritten(c: Codec, p: string, md: Medium)
    requires AllA(p) && c.digest(p).Some? && md.typ == ""
    ensures var repl := MemberLiteral(RulesOf(c), Quote(p), "blob", md);
            if md.mime == "" then repl == Quote(p) else |repl| < |Quote(p)|
  {
    PlainPayload(p);
    if md.mime == "" {
      PayloadLeft(c, "blob", Quote(p), md);
    } else {
      PayloadTaken(c, "blob", Quote(p), md);
    }
  }

  lemma BlobPart(c: Codec, key: string, p: string, md: Medium) returns (repl: string)
    requires AllA(p) && c.digest(p).Some? && md.typ == "" && Named(c, key, "blob")
    ensures Part(RulesOf(c), key, "blob", Quote(p), md, md, repl)
    ensures if md.mime == "" then repl == Quote(p) else |repl| < |Quote(p)|
  {
    PlainPayload(p);
    BlobNoted(c, md, Quote(p));
    BlobWritten(c, p, md);
    repl := MemberLiteral(RulesOf(c), Quote(p), "blob", md);
    PartOf(c, key, "blob", Quote(p), md, md, repl);
  }

  lemma NameInside(name: string, l1: string, rest: string)
    ensures "{" + (Quote(name) + ":" + l1) + "," + rest + "}" == "{\"" + name + ("\":" + l1 + "," + rest + "}")
  {
    assert Quote(name) + ":" + l1 == "\"" + name + ("\":" + l1);
    assert "{" + ("\"" + name + ("\":" + l1)) == "{\"" + name + ("\":" + l1);
  }

  lemma TwoOpened(name: string, l1: string, k2: string, l2: string)
    requires WellFormedDoc(TwoDoc(Quote(name), l1, k2, l2)) && |l2| >= MIN_BYTES && MayCarryPayload(name)
    ensures Opened(PrintDoc(TwoDoc(Quote(name), l1, k2, l2)))
  {
    var rest := k2 + ":" + l2;
    TwoText(Quote(name), l1, k2, l2);
    NameInside(name, l1, rest);
    WholeHas("{\"", name, "\":" + l1 + "," + rest + "}");
  }

  /** Two passes over a line that both look into it. */
  lemma BothOpened(rules: Rules, name: string, t: string, k2: string, q: string, md: Medium, mark: string, repl: string)
    requires Pass(rules, Quote(name), t, k2, q, NO_MEDIUM, mark, q) && Pass(rules, Quote(name), mark, k2, q, md, mark, repl)
    requires |q| >= MIN_BYTES && MayCarryPayload(name)
    ensures var d, once := TwoDoc(Quote(name), t, k2, q), TwoDoc(Quote(name), mark, k2, q);
            && WellFormedDoc(d) && Opened(PrintDoc(d)) && StripDoc(rules, d) == once
            && WellFormedDoc(once) && Opened(PrintDoc(once)) && StripDoc(rules, once) == TwoDoc(Quote(name), mark, k2, repl)
  {
    PassStrips(rules, Quote(name), t, k2, q, NO_MEDIUM, mark, q);
    PassStrips(rules, Quote(name), mark, k2, q, md, mark, repl);
    TwoOpened(name, t, k2, q);
    TwoOpened(name, mark, k2, q);
  }

  /** The second pass changes what the first one left. */
  lemma ChangedTwice(c: Codec, name: string, t: string, k2: string, q: string, md: Medium, mark: string, repl: string) returns (d: Doc)
    requires Pass(RulesOf(c), Quote(name), t, k2, q, NO_MEDIUM, mark, q) && Pass(RulesOf(c), Quote(name), mark, k2, q, md, mark, repl)
    requires |q| >= MIN_BYTES && MayCarryPayload(name) && repl != q
    ensures WellFormedDoc(d) && StripLine(c, StripLine(c, d)) != StripLine(c, d)
  {
    BothOpened(RulesOf(c), name, t, k2, q, md, mark, repl);
    d := TwoDoc(Quote(name), t, k2, q);
  }

  lemma NamesNeedle()
    ensures MayCarryPayload("mimeType")
  {
    assert NEEDLES[1] == "mimeType" && OccursAt("mimeType", NEEDLES[1], 0);
  }

  /** The first pass reads no media type, so it leaves the payload. */
  lemma FirstPass(c: Codec, k1: string, k2: string, p: string) returns (mark: string)
    requires AllA(p) && c.digest(p).Some? && Named(c, k1, "mimeType") && Named(c, k2, "blob")
    ensures IsMark(mark) && Pass(RulesOf(c), k1, Quote(HEADER + p), k2, Quote(p), NO_MEDIUM, mark, Quote(p))
  {
    mark := TypePart(c, k1, p);
    var same := BlobPart(c, k2, p, NO_MEDIUM);
    TwoParts(RulesOf(c), k1, "mimeType", Quote(HEADER + p), k2, "blob", Quote(p), NO_MEDIUM, mark, Quote(p));
  }

  /** The second reads the mark, and replaces it. */
  lemma LaterPass(c: Codec, k1: string, k2: string, mark: string, p: string) returns (md: Medium, repl: string)
    requires AllA(p) && c.digest(p).Some? && Named(c, k1, "mimeType") && Named(c, k2, "blob") && IsMark(mark)
    ensures Pass(RulesOf(c), k1, mark, k2, Quote(p), md, mark, repl) && repl != Quote(p)
  {
    md := MarkPart(c, k1, mark);
    repl := BlobPart(c, k2, p, md);
    TwoParts(RulesOf(c), k1, "mimeType", mark, k2, "blob", Quote(p), md, mark, repl);
  }

  /** The example for any codec that reads the payload. */
  lemma Example(c: Codec, name: string, k2: string, p: string) returns (d: Doc)
    requires AllA(p) && c.digest(p).Some? && name == "mimeType" && Named(c, Quote(name), name) && Named(c, k2, "blob")
    requires MayCarryPayload(name)
    ensures WellFormedDoc(d) && StripLine(c, StripLine(c, d)) != StripLine(c, d)
  {
    var mark := FirstPass(c, Quote(name), k2, p);
    var md, repl := LaterPass(c, Quote(name), k2, mark, p);
    d := ChangedTwice(c, name, Quote(HEADER + p), k2, Quote(p), md, mark, repl);
  }

  lemma MimeName(c: Codec) returns (name: string)
    ensures name == "mimeType" && Named(c, Quote(name), name) && MayCarryPayload(name)
  {
    name := "mimeType";
    NameRead(c, name);
    NamesNeedle();
  }

  lemma BlobName(c: Codec) returns (key: string)
    ensures Named(c, key, "blob")
  {
    key := Quote("blob");
    NameRead(c, "blob");
  }

  /** Strip is not idempotent on every line. */
  lemma NotIdempotent()
    ensures exists c: Codec, d: Doc :: WellFormedDoc(d) && StripLine(c, StripLine(c, d)) != StripLine(c, d)
  {
    var p := seq(MIN_BYTES, i => 'A');
    PlainPayload(p);
    var c := KnowingCodec("", "");
    var name := MimeName(c);
    var k2 := BlobName(c);
    var d := Example(c, name, k2, p);
  }
}
