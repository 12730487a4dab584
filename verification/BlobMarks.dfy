/** What blobstrip writes in place of a payload, and when it does: decisions on single string
    literals. Base64 decoding, SHA-256, JSON unescaping and letter case are abstract functions. */
module BlobMarks {
  import opened Text
  import opened Json
  import opened BlobRules

  const SHORT_BYTES := 256
  const PREFIX := "[ghosttree: "
  const UNKNOWN_MIME := "application/octet-stream"

  datatype Digest = Digest(size: nat, sum: string)

  /** The library functions blobstrip calls. `unescape` decodes a JSON string literal
      (json.Unmarshal), `digest` reads a payload as base64 and hashes the bytes, `normalize`
      trims and lower-cases a media type. */
  datatype CodecFunctions = CodecFunctions(
    unescape: string -> Option<string>,
    digest: string -> Option<Digest>,
    normalize: string -> string)

  predicate IsBase64(c: char)
  {
    'A' <= c <= 'Z' || 'a' <= c <= 'z' || IsDigit(c) || c in "+/-_=\r\n"
  }

  /** A digested payload consists of base64 characters, padding and line breaks; its size fits
      64 bits and its hash is 16 hex digits. Unescaping keeps a start that has no escape. */
  ghost predicate Lawful(c: CodecFunctions)
  {
    && (forall p {:trigger c.digest(p)} :: c.digest(p).Some? ==>
          && (forall k :: 0 <= k < |p| ==> IsBase64(p[k]))
          && c.digest(p).value.size < Pow10(19)
          && |c.digest(p).value.sum| == 16
          && forall k :: 0 <= k < 16 ==> IsHex(c.digest(p).value.sum[k]))
    && (forall lit {:trigger c.unescape(lit)} ::
          HasPrefix(lit, "\"data:") && c.unescape(lit).Some? ==> HasPrefix(c.unescape(lit).value, "data:"))
  }

  type Codec = c: CodecFunctions | Lawful(c)
    ghost witness CodecFunctions((s: string) => None, (s: string) => None, (s: string) => s)

  // ---- Reading literals ----

  function Literal(c: Codec, lit: string): Option<string>
    requires |lit| >= 2
  {
    if '\\' !in lit then Some(lit[1..|lit| - 1]) else c.unescape(lit)
  }

  function Short(c: Codec, lit: string): string
    requires |lit| >= 2
  {
    if |lit| > SHORT_BYTES then ""
    else match Literal(c, lit) case Some(s) => s case None => ""
  }

  /** The name a key literal (with quotes) stands for. */
  function Name(c: Codec, key: string): string
    requires |key| >= 2
  {
    if '\\' !in key[1..|key| - 1] then key[1..|key| - 1]
    else match c.unescape("\"" + key[1..|key| - 1] + "\"") case Some(s) => s case None => ""
  }

  // ---- The placeholder ----

  function BeforeSemicolon(m: string): string
  {
    var k := IndexFrom(m, ';', 0);
    if k == -1 then m else m[..k]
  }

  function SlashCount(m: string): nat
  {
    if m == "" then 0 else (if m[0] == '/' then 1 else 0) + SlashCount(m[1..])
  }

  predicate IsMimeChar(c: char)
  {
    'a' <= c <= 'z' || IsDigit(c) || c in "/.+-_"
  }

  function CleanMime(c: Codec, m: string): (r: string)
    ensures |r| <= 100 && '/' in r && forall k :: 0 <= k < |r| ==> IsMimeChar(r[k])
  {
    var t := c.normalize(BeforeSemicolon(m));
    assert UNKNOWN_MIME[11] == '/';
    if |t| == 0 || |t| > 100 || SlashCount(t) != 1 || (exists k :: 0 <= k < |t| && !IsMimeChar(t[k]))
    then UNKNOWN_MIME
    else SlashOccurs(t); t
  }

  lemma {:induction false} SlashOccurs(m: string)
    ensures SlashCount(m) > 0 ==> '/' in m
  {
    if m != "" {
      SlashOccurs(m[1..]);
    }
  }

  function KindOf(mime: string): string
  {
    if HasPrefix(mime, "image/") then "Bild"
    else if HasPrefix(mime, "audio/") then "Audio"
    else if HasPrefix(mime, "video/") then "Video"
    else if mime == "application/pdf" then "PDF"
    else "Datei"
  }

  function Placeholder(c: Codec, mime: string, d: Digest): string
  {
    var m := CleanMime(c, mime);
    Announcing(m) + m + Describing(d)
  }

  function Announcing(m: string): string { PREFIX + KindOf(m) + " entfernt, " }

  function Describing(d: Digest): string { ", " + Itoa(d.size) + " Bytes, sha256:" + d.sum + "]" }

  predicate PlainChar(c: char) { c >= ' ' && c != '"' && c != '\\' }

  /** A string literal that a placeholder can be: valid, short, unescaped, and naming a type
      with a slash. */
  ghost predicate IsMark(lit: string)
  {
    IsString(lit) && |lit| < SHORT_BYTES && '\\' !in lit && '/' in lit[1..|lit| - 1]
  }

  predicate Plain(s: string) { forall k :: 0 <= k < |s| ==> PlainChar(s[k]) }

  lemma PlainJoin(a: string, b: string)
    requires Plain(a) && Plain(b)
    ensures Plain(a + b)
  {
  }

  lemma AnnouncingText(m: string)
    ensures Plain(Announcing(m)) && |Announcing(m)| <= 40
  {
    assert Plain(PREFIX) && Plain(KindOf(m)) && Plain(" entfernt, ");
    PlainJoin(PREFIX, KindOf(m));
  }

  lemma PlainFive(a: string, b: string, d: string, e: string, f: string)
    requires Plain(a) && Plain(b) && Plain(d) && Plain(e) && Plain(f)
    ensures Plain(a + b + d + e + f)
  {
    PlainJoin(a, b);
    PlainJoin(a + b, d);
    PlainJoin(a + b + d, e);
  }

  lemma PlainNumber(n: nat, d: nat)
    requires d > 0 && n < Pow10(d)
    ensures Plain(Itoa(n)) && |Itoa(n)| <= d
  {
    ItoaLength(n, d);
  }

  predicate WellSummed(d: Digest)
  {
    d.size < Pow10(19) && |d.sum| == 16 && forall k :: 0 <= k < 16 ==> IsHex(d.sum[k])
  }

  lemma PlainSum(d: Digest)
    requires WellSummed(d)
    ensures Plain(d.sum)
  {
  }

  lemma DescribingText(d: Digest)
    requires WellSummed(d)
    ensures Plain(Describing(d)) && |Describing(d)| <= 59
  {
    PlainNumber(d.size, 19);
    PlainSum(d);
    PlainFive(", ", Itoa(d.size), " Bytes, sha256:", d.sum, "]");
  }

  lemma PlaceholderText(c: Codec, mime: string, d: Digest)
    requires WellSummed(d)
    ensures Plain(Placeholder(c, mime, d)) && |Placeholder(c, mime, d)| < 200
  {
    var m := CleanMime(c, mime);
    AnnouncingText(m);
    DescribingText(d);
    assert Plain(m);
    PlainJoin(Announcing(m), m);
    PlainJoin(Announcing(m) + m, Describing(d));
  }

  lemma PlaceholderHasSlash(c: Codec, mime: string, d: Digest)
    ensures '/' in Placeholder(c, mime, d)
  {
    var m := CleanMime(c, mime);
    Within(Announcing(m), m, Describing(d), '/');
  }

  lemma Within(a: string, m: string, b: string, x: char)
    requires x in m
    ensures x in a + m + b
  {
    var k :| 0 <= k < |m| && m[k] == x;
    assert (a + m + b)[|a| + k] == x;
  }

  lemma PlaceholderIsMark(c: Codec, mime: string, payload: string)
    requires c.digest(payload).Some?
    ensures IsMark("\"" + Placeholder(c, mime, c.digest(payload).value) + "\"")
  {
    var d := c.digest(payload).value;
    var text := Placeholder(c, mime, d);
    PlaceholderText(c, mime, d);
    PlaceholderHasSlash(c, mime, d);
    var lit := "\"" + text + "\"";
    assert lit[1..|lit| - 1] == text;
    assert forall k :: 1 <= k < |lit| - 1 ==> lit[k] == text[k - 1];
    PlainBody(lit, 1);
  }

  // ---- Decisions on one literal ----

  /** scanner.replace: the literal to write instead, if any. */
  function Replacement(c: Codec, lit: string, mime: string, payload: string): Option<string>
  {
    if |payload| < MIN_BYTES then None
    else match c.digest(payload)
      case None => None
      case Some(d) =>
        var repl := "\"" + Placeholder(c, mime, d) + "\"";
        if |repl| >= |lit| then None else Some(repl)
  }

  /** The media type and payload of a literal data:<mime>;base64,<payload>. */
  function DataParts(c: Codec, lit: string): Option<(string, string)>
    requires |lit| >= 2
  {
    if |lit| - 2 < MIN_BYTES || !HasPrefix(lit, "\"data:") then None
    else match Literal(c, lit)
      case None => None
      case Some(text) =>
        assert HasPrefix(text, "data:") by { DataPrefix(c, lit); }
        var comma := IndexFrom(text, ',', 0);
        if comma < 0 || comma > 256 then None
        else
          assert forall k :: 0 <= k < 5 ==> text[k] == text[..5][k] == "data:"[k] != ',';
          var header := text[5..comma];
          if !HasSuffix(header, ";base64") then None
          else Some((BeforeSemicolon(header), text[comma + 1..]))
  }

  /** scanner.dataURL */
  function DataUrl(c: Codec, lit: string): Option<string>
    requires |lit| >= 2
  {
    match DataParts(c, lit)
    case None => None
    case Some((mime, payload)) => Replacement(c, lit, mime, payload)
  }

  lemma DataPrefix(c: Codec, lit: string)
    requires |lit| >= 7 && HasPrefix(lit, "\"data:")
    ensures Literal(c, lit).Some? ==> HasPrefix(Literal(c, lit).value, "data:")
  {
    if '\\' !in lit {
      assert lit[..6] == "\"data:";
      assert forall k :: 0 <= k < 5 ==> lit[k + 1] == lit[..6][k + 1] == "data:"[k];
    }
  }

  predicate IsMimeKey(name: string) { name == "mimeType" || name == "media_type" || name == "mime_type" }

  /** The object's medium after one more string member. */
  function Noted(c: Codec, md: Medium, name: string, lit: string): Medium
    requires |lit| >= 2
  {
    if name == "type" then md.(typ := Short(c, lit))
    else if IsMimeKey(name) && md.mime == "" && '/' in Short(c, lit) then md.(mime := Short(c, lit))
    else md
  }

  /** Whether the object declares itself a medium for a payload under this name. */
  predicate Admits(md: Medium, name: string)
  {
    (name == "data" && (md.typ == "base64" || md.mime != "")) ||
    (name == "base64" && (md.mime != "" || '/' in md.typ)) ||
    (name == "blob" && md.mime != "")
  }

  function MimeFor(md: Medium, name: string): string
  {
    if name == "base64" && md.mime == "" then md.typ else md.mime
  }

  /** scanner.objectPayload */
  function ObjectPayload(c: Codec, lit: string, name: string, md: Medium): Option<string>
    requires |lit| >= 2
  {
    if !Admits(md, name) then None
    else match Literal(c, lit)
      case None => None
      case Some(payload) => Replacement(c, lit, MimeFor(md, name), payload)
  }

  /** The rules of blobstrip. */
  function RulesOf(c: Codec): Rules
  {
    Rules(
      (key: string) => if |key| >= 2 then Name(c, key) else "",
      (lit: string) => if |lit| >= 2 then DataUrl(c, lit) else None,
      (lit: string, name: string, md: Medium) => if |lit| >= 2 then ObjectPayload(c, lit, name, md) else None,
      (md: Medium, name: string, lit: string) => if |lit| >= 2 then Noted(c, md, name, lit) else md)
  }

  /** What is written for a string member. */
  function Written(c: Codec, lit: string, name: string, md: Medium): string
    requires |lit| >= 2
  {
    match DataUrl(c, lit)
    case Some(repl) => repl
    case None =>
      if IsCandidate(name, lit) then
        match ObjectPayload(c, lit, name, md) case Some(repl) => repl case None => lit
      else lit
  }

  lemma RulesWrite(c: Codec, lit: string, name: string, md: Medium)
    requires |lit| >= 2
    ensures MemberLiteral(RulesOf(c), lit, name, md) == Written(c, lit, name, md)
    ensures PlainLiteral(RulesOf(c), lit) == match DataUrl(c, lit) case Some(repl) => repl case None => lit
  {
    assert RulesOf(c).text(lit) == DataUrl(c, lit) && RulesOf(c).payload(lit, name, md) == ObjectPayload(c, lit, name, md);
  }

  // ---- What the decisions guarantee ----

  lemma ReplacementIsMark(c: Codec, lit: string, mime: string, payload: string)
    ensures var r := Replacement(c, lit, mime, payload);
            r.Some? ==> IsMark(r.value) && |r.value| < |lit|
  {
    if |payload| >= MIN_BYTES && c.digest(payload).Some? {
      PlaceholderIsMark(c, mime, payload);
    }
  }

  lemma DataUrlIsMark(c: Codec, lit: string)
    requires |lit| >= 2
    ensures DataUrl(c, lit).Some? ==>
              IsMark(DataUrl(c, lit).value) && |DataUrl(c, lit).value| < |lit| && |lit| - 2 >= MIN_BYTES
  {
    if DataUrl(c, lit).Some? {
      var (mime, payload) := DataParts(c, lit).value;
      ReplacementIsMark(c, lit, mime, payload);
    }
  }

  lemma ObjectPayloadIsMark(c: Codec, lit: string, name: string, md: Medium)
    requires |lit| >= 2
    ensures var r := ObjectPayload(c, lit, name, md);
            r.Some? ==> IsMark(r.value) && |r.value| < |lit|
  {
    if Admits(md, name) && Literal(c, lit).Some? {
      ReplacementIsMark(c, lit, MimeFor(md, name), Literal(c, lit).value);
    }
  }

  lemma ColonIsNoBase64(c: Codec, p: string)
    requires HasPrefix(p, "data:")
    ensures c.digest(p).None?
  {
    assert p[4] == p[..5][4] == ':';
    assert !IsBase64(p[4]);
  }

  /** A literal that reads as a data URL is never also taken for a bare payload: its text holds
      a colon, and no base64 payload does. */
  lemma DataUrlIsNoPayload(c: Codec, lit: string, name: string, md: Medium)
    requires |lit| >= 2 && DataUrl(c, lit).Some?
    ensures ObjectPayload(c, lit, name, md).None?
  {
    DataPrefix(c, lit);
    ColonIsNoBase64(c, Literal(c, lit).value);
  }

  lemma RulesOfSound(c: Codec)
    ensures Sound(RulesOf(c))
  {
    var r := RulesOf(c);
    forall lit | IsString(lit) && r.text(lit).Some?
      ensures IsString(r.text(lit).value) && |r.text(lit).value| < |lit|
    {
      DataUrlIsMark(c, lit);
    }
    forall lit, name, md | IsString(lit) && r.payload(lit, name, md).Some?
      ensures IsString(r.payload(lit, name, md).value) && |r.payload(lit, name, md).value| < |lit|
      ensures r.text(lit).None?
    {
      ObjectPayloadIsMark(c, lit, name, md);
      if r.text(lit).Some? {
        DataUrlIsNoPayload(c, lit, name, md);
      }
    }
  }
}
