/** What the stripped line tells: a reference for blobstrip's marks and for where they stand, in terms
    of the payloads, and the proof that the transformation writes exactly that. */
module BlobTold {
  import opened Text
  import opened Json
  import opened BlobRules
  import opened BlobMarks
  import opened BlobTree
  import opened BlobStrip
  import opened BlobAgain
  import opened BlobFilter

  // ---- What a mark tells ----

  datatype Mark = Mark(kind: string, medium: string, size: nat, sum: string)

  /** A decimal numeral without leading zeros, and its value. */
  predicate Decimal(n: string, size: nat)
  {
    n != "" && (forall k :: 0 <= k < |n| ==> IsDigit(n[k])) && (n[0] == '0' ==> |n| == 1) && ValueOf(n) == size
  }

  function MarkText(m: Mark, n: string): string
  {
    "\"[ghosttree: " + m.kind + " entfernt, " + m.medium + ", " + n + " Bytes, sha256:" + m.sum + "]\""
  }

  ghost predicate Tells(lit: string, m: Mark) { exists n :: Decimal(n, m.size) && lit == MarkText(m, n) }

  /** Kind and medium hold no separator, and the sum has its 16 digits. */
  predicate Tidy(m: Mark) { ' ' !in m.kind && ',' !in m.medium && |m.sum| == 16 }

  predicate TypeChar(ch: char)
  {
    'a' <= ch <= 'z' || '0' <= ch <= '9' || ch == '/' || ch == '.' || ch == '+' || ch == '-' || ch == '_'
  }

  /** type/subtype: 1 to 100 of these characters, one of them a slash. */
  ghost predicate IsType(t: string)
  {
    && 1 <= |t| <= 100 && (forall k :: 0 <= k < |t| ==> TypeChar(t[k]))
    && exists k :: 0 <= k < |t| && OnlyAt(t, k, '/')
  }

  predicate OnlyAt(t: string, k: nat, c: char)
    requires k < |t|
  {
    t[k] == c && forall j :: 0 <= j < |t| && t[j] == c ==> j == k
  }

  /** The part before the first semicolon. */
  predicate Front(m: string, p: string)
  {
    p <= m && ';' !in p && (|p| < |m| ==> m[|p|] == ';')
  }

  ghost predicate RightMedium(c: Codec, declared: string, medium: string)
  {
    exists p :: Front(declared, p) && medium == if IsType(c.normalize(p)) then c.normalize(p) else "application/octet-stream"
  }

  /** family/... */
  predicate OfFamily(medium: string, family: string)
  {
    |family| < |medium| && medium[..|family|] == family && medium[|family|] == '/'
  }

  predicate RightKind(medium: string, kind: string)
  {
    kind == if OfFamily(medium, "image") then "Bild"
            else if OfFamily(medium, "audio") then "Audio"
            else if OfFamily(medium, "video") then "Video"
            else if medium == "application/pdf" then "PDF"
            else "Datei"
  }

  /** The digest can read the payload, and it is worth it. */
  predicate Readable(c: Codec, payload: string) { |payload| >= 1024 && c.digest(payload).Some? }

  /** A mark of this payload, declared as this. */
  ghost predicate TellsOf(c: Codec, lit: string, declared: string, payload: string)
    requires c.digest(payload).Some?
  {
    exists kind, medium ::
      && RightMedium(c, declared, medium) && RightKind(medium, kind)
      && Tells(lit, Mark(kind, medium, c.digest(payload).value.size, c.digest(payload).value.sum))
  }

  // ---- What a line holds ----

  predicate Decodes(c: Codec, lit: string, text: string)
  {
    if '\\' in lit then c.unescape(lit) == Some(text) else lit == "\"" + text + "\""
  }

  /** data:<header>,<payload>, spelled as a long literal. */
  predicate Url(c: Codec, lit: string, header: string, payload: string)
  {
    && |lit| >= 1026 && HasPrefix(lit, "\"data:") && Decodes(c, lit, "data:" + header + "," + payload)
    && ',' !in header && |header| <= 251 && HasSuffix(header, ";base64")
  }

  /** An object that says this of itself declares a medium for a payload under this name. */
  predicate Declared(name: string, typ: string, mime: string)
  {
    match name
    case "data" => typ == "base64" || mime != ""
    case "base64" => mime != "" || '/' in typ
    case "blob" => mime != ""
    case _ => false
  }

  predicate Own(c: Codec, lit: string, name: string, typ: string, mime: string, text: string)
  {
    |lit| >= 1026 && Declared(name, typ, mime) && Decodes(c, lit, text) && Readable(c, text)
  }

  ghost predicate HoldsUrlPayload(c: Codec, lit: string)
  {
    exists header, payload :: Url(c, lit, header, payload) && Readable(c, payload)
  }

  /** A string that is no member of an object. */
  ghost predicate PlainTold(c: Codec, lit: string, out: string)
  {
    && (forall header, payload :: Url(c, lit, header, payload) && Readable(c, payload) ==> TellsOf(c, out, header, payload))
    && (!HoldsUrlPayload(c, lit) ==> out == lit)
  }

  /** A member of this name, in an object that says this of itself. */
  ghost predicate MemberTold(c: Codec, lit: string, name: string, typ: string, mime: string, out: string)
  {
    && (forall header, payload :: Url(c, lit, header, payload) && Readable(c, payload) ==> TellsOf(c, out, header, payload))
    && (forall text :: Own(c, lit, name, typ, mime, text) ==>
          TellsOf(c, out, if name == "base64" && mime == "" then typ else mime, text))
    && (!HoldsUrlPayload(c, lit) && (forall text :: !Own(c, lit, name, typ, mime, text)) ==> out == lit)
  }

  /** The string members of an object: their names, and their texts where those are short. */
  function Said(c: Codec, members: Members): seq<(string, string)>
    requires WellFormedMembers(members)
    decreases members
  {
    if members.MoreMembers? then SaidBy(c, members.m) + Said(c, members.rest) else SaidBy(c, members.m)
  }

  function SaidBy(c: Codec, m: Member): seq<(string, string)>
    requires MemberParts(m) && WellFormed(m.v)
  {
    if m.v.Str? then [(KeyText(c, m.key), ShortText(c, m.v.lit))] else []
  }

  function KeyText(c: Codec, key: string): string
    requires IsString(key)
  {
    if '\\' !in key then key[1..|key| - 1] else match c.unescape(key) case Some(s) => s case None => ""
  }

  function ShortText(c: Codec, lit: string): string
    requires IsString(lit)
  {
    if |lit| > 256 then ""
    else if '\\' !in lit then lit[1..|lit| - 1]
    else match c.unescape(lit) case Some(s) => s case None => ""
  }

  predicate NamesMedium(x: (string, string))
  {
    x.0 in {"mimeType", "media_type", "mime_type"} && '/' in x.1
  }

  predicate LastType(said: seq<(string, string)>, i: nat)
  {
    i < |said| && said[i].0 == "type" && forall k :: i < k < |said| ==> said[k].0 != "type"
  }

  predicate FirstMedium(said: seq<(string, string)>, i: nat)
  {
    i < |said| && NamesMedium(said[i]) && forall k :: 0 <= k < i ==> !NamesMedium(said[k])
  }

  /** The text of the last "type"; "" for none. */
  ghost predicate SaysType(said: seq<(string, string)>, typ: string)
  {
    || (exists i: nat :: LastType(said, i) && said[i].1 == typ)
    || (typ == "" && forall i :: 0 <= i < |said| ==> said[i].0 != "type")
  }

  /** The first media type with a slash; "" for none. */
  ghost predicate SaysMedium(said: seq<(string, string)>, mime: string)
  {
    || (exists i: nat :: FirstMedium(said, i) && said[i].1 == mime)
    || (mime == "" && forall i :: 0 <= i < |said| ==> !NamesMedium(said[i]))
  }

  ghost predicate Says(said: seq<(string, string)>, typ: string, mime: string)
  {
    SaysType(said, typ) && SaysMedium(said, mime)
  }

  // ---- The line after ----

  ghost predicate Told(c: Codec, v: Value, w: Value)
    requires WellFormed(v)
    decreases v, 0
  {
    match v
    case Str(lit) => w.Str? && PlainTold(c, lit, w.lit)
    case Arr(items) => w.Arr? && ItemsTold(c, items, w.items)
    case Obj(members) =>
      w.Obj? && exists typ, mime :: Says(Said(c, members), typ, mime) && MembersTold(c, members, typ, mime, w.members)
    case _ => w == v
  }

  ghost predicate ItemsTold(c: Codec, items: Items, out: Items)
    requires WellFormedItems(items)
    decreases items, 0
  {
    && items.MoreItems? == out.MoreItems? && out.pre == items.pre && out.post == items.post && Told(c, items.v, out.v)
    && (items.MoreItems? ==> ItemsTold(c, items.rest, out.rest))
  }

  ghost predicate MembersTold(c: Codec, members: Members, typ: string, mime: string, out: Members)
    requires WellFormedMembers(members)
    decreases members, 0
  {
    var m := members.m;
    && members.MoreMembers? == out.MoreMembers? && out.m == m.(v := out.m.v)
    && (if m.v.Str? then out.m.v.Str? && MemberTold(c, m.v.lit, KeyText(c, m.key), typ, mime, out.m.v.lit) else Told(c, m.v, out.m.v))
    && (members.MoreMembers? ==> MembersTold(c, members.rest, typ, mime, out.rest))
  }

  // ---- A mark tells one thing ----

  const OPENING := "\"[ghosttree: "

  function SizeText(n: string, sum: string): string { n + [' '] + ("Bytes, sha256:" + (sum + "]\"")) }

  function MediumText(medium: string, rest: string): string { medium + [','] + (" " + rest) }

  lemma SizeCuts(n: string, sum: string)
    ensures n + " Bytes, sha256:" + sum + "]\"" == SizeText(n, sum)
  {
    assert " Bytes, sha256:" == [' '] + "Bytes, sha256:";
  }

  lemma MediumCuts(medium: string, rest: string)
    ensures medium + ", " + rest == MediumText(medium, rest)
  {
    assert ", " == [','] + " ";
  }

  lemma KindCuts(kind: string, rest: string)
    ensures OPENING + kind + " entfernt, " + rest == OPENING + (kind + [' '] + ("entfernt, " + rest))
  {
    assert " entfernt, " == [' '] + "entfernt, ";
  }

  lemma Ends(a: string, medium: string, n: string, sum: string)
    ensures a + medium + ", " + n + " Bytes, sha256:" + sum + "]\"" == a + (medium + ", " + (n + " Bytes, sha256:" + sum + "]\""))
  {
  }

  /** The text of a mark, cut where its reader cuts it. */
  lemma MarkCuts(m: Mark, n: string)
    ensures MarkText(m, n) == OPENING + (m.kind + [' '] + ("entfernt, " + MediumText(m.medium, SizeText(n, m.sum))))
  {
    Ends(OPENING + m.kind + " entfernt, ", m.medium, n, m.sum);
    SizeCuts(n, m.sum);
    MediumCuts(m.medium, SizeText(n, m.sum));
    KindCuts(m.kind, MediumText(m.medium, SizeText(n, m.sum)));
  }

  lemma SameSize(n: string, sum: string, n': string, sum': string)
    requires SizeText(n, sum) == SizeText(n', sum') && ' ' !in n && ' ' !in n'
    ensures n == n' && sum == sum'
  {
    SameHead(n, n', "Bytes, sha256:" + (sum + "]\""), "Bytes, sha256:" + (sum' + "]\""), ' ');
    SameBack("Bytes, sha256:", sum + "]\"", sum' + "]\"");
    SameFront(sum, sum', "]\"");
  }

  lemma SameMedium(medium: string, rest: string, medium': string, rest': string)
    requires MediumText(medium, rest) == MediumText(medium', rest') && ',' !in medium && ',' !in medium'
    ensures medium == medium' && rest == rest'
  {
    SameHead(medium, medium', " " + rest, " " + rest', ',');
    SameBack(" ", rest, rest');
  }

  lemma SameMarkText(a: Mark, n: string, b: Mark, n': string)
    requires MarkText(a, n) == MarkText(b, n') && Tidy(a) && Tidy(b) && ' ' !in n && ' ' !in n'
    ensures a.kind == b.kind && a.medium == b.medium && n == n' && a.sum == b.sum
  {
    MarkCuts(a, n);
    MarkCuts(b, n');
    var x, y := "entfernt, " + MediumText(a.medium, SizeText(n, a.sum)), "entfernt, " + MediumText(b.medium, SizeText(n', b.sum));
    SameBack(OPENING, a.kind + [' '] + x, b.kind + [' '] + y);
    SameHead(a.kind, b.kind, x, y, ' ');
    SameBack("entfernt, ", MediumText(a.medium, SizeText(n, a.sum)), MediumText(b.medium, SizeText(n', b.sum)));
    SameMedium(a.medium, SizeText(n, a.sum), b.medium, SizeText(n', b.sum));
    SameSize(n, a.sum, n', b.sum);
  }

  /** A mark reads back: kind, medium, size and sum are determined by its text. */
  lemma TellsOne(lit: string, a: Mark, b: Mark)
    requires Tells(lit, a) && Tells(lit, b) && Tidy(a) && Tidy(b)
    ensures a == b
  {
    var n :| Decimal(n, a.size) && lit == MarkText(a, n);
    var n' :| Decimal(n', b.size) && lit == MarkText(b, n');
    SameMarkText(a, n, b, n');
  }

  lemma RightMediumTidy(c: Codec, declared: string, medium: string)
    requires RightMedium(c, declared, medium)
    ensures ',' !in medium
  {
    var p :| Front(declared, p) && medium == if IsType(c.normalize(p)) then c.normalize(p) else "application/octet-stream";
    if IsType(c.normalize(p)) {
      assert !TypeChar(',');
    }
  }

  lemma InFront(m: string, p: string)
    requires Front(m, p)
    ensures forall k :: 0 <= k < |p| ==> m[k] != ';'
  {
    assert forall k :: 0 <= k < |p| ==> p[k] == m[k];
  }

  lemma OneFront(m: string, p: string, q: string)
    requires Front(m, p) && Front(m, q)
    ensures p == q
  {
    InFront(m, p);
    InFront(m, q);
    assert !(|p| < |q|) && !(|q| < |p|);
  }

  lemma OneRightMedium(c: Codec, declared: string, a: string, b: string)
    requires RightMedium(c, declared, a) && RightMedium(c, declared, b)
    ensures a == b
  {
    var p :| Front(declared, p) && a == if IsType(c.normalize(p)) then c.normalize(p) else "application/octet-stream";
    var q :| Front(declared, q) && b == if IsType(c.normalize(q)) then c.normalize(q) else "application/octet-stream";
    OneFront(declared, p, q);
  }

  lemma KindTidy(medium: string, kind: string)
    requires RightKind(medium, kind)
    ensures ' ' !in kind
  {
  }

  lemma OfTidy(c: Codec, lit: string, declared: string, payload: string) returns (m: Mark)
    requires c.digest(payload).Some? && TellsOf(c, lit, declared, payload)
    ensures Tells(lit, m) && Tidy(m) && RightMedium(c, declared, m.medium)
    ensures c.digest(payload) == Some(Digest(m.size, m.sum))
  {
    var size, sum := c.digest(payload).value.size, c.digest(payload).value.sum;
    m := TheMark(c, lit, declared, size, sum);
  }

  lemma TheMark(c: Codec, lit: string, declared: string, size: nat, sum: string) returns (m: Mark)
    requires |sum| == 16
    requires exists kind, medium :: RightMedium(c, declared, medium) && RightKind(medium, kind) && Tells(lit, Mark(kind, medium, size, sum))
    ensures Tells(lit, m) && Tidy(m) && RightMedium(c, declared, m.medium) && m.size == size && m.sum == sum
  {
    var kind, medium :| RightMedium(c, declared, medium) && RightKind(medium, kind) && Tells(lit, Mark(kind, medium, size, sum));
    RightMediumTidy(c, declared, medium);
    KindTidy(medium, kind);
    m := Mark(kind, medium, size, sum);
  }

  /** The mark of one payload is the mark of another only if they have the same digest and medium. */
  lemma MarkReadsBack(c: Codec, lit: string, declared: string, payload: string, declared': string, payload': string)
    requires c.digest(payload).Some? && c.digest(payload').Some?
    requires TellsOf(c, lit, declared, payload) && TellsOf(c, lit, declared', payload')
    ensures c.digest(payload) == c.digest(payload')
    ensures forall medium :: RightMedium(c, declared, medium) <==> RightMedium(c, declared', medium)
  {
    var a := OfTidy(c, lit, declared, payload);
    var b := OfTidy(c, lit, declared', payload');
    TellsOne(lit, a, b);
    forall medium ensures RightMedium(c, declared, medium) <==> RightMedium(c, declared', medium) {
      if RightMedium(c, declared, medium) {
        OneRightMedium(c, declared, medium, a.medium);
      }
      if RightMedium(c, declared', medium) {
        OneRightMedium(c, declared', medium, a.medium);
      }
    }
  }

  // ---- What is written is such a mark ----

  lemma {:induction false} ItoaDecimal(n: nat)
    ensures Decimal(Itoa(n), n)
    ensures n > 0 ==> Itoa(n)[0] != '0'
  {
    ItoaRoundTrip(n);
    if n < 10 {
      if n > 0 {
        FirstDigit(n);
      }
    } else {
      ItoaDecimal(n / 10);
      assert Itoa(n)[0] == Itoa(n / 10)[0];
    }
  }

  lemma FirstDigit(n: nat)
    requires 0 < n < 10
    ensures DIGITS[n] != '0'
  {
  }

  lemma FrontIs(m: string)
    ensures Front(m, BeforeSemicolon(m))
  {
  }

  lemma {:induction false} NoSlash(t: string)
    ensures SlashCount(t) == 0 <==> '/' !in t
  {
    if t != "" {
      NoSlash(t[1..]);
      assert t == [t[0]] + t[1..];
    }
  }

  /** One slash by the count, at one place. */
  lemma {:induction false} OneSlash(t: string)
    ensures SlashCount(t) == 1 <==> exists k :: 0 <= k < |t| && OnlyAt(t, k, '/')
  {
    if t != "" {
      var rest := t[1..];
      OneSlash(rest);
      NoSlash(rest);
      if t[0] == '/' {
        if SlashCount(t) == 1 {
          assert OnlyAt(t, 0, '/') by { assert forall j :: 1 <= j < |t| ==> t[j] == rest[j - 1]; }
        } else {
          var j :| 0 <= j < |rest| && rest[j] == '/';
          assert t[j + 1] == '/';
        }
      } else {
        assert forall j :: 1 <= j < |t| ==> t[j] == rest[j - 1];
        if SlashCount(t) == 1 {
          var k :| 0 <= k < |rest| && OnlyAt(rest, k, '/');
          assert OnlyAt(t, k + 1, '/');
        }
        if k :| 0 <= k < |t| && OnlyAt(t, k, '/') {
          assert OnlyAt(rest, k - 1, '/');
        }
      }
    }
  }

  lemma TypeChars(ch: char)
    ensures IsMimeChar(ch) <==> TypeChar(ch)
  {
  }

  lemma TypeIs(t: string)
    ensures IsType(t) <==> 0 < |t| <= 100 && SlashCount(t) == 1 && forall k :: 0 <= k < |t| ==> IsMimeChar(t[k])
  {
    OneSlash(t);
    forall k | 0 <= k < |t| ensures IsMimeChar(t[k]) <==> TypeChar(t[k]) {
      TypeChars(t[k]);
    }
  }

  lemma CleanIsRight(c: Codec, declared: string)
    ensures RightMedium(c, declared, CleanMime(c, declared))
  {
    FrontIs(declared);
    TypeIs(c.normalize(BeforeSemicolon(declared)));
  }

  lemma PrefixIs(m: string, family: string)
    ensures HasPrefix(m, family + "/") <==> OfFamily(m, family)
  {
    if HasPrefix(m, family + "/") {
      assert m[..|family| + 1][..|family|] == m[..|family|] && (family + "/")[..|family|] == family;
      assert m[|family|] == m[..|family| + 1][|family|] == '/';
    }
    if OfFamily(m, family) {
      assert m[..|family| + 1] == m[..|family|] + [m[|family|]];
    }
  }

  lemma KindIsRight(m: string)
    ensures RightKind(m, KindOf(m))
  {
    PrefixIs(m, "image");
    PrefixIs(m, "audio");
    PrefixIs(m, "video");
    assert "image" + "/" == "image/" && "audio" + "/" == "audio/" && "video" + "/" == "video/";
  }

  lemma WrittenMark(kind: string, m: string, d: Digest)
    ensures "\"" + (PREFIX + kind + " entfernt, " + m + Describing(d)) + "\"" == MarkText(Mark(kind, m, d.size, d.sum), Itoa(d.size))
  {
    assert "\"" + PREFIX == "\"[ghosttree: ";
    var n := Itoa(d.size);
    assert Describing(d) + "\"" == ", " + n + " Bytes, sha256:" + d.sum + "]\"";
    assert "\"" + (PREFIX + kind + " entfernt, " + m) == "\"[ghosttree: " + kind + " entfernt, " + m;
  }

  lemma PlaceholderTells(c: Codec, declared: string, payload: string)
    requires c.digest(payload).Some?
    ensures TellsOf(c, "\"" + Placeholder(c, declared, c.digest(payload).value) + "\"", declared, payload)
  {
    var m, d := CleanMime(c, declared), c.digest(payload).value;
    CleanIsRight(c, declared);
    KindIsRight(m);
    ItoaDecimal(d.size);
    WrittenMark(KindOf(m), m, d);
  }

  lemma ReplacementTells(c: Codec, lit: string, declared: string, payload: string)
    requires Replacement(c, lit, declared, payload).Some?
    ensures Readable(c, payload) && TellsOf(c, Replacement(c, lit, declared, payload).value, declared, payload)
  {
    PlaceholderTells(c, declared, payload);
  }

  // ---- Where marks stand ----

  lemma DecodesIs(c: Codec, lit: string, text: string)
    requires IsString(lit)
    ensures Decodes(c, lit, text) <==> Literal(c, lit) == Some(text)
  {
    assert lit == "\"" + lit[1..|lit| - 1] + "\"";
    assert lit == "\"" + text + "\"" ==> lit[1..|lit| - 1] == text;
  }

  /** The comma of a data URL, and what stands around it. */
  lemma CommaAt(header: string, payload: string)
    requires ',' !in header
    ensures var text := "data:" + header + "," + payload;
            && IndexFrom(text, ',', 0) == |header| + 5
            && text[5..|header| + 5] == header && text[|header| + 6..] == payload
  {
    var text := "data:" + header + "," + payload;
    var comma := |header| + 5;
    assert text[comma] == ',';
    forall k | 0 <= k < comma ensures text[k] != ',' {
      if k < 5 {
        assert text[k] == "data:"[k];
      } else {
        assert text[k] == header[k - 5];
      }
    }
  }

  lemma UrlParts(c: Codec, lit: string, header: string, payload: string)
    requires IsString(lit) && Url(c, lit, header, payload)
    ensures DataParts(c, lit) == Some((BeforeSemicolon(header), payload))
  {
    DecodesIs(c, lit, "data:" + header + "," + payload);
    CommaAt(header, payload);
  }

  lemma CutAtComma(text: string, comma: nat)
    requires HasPrefix(text, "data:") && 5 <= comma < |text| && text[comma] == ','
    ensures text == "data:" + text[5..comma] + "," + text[comma + 1..]
  {
    assert text == text[..5] + text[5..comma] + [text[comma]] + text[comma + 1..];
  }

  lemma PartsUrl(c: Codec, lit: string) returns (header: string)
    requires IsString(lit) && DataParts(c, lit).Some?
    ensures Url(c, lit, header, DataParts(c, lit).value.1) && DataParts(c, lit).value.0 == BeforeSemicolon(header)
  {
    var text := Literal(c, lit).value;
    DataPrefix(c, lit);
    var comma := IndexFrom(text, ',', 0);
    assert comma >= 5 by { assert forall k :: 0 <= k < 5 ==> text[k] == text[..5][k] == "data:"[k] != ','; }
    header := text[5..comma];
    CutAtComma(text, comma);
    DecodesIs(c, lit, text);
  }

  /** Cutting a header twice is cutting it once. */
  lemma MediumOfHeader(c: Codec, header: string, medium: string)
    requires RightMedium(c, BeforeSemicolon(header), medium)
    ensures RightMedium(c, header, medium)
  {
    var p :| Front(BeforeSemicolon(header), p)
             && medium == if IsType(c.normalize(p)) then c.normalize(p) else "application/octet-stream";
    FrontIs(header);
    assert p == BeforeSemicolon(header);
  }

  lemma TellsOfHeader(c: Codec, out: string, header: string, payload: string)
    requires c.digest(payload).Some? && TellsOf(c, out, BeforeSemicolon(header), payload)
    ensures TellsOf(c, out, header, payload)
  {
    var kind, medium :| && RightMedium(c, BeforeSemicolon(header), medium) && RightKind(medium, kind)
                        && Tells(out, Mark(kind, medium, c.digest(payload).value.size, c.digest(payload).value.sum));
    MediumOfHeader(c, header, medium);
  }

  /** A data URL is replaced by what tells of it. */
  lemma UrlTold(c: Codec, lit: string, header: string, payload: string)
    requires IsString(lit) && Url(c, lit, header, payload) && Readable(c, payload)
    ensures DataUrl(c, lit).Some? && TellsOf(c, DataUrl(c, lit).value, header, payload)
  {
    UrlParts(c, lit, header, payload);
    UrlReplaced(c, lit);
    ReplacementTells(c, lit, BeforeSemicolon(header), payload);
    TellsOfHeader(c, DataUrl(c, lit).value, header, payload);
  }

  /** Nothing else is replaced as a data URL. */
  lemma ReplacedHoldsUrl(c: Codec, lit: string)
    requires IsString(lit) && DataUrl(c, lit).Some?
    ensures HoldsUrlPayload(c, lit)
  {
    var header := PartsUrl(c, lit);
    var parts := DataParts(c, lit).value;
    ReplacementTells(c, lit, parts.0, parts.1);
    assert Url(c, lit, header, parts.1) && Readable(c, parts.1);
  }

  lemma PlainIsTold(c: Codec, lit: string)
    requires IsString(lit)
    ensures PlainTold(c, lit, PlainLiteral(RulesOf(c), lit))
  {
    RulesWrite(c, lit, "", NO_MEDIUM);
    var out := PlainLiteral(RulesOf(c), lit);
    forall header, payload | Url(c, lit, header, payload) && Readable(c, payload) ensures TellsOf(c, out, header, payload) {
      UrlTold(c, lit, header, payload);
    }
    if DataUrl(c, lit).Some? {
      ReplacedHoldsUrl(c, lit);
    }
  }

  lemma AdmitsIs(name: string, md: Medium)
    ensures Admits(md, name) <==> Declared(name, md.typ, md.mime)
    ensures Admits(md, name) ==> IsPayloadKey(name)
  {
  }

  lemma OwnTold(c: Codec, lit: string, name: string, md: Medium, text: string)
    requires IsString(lit) && Own(c, lit, name, md.typ, md.mime, text)
    ensures TellsOf(c, Written(c, lit, name, md), if name == "base64" && md.mime == "" then md.typ else md.mime, text)
  {
    AdmitsIs(name, md);
    DecodesIs(c, lit, text);
    PayloadReplaced(c, lit, name, md);
    if DataUrl(c, lit).Some? {
      DataUrlIsNoPayload(c, lit, name, md);
      assert false;
    } else {
      ReplacementTells(c, lit, MimeFor(md, name), text);
    }
  }

  lemma ReplacedIsOwn(c: Codec, lit: string, name: string, md: Medium)
    requires IsString(lit) && IsCandidate(name, lit) && ObjectPayload(c, lit, name, md).Some?
    ensures exists text :: Own(c, lit, name, md.typ, md.mime, text)
  {
    AdmitsIs(name, md);
    PayloadReplaced(c, lit, name, md);
    DecodesIs(c, lit, Literal(c, lit).value);
    assert Own(c, lit, name, md.typ, md.mime, Literal(c, lit).value);
  }

  lemma MemberIsTold(c: Codec, lit: string, name: string, md: Medium)
    requires IsString(lit)
    ensures MemberTold(c, lit, name, md.typ, md.mime, MemberLiteral(RulesOf(c), lit, name, md))
  {
    RulesWrite(c, lit, name, md);
    var out := MemberLiteral(RulesOf(c), lit, name, md);
    forall header, payload | Url(c, lit, header, payload) && Readable(c, payload) ensures TellsOf(c, out, header, payload) {
      UrlTold(c, lit, header, payload);
    }
    forall text | Own(c, lit, name, md.typ, md.mime, text)
      ensures TellsOf(c, out, if name == "base64" && md.mime == "" then md.typ else md.mime, text)
    {
      OwnTold(c, lit, name, md, text);
    }
    if DataUrl(c, lit).Some? {
      ReplacedHoldsUrl(c, lit);
    }
    if IsCandidate(name, lit) && ObjectPayload(c, lit, name, md).Some? {
      ReplacedIsOwn(c, lit, name, md);
    }
  }

  // ---- What an object says ----

  lemma KeyIs(c: Codec, key: string)
    requires IsString(key)
    ensures Name(c, key) == KeyText(c, key)
  {
    var inner := key[1..|key| - 1];
    assert "\"" + inner + "\"" == key;
    assert '\\' in key <==> '\\' in inner by {
      assert forall k :: 0 <= k < |inner| ==> inner[k] == key[k + 1];
      assert forall k :: 1 <= k < |key| - 1 ==> key[k] == inner[k - 1];
    }
  }

  lemma ShortIs(c: Codec, lit: string)
    requires IsString(lit)
    ensures Short(c, lit) == ShortText(c, lit)
  {
  }

  lemma OneMoreType(before: seq<(string, string)>, typ: string, x: (string, string))
    requires SaysType(before, typ)
    ensures SaysType(before + [x], if x.0 == "type" then x.1 else typ)
  {
    var after := before + [x];
    if x.0 == "type" {
      assert LastType(after, |before|);
    } else if i: nat :| LastType(before, i) && before[i].1 == typ {
      assert LastType(after, i);
    }
  }

  lemma SlashIsText(mime: string)
    requires '/' in mime
    ensures mime != ""
  {
  }

  lemma OneMoreMedium(before: seq<(string, string)>, mime: string, x: (string, string))
    requires SaysMedium(before, mime)
    ensures SaysMedium(before + [x], if mime == "" && NamesMedium(x) then x.1 else mime)
  {
    var after := before + [x];
    if i: nat :| FirstMedium(before, i) && before[i].1 == mime {
      SlashIsText(mime);
      assert FirstMedium(after, i);
    } else if NamesMedium(x) {
      assert FirstMedium(after, |before|);
    }
  }

  lemma SaidByMore(c: Codec, before: seq<(string, string)>, md: Medium, key: string, lit: string)
    requires IsString(key) && IsString(lit) && Says(before, md.typ, md.mime)
    ensures var md' := Noted(c, md, Name(c, key), lit);
            Says(before + [(KeyText(c, key), ShortText(c, lit))], md'.typ, md'.mime)
  {
    KeyIs(c, key);
    ShortIs(c, lit);
    var x := (KeyText(c, key), ShortText(c, lit));
    OneMoreType(before, md.typ, x);
    OneMoreMedium(before, md.mime, x);
  }

  lemma MemberSays(c: Codec, before: seq<(string, string)>, md: Medium, m: Member)
    requires MemberParts(m) && WellFormed(m.v) && Says(before, md.typ, md.mime)
    ensures var md' := NotedMember(RulesOf(c), md, m); Says(before + SaidBy(c, m), md'.typ, md'.mime)
  {
    if m.v.Str? {
      SaidByMore(c, before, md, m.key, m.v.lit);
    } else {
      assert before + SaidBy(c, m) == before;
    }
  }

  lemma SaidMore(c: Codec, before: seq<(string, string)>, members: Members)
    requires WellFormedMembers(members) && members.MoreMembers?
    ensures before + Said(c, members) == before + SaidBy(c, members.m) + Said(c, members.rest)
  {
    var here, more := SaidBy(c, members.m), Said(c, members.rest);
    assert before + (here + more) == before + here + more;
  }

  lemma {:induction false} MembersSay(c: Codec, before: seq<(string, string)>, md: Medium, members: Members)
    requires WellFormedMembers(members) && Says(before, md.typ, md.mime)
    ensures var md' := MediumOf(RulesOf(c), md, members); Says(before + Said(c, members), md'.typ, md'.mime)
    decreases members
  {
    MemberSays(c, before, md, members.m);
    if members.MoreMembers? {
      MembersSay(c, before + SaidBy(c, members.m), NotedMember(RulesOf(c), md, members.m), members.rest);
      SaidMore(c, before, members);
    }
  }

  lemma ObjectSays(c: Codec, members: Members)
    requires WellFormedMembers(members)
    ensures var md := MediumOf(RulesOf(c), NO_MEDIUM, members); Says(Said(c, members), md.typ, md.mime)
  {
    MembersSay(c, [], NO_MEDIUM, members);
    assert [] + Said(c, members) == Said(c, members);
  }

  lemma OneType(said: seq<(string, string)>, typ: string, typ': string)
    requires SaysType(said, typ) && SaysType(said, typ')
    ensures typ == typ'
  {
    if i: nat :| LastType(said, i) && said[i].1 == typ {
      if j: nat :| LastType(said, j) && said[j].1 == typ' {
        assert !(i < j) && !(j < i);
      }
    }
  }

  lemma OneMedium(said: seq<(string, string)>, mime: string, mime': string)
    requires SaysMedium(said, mime) && SaysMedium(said, mime')
    ensures mime == mime'
  {
    if i: nat :| FirstMedium(said, i) && said[i].1 == mime {
      if j: nat :| FirstMedium(said, j) && said[j].1 == mime' {
        assert !(i < j) && !(j < i);
      }
    }
  }

  /** An object says one thing. */
  lemma SaysOne(said: seq<(string, string)>, typ: string, mime: string, typ': string, mime': string)
    requires Says(said, typ, mime) && Says(said, typ', mime')
    ensures typ == typ' && mime == mime'
  {
    OneType(said, typ, typ');
    OneMedium(said, mime, mime');
  }

  // ---- Every line ----

  lemma StripTold(c: Codec, v: Value)
    requires WellFormed(v)
    ensures Told(c, v, StripTree(RulesOf(c), v))
    decreases v, 0
  {
    match v
    case Str(lit) => PlainIsTold(c, lit);
    case Arr(items) => StripItemsTold(c, items);
    case Obj(members) =>
      var md := MediumOf(RulesOf(c), NO_MEDIUM, members);
      ObjectSays(c, members);
      StripMembersTold(c, members, md);
    case _ =>
  }

  lemma StripItemsTold(c: Codec, items: Items)
    requires WellFormedItems(items)
    ensures ItemsTold(c, items, StripItems(RulesOf(c), items))
    decreases items, 0
  {
    StripTold(c, items.v);
    if items.MoreItems? {
      StripItemsTold(c, items.rest);
    }
  }

  lemma StripMembersTold(c: Codec, members: Members, md: Medium)
    requires WellFormedMembers(members)
    ensures MembersTold(c, members, md.typ, md.mime, StripMembers(RulesOf(c), members, md))
    decreases members, 0
  {
    var m := members.m;
    if m.v.Str? {
      KeyIs(c, m.key);
      MemberIsTold(c, m.v.lit, KeyText(c, m.key), md);
    } else {
      StripTold(c, m.v);
    }
    if members.MoreMembers? {
      StripMembersTold(c, members.rest, md);
    }
  }

  /** What Strip makes of a line: left alone, or told. */
  lemma LineTold(c: Codec, d: Doc)
    requires WellFormedDoc(d)
    ensures var w := StripLine(c, d);
            if Opened(PrintDoc(d)) then w.before == d.before && w.after == d.after && Told(c, d.v, w.v) else w == d
  {
    StripTold(c, d.v);
  }

  /** A document and what it was told as. */
  ghost predicate ToldDoc(c: Codec, d: Doc, w: Doc)
    requires WellFormedDoc(d)
  {
    w.before == d.before && w.after == d.after && Told(c, d.v, w.v)
  }

  /** Strip with the decisions of blobstrip. */
  method StripPayloads(c: Codec, line: string, valid: bool) returns (out: string, saved: int)
    requires valid ==> ValidJson(line)
    ensures !Opened(line) || !valid ==> out == line
    ensures Opened(line) && valid ==>
              forall d: Doc :: WellFormedDoc(d) && PrintDoc(d) == line ==> exists w: Doc :: PrintDoc(w) == out && ToldDoc(c, d, w)
    ensures saved == |line| - |out|
  {
    RulesOfSound(c);
    out, saved := Strip(RulesOf(c), line, valid);
    if Opened(line) && valid {
      forall d: Doc | WellFormedDoc(d) && PrintDoc(d) == line ensures exists w: Doc :: PrintDoc(w) == out && ToldDoc(c, d, w) {
        StripTold(c, d.v);
        assert PrintDoc(StripDoc(RulesOf(c), d)) == out && ToldDoc(c, d, StripDoc(RulesOf(c), d));
      }
    }
  }
}
