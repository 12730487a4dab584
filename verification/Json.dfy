/** JSON texts (RFC 8259) as concrete syntax trees that keep every byte: Print is the identity
    on the text a tree was read from, so "the same tree" includes white space and key order. */
module Json {
  import opened Text

  // ---- Section 2: white space and delimiters ----

  predicate IsSpace(c: char) { c == ' ' || c == '\t' || c == '\r' || c == '\n' }

  predicate Spaces(s: string) { forall k :: 0 <= k < |s| ==> IsSpace(s[k]) }

  predicate IsDelimiter(c: char) { c == ',' || c == ']' || c == '}' || IsSpace(c) }

  // ---- Section 7: strings ----

  predicate IsHex(c: char) { IsDigit(c) || 'a' <= c <= 'f' || 'A' <= c <= 'F' }

  /** From p up to the closing quote: plain bytes from 0x20 on and complete escapes. */
  predicate BodyFrom(lit: string, p: nat)
    requires 0 < p < |lit|
    decreases |lit| - p
  {
    var last := |lit| - 1;
    if p == last then true
    else if lit[p] != '\\' then lit[p] != '"' && lit[p] >= ' ' && BodyFrom(lit, p + 1)
    else if p + 1 == last then false
    else if lit[p + 1] != 'u' then lit[p + 1] in "\"\\/bfnrt" && BodyFrom(lit, p + 2)
    else p + 6 <= last && (forall k :: p + 2 <= k < p + 6 ==> IsHex(lit[k])) && BodyFrom(lit, p + 6)
  }

  predicate IsString(lit: string)
  {
    |lit| >= 2 && lit[0] == '"' && lit[|lit| - 1] == '"' && BodyFrom(lit, 1)
  }

  // ---- Sections 3 and 6: literal names and numbers ----

  /** How far a number has been read. */
  datatype Numeral = Start | Minus | Zero | Whole | Point | Fraction | E | ESign | Exponent | Bad

  function Read(n: Numeral, b: char): Numeral
  {
    match n
    case Start => if b == '-' then Minus else Leading(b)
    case Minus => Leading(b)
    case Zero => Trailing(b)
    case Whole => if IsDigit(b) then Whole else Trailing(b)
    case Point => if IsDigit(b) then Fraction else Bad
    case Fraction => if IsDigit(b) then Fraction else if b == 'e' || b == 'E' then E else Bad
    case E => if b == '+' || b == '-' then ESign else if IsDigit(b) then Exponent else Bad
    case ESign => if IsDigit(b) then Exponent else Bad
    case Exponent => if IsDigit(b) then Exponent else Bad
    case Bad => Bad
  }

  function Leading(b: char): Numeral { if b == '0' then Zero else if IsDigit(b) then Whole else Bad }

  function Trailing(b: char): Numeral { if b == '.' then Point else if b == 'e' || b == 'E' then E else Bad }

  function ReadAll(s: string, n: nat): Numeral
    requires n <= |s|
  {
    if n == 0 then Start else Read(ReadAll(s, n - 1), s[n - 1])
  }

  predicate IsNumber(s: string)
  {
    ReadAll(s, |s|) in {Zero, Whole, Fraction, Exponent}
  }

  predicate IsAtom(s: string)
  {
    s == "true" || s == "false" || s == "null" || IsNumber(s)
  }

  // ---- The tree ----

  datatype Value =
    | Str(lit: string)                 // with its quotes
    | Atom(text: string)
    | EmptyArr(gap: string)
    | Arr(items: Items)
    | EmptyObj(gap: string)
    | Obj(members: Members)

  datatype Items =
    | LastItem(pre: string, v: Value, post: string)
    | MoreItems(pre: string, v: Value, post: string, rest: Items)

  datatype Members =
    | LastMember(m: Member)
    | MoreMembers(m: Member, rest: Members)

  datatype Member = Member(pre: string, key: string, mid: string, gap: string, v: Value, post: string)

  /** A JSON text: a value with white space around it. */
  datatype Doc = Doc(before: string, v: Value, after: string)

  function Print(v: Value): string
  {
    match v
    case Str(lit) => lit
    case Atom(text) => text
    case EmptyArr(gap) => "[" + gap + "]"
    case Arr(items) => "[" + PrintItems(items)
    case EmptyObj(gap) => "{" + gap + "}"
    case Obj(members) => "{" + PrintMembers(members)
  }

  function PrintItems(items: Items): string
  {
    match items
    case LastItem(pre, v, post) => pre + Print(v) + post + "]"
    case MoreItems(pre, v, post, rest) => pre + Print(v) + post + "," + PrintItems(rest)
  }

  function PrintMembers(members: Members): string
  {
    match members
    case LastMember(m) => MemberHead(m) + Print(m.v) + m.post + "}"
    case MoreMembers(m, rest) => MemberHead(m) + Print(m.v) + m.post + "," + PrintMembers(rest)
  }

  /** What stands before a member's value. */
  function MemberHead(m: Member): string { m.pre + m.key + m.mid + ":" + m.gap }

  function PrintDoc(d: Doc): string { d.before + Print(d.v) + d.after }

  predicate WellFormed(v: Value)
  {
    match v
    case Str(lit) => IsString(lit)
    case Atom(text) => IsAtom(text)
    case EmptyArr(gap) => Spaces(gap)
    case Arr(items) => WellFormedItems(items)
    case EmptyObj(gap) => Spaces(gap)
    case Obj(members) => WellFormedMembers(members)
  }

  predicate WellFormedItems(items: Items)
  {
    Spaces(items.pre) && WellFormed(items.v) && Spaces(items.post) &&
    (items.MoreItems? ==> WellFormedItems(items.rest))
  }

  predicate WellFormedMembers(members: Members)
  {
    MemberParts(members.m) && WellFormed(members.m.v) &&
    (members.MoreMembers? ==> WellFormedMembers(members.rest))
  }

  /** Everything of a member but its value. */
  predicate MemberParts(m: Member)
  {
    Spaces(m.pre) && IsString(m.key) && Spaces(m.mid) && Spaces(m.gap) && Spaces(m.post)
  }

  predicate WellFormedDoc(d: Doc)
  {
    Spaces(d.before) && WellFormed(d.v) && Spaces(d.after)
  }

  /** json.Valid: some tree prints to the text. */
  ghost predicate ValidJson(text: string)
  {
    exists d: Doc :: WellFormedDoc(d) && PrintDoc(d) == text
  }

  // ---- Facts about the grammar ----

  lemma {:induction false} NumberChars(s: string, n: nat)
    requires n <= |s| && ReadAll(s, n) != Bad
    ensures forall k :: 0 <= k < n ==> IsDigit(s[k]) || s[k] in "+-.eE"
    decreases n
  {
    if n > 0 {
      NumberChars(s, n - 1);
    }
  }

  lemma AtomChars(s: string)
    requires IsAtom(s)
    ensures |s| > 0 && s[0] !in "\"{["
    ensures forall k :: 0 <= k < |s| ==> !IsDelimiter(s[k])
  {
    if IsNumber(s) {
      NumberChars(s, |s|);
    }
  }

  lemma {:induction false} PlainBody(lit: string, p: nat)
    requires 0 < p < |lit| && forall k :: p <= k < |lit| - 1 ==> lit[k] >= ' ' && lit[k] != '"' && lit[k] != '\\'
    ensures BodyFrom(lit, p)
    decreases |lit| - p
  {
    if p < |lit| - 1 {
      PlainBody(lit, p + 1);
    }
  }
}
