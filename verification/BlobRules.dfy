/** The decisions the scanner of blobstrip leaves to others, literal by literal. What the scanner
    does with them is proved for any such rules; BlobMarks gives the ones blobstrip uses. */
module BlobRules {
  import opened Text
  import opened Json

  const MIN_BYTES := 1024

  /** What the string members of an object say about its payloads. */
  datatype Medium = Medium(typ: string, mime: string)

  const NO_MEDIUM := Medium("", "")

  /** `name` reads a key literal, `text` rewrites a string wherever it stands, `payload` a member
      of this name in an object with this medium, `note` reads one more string member. Literals
      come with their quotes. */
  datatype Rules = Rules(
    name: string -> string,
    text: string -> Option<string>,
    payload: (string, string, Medium) -> Option<string>,
    note: (Medium, string, string) -> Medium)

  predicate IsPayloadKey(name: string) { name == "data" || name == "base64" || name == "blob" }

  predicate IsCandidate(name: string, lit: string)
  {
    IsPayloadKey(name) && |lit| - 2 >= MIN_BYTES
  }

  /** The literal written for a string that is the value of a member. */
  function MemberLiteral(c: Rules, lit: string, name: string, md: Medium): string
  {
    match c.text(lit)
    case Some(repl) => repl
    case None =>
      if IsCandidate(name, lit) then
        match c.payload(lit, name, md) case Some(repl) => repl case None => lit
      else lit
  }

  /** The literal written for a string elsewhere. */
  function PlainLiteral(c: Rules, lit: string): string
  {
    match c.text(lit) case Some(repl) => repl case None => lit
  }

  /** Rules that keep a text valid: what they write is a shorter string, and a literal that is
      rewritten wherever it stands is never also taken for a payload. */
  ghost predicate Sound(c: Rules)
  {
    && (forall lit {:trigger c.text(lit)} :: IsString(lit) && c.text(lit).Some? ==>
          IsString(c.text(lit).value) && |c.text(lit).value| < |lit|)
    && (forall lit, name, md {:trigger c.payload(lit, name, md)} ::
          IsString(lit) && c.payload(lit, name, md).Some? ==>
            IsString(c.payload(lit, name, md).value) && |c.payload(lit, name, md).value| < |lit|
            && c.text(lit).None?)
  }
}
