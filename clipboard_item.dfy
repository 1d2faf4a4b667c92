/**
 * The `ClipboardItem` enum (Sisyphus/UniversalClipboardEnum.swift): seven payload
 * kinds, the hand-written equality, and the keyed-record serialisation.
 */
module ClipboardItems {
  import opened Wrappers

  newtype byte = b: int | 0 <= b < 0x100
  type Bytes = seq<byte>

  /** A Foundation `URL`, identified by its string form (`absoluteString`). */
  datatype Url = Url(absoluteString: string)

  datatype ClipboardItem =
    | Text(text: string)
    | Image(data: Bytes)
    | File(url: Url)
    | Pdf(data: Bytes)
    | Rtf(data: Bytes)
    | Html(data: Bytes)
    | Unknown(data: Bytes)

  /**
   * The custom `==`: the same case with equal payloads, and `false` for any
   * two different cases, whatever their payloads.
   */
  function Same(a: ClipboardItem, b: ClipboardItem): (r: bool)
    ensures r <==> a == b
  {
    match (a, b)
    case (Text(x), Text(y)) => x == y
    case (Image(x), Image(y)) => x == y
    case (File(x), File(y)) => x == y
    case (Pdf(x), Pdf(y)) => x == y
    case (Rtf(x), Rtf(y)) => x == y
    case (Html(x), Html(y)) => x == y
    case (Unknown(x), Unknown(y)) => x == y
    case _ => false
  }

  /** The lower-case case name written under the `type` key. */
  function Tag(x: ClipboardItem): string
  {
    match x
    case Text(_) => "text"
    case Image(_) => "image"
    case File(_) => "file"
    case Pdf(_) => "pdf"
    case Rtf(_) => "rtf"
    case Html(_) => "html"
    case Unknown(_) => "unknown"
  }

  /**
   * What can stand under the `data` key: a string (the `.text` payload) or
   * raw bytes (every other payload). The JSON encoding of either is not modelled.
   */
  datatype Payload = StrPayload(s: string) | BytesPayload(bytes: Bytes)

  /** The keyed container `{type, data, url}`; a key that is absent is `None`. */
  datatype Rec = Rec(tag: Option<string>, data: Option<Payload>, url: Option<string>)

  /** `encode(to:)`: the case name under `type`, the payload under `url` for a file and under `data` otherwise. */
  function Encode(x: ClipboardItem): (r: Rec)
    ensures r.tag == Some(Tag(x))
    ensures r.url.Some? <==> x.File?
    ensures r.data.Some? <==> !x.File?
    ensures x.Text? ==> r.data == Some(StrPayload(x.text))
    ensures x.File? ==> r.url == Some(x.url.absoluteString)
    ensures !x.Text? && !x.File? ==> r.data == Some(BytesPayload(x.data))
  {
    match x
    case Text(s) => Rec(Some("text"), Some(StrPayload(s)), None)
    case Image(d) => Rec(Some("image"), Some(BytesPayload(d)), None)
    case File(u) => Rec(Some("file"), None, Some(u.absoluteString))
    case Pdf(d) => Rec(Some("pdf"), Some(BytesPayload(d)), None)
    case Rtf(d) => Rec(Some("rtf"), Some(BytesPayload(d)), None)
    case Html(d) => Rec(Some("html"), Some(BytesPayload(d)), None)
    case Unknown(d) => Rec(Some("unknown"), Some(BytesPayload(d)), None)
  }

  /** The bytes under `data`, if the key is present and holds bytes. */
  function DataBytes(r: Rec): Option<Bytes>
  {
    match r.data
    case Some(BytesPayload(d)) => Some(d)
    case _ => None
  }

  /**
   * `init(from:)`: `None` where the Swift initialiser throws. A missing `type`
   * key fails; "text" needs a string under `data`, "file" needs a `url` that
   * Foundation's `URL(string:)` (the predicate `urlParses`) accepts, and every
   * other tag, recognised or not, needs bytes under `data`; an unrecognised tag
   * yields `.unknown`.
   */
  function Decode(r: Rec, urlParses: string -> bool): Option<ClipboardItem>
  {
    match r.tag
    case None => None
    case Some(t) =>
      if t == "text" then
        match r.data
        case Some(StrPayload(s)) => Some(Text(s))
        case _ => None
      else if t == "file" then
        match r.url
        case Some(u) => if urlParses(u) then Some(File(Url(u))) else None
        case None => None
      else
        match DataBytes(r)
        case None => None
        case Some(d) =>
          if t == "image" then Some(Image(d))
          else if t == "pdf" then Some(Pdf(d))
          else if t == "rtf" then Some(Rtf(d))
          else if t == "html" then Some(Html(d))
          else Some(Unknown(d))
  }

  /** The seven tags `encode` writes. */
  const KnownTags: set<string> := {"text", "image", "file", "pdf", "rtf", "html", "unknown"}

  /** The hand-written `==` is an equivalence, and two different cases never compare equal. */
  lemma SameIsEquivalence(a: ClipboardItem, b: ClipboardItem, c: ClipboardItem)
    ensures Same(a, a)
    ensures Same(a, b) == Same(b, a)
    ensures Same(a, b) && Same(b, c) ==> Same(a, c)
    ensures Tag(a) != Tag(b) ==> !Same(a, b)
  {
  }

  /** Equal bytes under different cases are different items. */
  lemma SameBytesDifferentCases(a: ClipboardItem, c: ClipboardItem)
    requires !a.Text? && !a.File? && !c.Text? && !c.File?
    requires a.data == c.data && Tag(a) != Tag(c)
    ensures !Same(a, c)
  {
  }

  /** Every case is tagged with its own lower-case name, and no two cases share one. */
  lemma TagsNameTheCases(a: ClipboardItem)
    ensures Tag(a) in KnownTags
    ensures a.Text? <==> Tag(a) == "text"
    ensures a.Image? <==> Tag(a) == "image"
    ensures a.File? <==> Tag(a) == "file"
    ensures a.Pdf? <==> Tag(a) == "pdf"
    ensures a.Rtf? <==> Tag(a) == "rtf"
    ensures a.Html? <==> Tag(a) == "html"
    ensures a.Unknown? <==> Tag(a) == "unknown"
  {
  }

  /** Decoding the encoding of any item gives back an item equal to it. */
  lemma RoundTrip(x: ClipboardItem, urlParses: string -> bool)
    requires x.File? ==> urlParses(x.url.absoluteString)
    ensures Decode(Encode(x), urlParses).Some?
    ensures Same(Decode(Encode(x), urlParses).value, x)
  {
  }

  /** A tag not among the seven decodes to `.unknown` of the bytes under `data`. */
  lemma UnrecognisedTagIsUnknown(r: Rec, urlParses: string -> bool)
    requires r.tag.Some? && r.tag.value !in KnownTags
    ensures Decode(r, urlParses) == (match DataBytes(r) case Some(d) => Some(Unknown(d)) case None => None)
  {
  }

  /** Decoding fails without a `type` key, or without the key that the tag needs. */
  lemma DecodeNeedsItsKeys(r: Rec, urlParses: string -> bool)
    ensures r.tag.None? ==> Decode(r, urlParses).None?
    ensures r.tag == Some("file") && r.url.None? ==> Decode(r, urlParses).None?
    ensures r.tag.Some? && r.tag.value != "file" && r.data.None? ==> Decode(r, urlParses).None?
    ensures r.tag == Some("file") && r.url.Some? && !urlParses(r.url.value) ==> Decode(r, urlParses).None?
  {
  }

  /**
   * Whatever decodes re-encodes to the same `type` (for a recognised tag) and
   * the same value under the key that tag reads.
   */
  lemma DecodeThenEncode(r: Rec, urlParses: string -> bool)
    requires Decode(r, urlParses).Some?
    ensures var x := Decode(r, urlParses).value;
      && (r.tag.value in KnownTags ==> Encode(x).tag == r.tag)
      && (r.tag.value !in KnownTags ==> x.Unknown?)
      && (x.File? ==> Encode(x).url == r.url)
      && (!x.File? ==> Encode(x).data == r.data)
  {
  }
}
