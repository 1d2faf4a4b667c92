/**
 * What the manager sees of the host: an abstract general pasteboard
 * (AppKit's `NSPasteboard`), Foundation's `URL(string:)` as a predicate and
 * `Data(contentsOf:)` as a store from URL strings to file bytes.
 */
module Pasteboards {
  import opened Wrappers
  import opened ClipboardItems

  /** Pasteboard type identifiers used by the manager. */
  const StringType := "public.utf8-plain-text"
  const TiffType := "public.tiff"
  const FileUrlType := "public.file-url"
  const PdfType := "com.adobe.pdf"
  const RtfType := "public.rtf"
  const HtmlType := "public.html"
  const FileContentsType := "NSFileContentsPboardType"
  /** `NSPasteboard.PasteboardType("unknown")`. */
  const UnknownType := "unknown"

  /** What is stored under one type: written as a string, or as raw data. */
  datatype Value = StrValue(s: string) | DataValue(d: Bytes)

  /** A snapshot of the pasteboard's contents: its ordered type list and the value under each type. */
  datatype Board = Board(types: seq<string>, values: map<string, Value>)

  /** `string(forType:)`. Data written as bytes is not decoded back into a string. */
  function StringFor(b: Board, t: string): Option<string>
  {
    if t in b.values && b.values[t].StrValue? then Some(b.values[t].s) else None
  }

  /** `data(forType:)`: the bytes under the type; a string reads back as its UTF-8 bytes. */
  function DataFor(b: Board, t: string): Option<Bytes>
  {
    if t !in b.values then None
    else match b.values[t]
      case DataValue(d) => Some(d)
      case StrValue(s) => Some(Utf8(s))
  }

  /** `types?.first ?? NSPasteboard.PasteboardType("unknown")`. */
  function FirstTypeOrUnknown(b: Board): string
  {
    if |b.types| > 0 then b.types[0] else UnknownType
  }

  /** The UTF-8 encoding of a string of Unicode scalar values. */
  function Utf8(s: string): Bytes
  {
    if s == [] then [] else Utf8Char(s[0]) + Utf8(s[1..])
  }

  function Utf8Char(c: char): Bytes
  {
    var n := c as int;
    if n < 0x80 then [n as byte]
    else if n < 0x800 then [(0xC0 + n / 0x40) as byte, (0x80 + n % 0x40) as byte]
    else if n < 0x10000 then
      [(0xE0 + n / 0x1000) as byte, (0x80 + n / 0x40 % 0x40) as byte, (0x80 + n % 0x40) as byte]
    else
      [(0xF0 + n / 0x40000) as byte, (0x80 + n / 0x1000 % 0x40) as byte,
       (0x80 + n / 0x40 % 0x40) as byte, (0x80 + n % 0x40) as byte]
  }

  /** The type list after writing under `t`: a new type goes to the end. */
  function WithType(types: seq<string>, t: string): seq<string>
  {
    if t in types then types else types + [t]
  }

  /**
   * The shared general pasteboard. Its change count moves whenever its
   * contents are cleared (by this process or any other application).
   */
  class Pasteboard {
    var changeCount: int
    var types: seq<string>
    var values: map<string, Value>

    function Snapshot(): Board
      reads this
    {
      Board(types, values)
    }

    constructor (changeCount: int, contents: Board)
      ensures this.changeCount == changeCount && Snapshot() == contents
    {
      this.changeCount := changeCount;
      types, values := contents.types, contents.values;
    }

    /** `clearContents()`: empties the pasteboard and advances the change count. */
    method ClearContents()
      modifies this
      ensures changeCount == old(changeCount) + 1
      ensures Snapshot() == Board([], map[])
    {
      changeCount := changeCount + 1;
      types, values := [], map[];
    }

    /** `setString(_:forType:)`. */
    method SetString(s: string, t: string)
      modifies this
      ensures changeCount == old(changeCount)
      ensures Snapshot() == Board(WithType(old(types), t), old(values)[t := StrValue(s)])
    {
      types, values := WithType(types, t), values[t := StrValue(s)];
    }

    /** `setData(_:forType:)`. */
    method SetData(d: Bytes, t: string)
      modifies this
      ensures changeCount == old(changeCount)
      ensures Snapshot() == Board(WithType(old(types), t), old(values)[t := DataValue(d)])
    {
      types, values := WithType(types, t), values[t := DataValue(d)];
    }
  }

  /**
   * The host services the manager calls: which strings `URL(string:)` accepts,
   * and which URLs `Data(contentsOf:)` can read (absent means the read throws).
   */
  datatype Platform = Platform(urlParses: string -> bool, files: map<string, Bytes>)

  /** `try? Data(contentsOf: url)`. */
  function ReadFile(p: Platform, u: Url): Option<Bytes>
  {
    if u.absoluteString in p.files then Some(p.files[u.absoluteString]) else None
  }
}
