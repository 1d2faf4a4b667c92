/**
 * `ClipboardManager` (Sisyphus/ClipboardManager.swift): the priority
 * classifier, the deduplicating bounded history and the paste operation.
 */
module ClipboardManagement {
  import opened Wrappers
  import opened ClipboardItems
  import opened Pasteboards

  /** The history never holds more than this many items. */
  const MaxHistory := 9

  // ---------------------------------------------------------------------------
  // Classification
  // ---------------------------------------------------------------------------

  /**
   * The file-URL rule: a string under the file-URL type that parses as a URL
   * and names a readable file. Anything else makes the rule not apply.
   */
  function FileRule(b: Board, p: Platform): Option<ClipboardItem>
  {
    match StringFor(b, FileUrlType)
    case Some(s) =>
      if p.urlParses(s) && ReadFile(p, Url(s)).Some? then Some(File(Url(s))) else None
    case None => None
  }

  /** `getClipboardItem()`: the chain of `if let` lookups, first match wins. */
  function Classify(b: Board, p: Platform): Option<ClipboardItem>
  {
    if StringFor(b, StringType).Some? then Some(Text(StringFor(b, StringType).value))
    else if DataFor(b, TiffType).Some? then Some(Image(DataFor(b, TiffType).value))
    else if FileRule(b, p).Some? then FileRule(b, p)
    else if DataFor(b, PdfType).Some? then Some(Pdf(DataFor(b, PdfType).value))
    else if DataFor(b, RtfType).Some? then Some(Rtf(DataFor(b, RtfType).value))
    else if DataFor(b, HtmlType).Some? then Some(Html(DataFor(b, HtmlType).value))
    else if DataFor(b, FirstTypeOrUnknown(b)).Some? then Some(Unknown(DataFor(b, FirstTypeOrUnknown(b)).value))
    else None
  }

  /** Wraps the bytes found under one type into the case that type stands for. */
  function AsItem(kind: string, d: Option<Bytes>): Option<ClipboardItem>
  {
    match d
    case None => None
    case Some(bytes) =>
      Some(if kind == "image" then Image(bytes)
           else if kind == "pdf" then Pdf(bytes)
           else if kind == "rtf" then Rtf(bytes)
           else if kind == "html" then Html(bytes)
           else Unknown(bytes))
  }

  /** The seven rules, in priority order, each applied on its own. */
  function Candidates(b: Board, p: Platform): seq<Option<ClipboardItem>>
  {
    [ match StringFor(b, StringType) case Some(s) => Some(Text(s)) case None => None,
      AsItem("image", DataFor(b, TiffType)),
      FileRule(b, p),
      AsItem("pdf", DataFor(b, PdfType)),
      AsItem("rtf", DataFor(b, RtfType)),
      AsItem("html", DataFor(b, HtmlType)),
      AsItem("unknown", DataFor(b, FirstTypeOrUnknown(b))) ]
  }

  /** The first candidate that applies. */
  function FirstMatch<T>(cs: seq<Option<T>>): Option<T>
  {
    if cs == [] then None
    else if cs[0].Some? then cs[0]
    else FirstMatch(cs[1..])
  }

  /** FirstMatch picks the earliest applicable candidate, and is `None` only when none applies. */
  lemma {:induction false} FirstMatchIsFirst<T>(cs: seq<Option<T>>)
    ensures FirstMatch(cs).None? <==> forall i :: 0 <= i < |cs| ==> cs[i].None?
    ensures forall i :: 0 <= i < |cs| && cs[i].Some? && (forall j :: 0 <= j < i ==> cs[j].None?) ==> FirstMatch(cs) == cs[i]
  {
    if cs != [] {
      FirstMatchIsFirst(cs[1..]);
      assert forall i :: 1 <= i < |cs| ==> cs[i] == cs[1..][i - 1];
      if cs[0].None? {
        forall i | 0 <= i < |cs| && cs[i].Some? && (forall j :: 0 <= j < i ==> cs[j].None?)
          ensures FirstMatch(cs) == cs[i]
        {
          assert forall j :: 0 <= j < i - 1 ==> cs[1..][j] == cs[j + 1];
        }
      }
    }
  }

  /** The if-let chain is exactly "the first of the seven rules that applies". */
  lemma ClassifyIsFirstMatch(b: Board, p: Platform)
    ensures Classify(b, p) == FirstMatch(Candidates(b, p))
  {
    var cs := Candidates(b, p);
    FirstMatchIsFirst(cs);
    if cs[0].Some? {
    } else if cs[1].Some? {
    } else if cs[2].Some? {
    } else if cs[3].Some? {
    } else if cs[4].Some? {
    } else if cs[5].Some? {
    } else if cs[6].Some? {
    } else {
    }
  }

  /**
   * Priority: if rule `i` applies and no earlier rule does, rule `i` decides;
   * the result is `None` exactly when no rule applies.
   */
  lemma ClassifyPriority(b: Board, p: Platform, i: nat)
    requires i < 7
    requires Candidates(b, p)[i].Some?
    requires forall j :: 0 <= j < i ==> Candidates(b, p)[j].None?
    ensures Classify(b, p) == Candidates(b, p)[i]
  {
    ClassifyIsFirstMatch(b, p);
    FirstMatchIsFirst(Candidates(b, p));
  }

  lemma ClassifyNoneIffNoRule(b: Board, p: Platform)
    ensures Classify(b, p).None? <==> forall i :: 0 <= i < 7 ==> Candidates(b, p)[i].None?
  {
    ClassifyIsFirstMatch(b, p);
    FirstMatchIsFirst(Candidates(b, p));
  }

  /**
   * A file URL that does not parse or cannot be read is skipped without
   * failing: classification goes on with the PDF, RTF, HTML and fallback rules.
   */
  lemma UnreadableFileFallsThrough(b: Board, p: Platform, s: string)
    requires StringFor(b, StringType).None? && DataFor(b, TiffType).None?
    requires StringFor(b, FileUrlType) == Some(s)
    requires !p.urlParses(s) || s !in p.files
    ensures Classify(b, p) == FirstMatch(Candidates(b, p)[3..])
    ensures Classify(b, p).Some? ==> !Classify(b, p).value.File?
  {
    ClassifyIsFirstMatch(b, p);
    var cs := Candidates(b, p);
    assert FirstMatch(cs) == FirstMatch(cs[1..]);
    assert FirstMatch(cs[1..]) == FirstMatch(cs[1..][1..]);
    assert FirstMatch(cs[1..][1..]) == FirstMatch(cs[1..][1..][1..]);
    assert cs[1..][1..][1..] == cs[3..];
  }

  /**
   * With no string and no TIFF data, a file URL that parses and names a
   * readable file is classified as `.file` of that URL.
   */
  lemma ReadableFileIsClassified(b: Board, p: Platform, s: string)
    requires StringFor(b, StringType).None? && DataFor(b, TiffType).None?
    requires StringFor(b, FileUrlType) == Some(s)
    requires p.urlParses(s) && s in p.files
    ensures Classify(b, p) == Some(File(Url(s)))
  {
  }

  /** Only the file-URL rule yields a `.file` item: a parsed, readable URL found after no string and no TIFF data. */
  lemma FileItemsComeFromReadableUrls(b: Board, p: Platform)
    requires Classify(b, p).Some? && Classify(b, p).value.File?
    ensures var s := Classify(b, p).value.url.absoluteString;
      && StringFor(b, StringType).None? && DataFor(b, TiffType).None?
      && StringFor(b, FileUrlType) == Some(s) && p.urlParses(s) && s in p.files
  {
  }

  /** Every item the classifier produces survives the serialisation round trip unchanged. */
  lemma ClassifiedItemsRoundTrip(b: Board, p: Platform)
    requires Classify(b, p).Some?
    ensures Decode(Encode(Classify(b, p).value), p.urlParses) == Classify(b, p)
  {
    var x := Classify(b, p).value;
    if x.File? {
      FileItemsComeFromReadableUrls(b, p);
    }
    RoundTrip(x, p.urlParses);
  }

  // ---------------------------------------------------------------------------
  // History
  // ---------------------------------------------------------------------------

  /**
   * `addToHistory`: the item goes to the head; when that makes the history
   * longer than nine, the last item goes.
   */
  function Insert(h: seq<ClipboardItem>, x: ClipboardItem): (r: seq<ClipboardItem>)
    ensures |r| == if |h| < MaxHistory then |h| + 1 else |h|
    ensures |h| <= MaxHistory ==> |r| <= MaxHistory
    ensures r[0] == x
    ensures forall i :: 0 <= i < |r| - 1 ==> r[i + 1] == h[i]
  {
    var grown := [x] + h;
    if |grown| > MaxHistory then grown[..|grown| - 1] else grown
  }

  /** No two neighbouring history entries are equal. */
  ghost predicate AdjacentDistinct(h: seq<ClipboardItem>)
  {
    forall i :: 0 <= i < |h| - 1 ==> h[i] != h[i + 1]
  }

  /** `history.first != copiedItem`: true also when the history is empty. */
  predicate DiffersFromHead(h: seq<ClipboardItem>, x: ClipboardItem)
  {
    h == [] || !Same(h[0], x)
  }

  /** What one detected change does to the history, given what the classifier found. */
  function Admit(h: seq<ClipboardItem>, found: Option<ClipboardItem>): seq<ClipboardItem>
  {
    match found
    case Some(x) => if DiffersFromHead(h, x) then Insert(h, x) else h
    case None => h
  }

  /** The history changes exactly when something was found that differs from the head. */
  lemma AdmitChangesIff(h: seq<ClipboardItem>, found: Option<ClipboardItem>)
    ensures Admit(h, found) != h <==> found.Some? && (h == [] || h[0] != found.value)
    ensures Admit(h, found) != h ==> Admit(h, found) == Insert(h, found.value)
  {
  }

  /** Admitting keeps the history within nine entries and free of equal neighbours. */
  lemma AdmitKeepsInvariant(h: seq<ClipboardItem>, found: Option<ClipboardItem>)
    requires |h| <= MaxHistory && AdjacentDistinct(h)
    ensures |Admit(h, found)| <= MaxHistory
    ensures AdjacentDistinct(Admit(h, found))
  {
  }

  lemma InsertKeepsAdjacentDistinct(h: seq<ClipboardItem>, x: ClipboardItem)
    requires AdjacentDistinct(h) && (h == [] || h[0] != x)
    ensures AdjacentDistinct(Insert(h, x))
  {
  }

  // ---------------------------------------------------------------------------
  // Paste
  // ---------------------------------------------------------------------------

  /** The one pasteboard type `pasteItem` writes an item under. */
  function Slot(x: ClipboardItem): (t: string)
  {
    match x
    case Text(_) => StringType
    case Image(_) => TiffType
    case File(_) => FileContentsType
    case Pdf(_) => PdfType
    case Rtf(_) => RtfType
    case Html(_) => HtmlType
    case Unknown(_) => UnknownType
  }

  /** The value `pasteItem` writes: the payload, or for a file its bytes read now (`None` if the read fails). */
  function PastedValue(x: ClipboardItem, p: Platform): Option<Value>
  {
    match x
    case Text(s) => Some(StrValue(s))
    case File(u) => (match ReadFile(p, u) case Some(d) => Some(DataValue(d)) case None => None)
    case Image(d) => Some(DataValue(d))
    case Pdf(d) => Some(DataValue(d))
    case Rtf(d) => Some(DataValue(d))
    case Html(d) => Some(DataValue(d))
    case Unknown(d) => Some(DataValue(d))
  }

  /** The pasteboard contents right after `pasteItem` wrote `x` onto a cleared pasteboard. */
  function Written(x: ClipboardItem, p: Platform): Board
  {
    match PastedValue(x, p)
    case Some(v) => Board([Slot(x)], map[Slot(x) := v])
    case None => Board([], map[])
  }

  /**
   * After a paste the pasteboard holds at most one type, the item's own slot;
   * it is empty only when a file could not be read. Different cases use
   * different slots.
   */
  lemma WrittenHoldsOneType(x: ClipboardItem, y: ClipboardItem, p: Platform)
    ensures |Written(x, p).types| <= 1
    ensures Written(x, p).values.Keys == set t | t in Written(x, p).types
    ensures Written(x, p).types == [] <==> x.File? && ReadFile(p, x.url).None?
    ensures Written(x, p).types != [] ==> Written(x, p).types[0] == Slot(x)
    ensures Tag(x) != Tag(y) ==> Slot(x) != Slot(y)
    ensures x.File? && ReadFile(p, x.url).Some? ==> Written(x, p).values[Slot(x)] == DataValue(p.files[x.url.absoluteString])
    ensures x.Text? ==> Written(x, p).values[StringType] == StrValue(x.text)
    ensures !x.Text? && !x.File? ==> Written(x, p).values[Slot(x)] == DataValue(x.data)
  {
  }

  /**
   * Classifying what a paste wrote gives the pasted item back, except that a
   * file comes back as `.unknown` of its bytes (nothing at all if they could
   * not be read).
   */
  lemma PasteThenClassify(x: ClipboardItem, p: Platform)
    ensures !x.File? ==> Classify(Written(x, p), p) == Some(x)
    ensures x.File? ==>
      Classify(Written(x, p), p) == (match ReadFile(p, x.url) case Some(d) => Some(Unknown(d)) case None => None)
  {
    match x
    case Text(_) =>
    case Image(_) =>
    case File(_) =>
    case Pdf(_) =>
    case Rtf(_) =>
    case Html(_) =>
    case Unknown(_) =>
  }

  /**
   * Nothing suppresses the poll after a paste: pasting entry `i > 0` that is
   * not a file and differs from the head puts a second copy of it at the head
   * on the next tick.
   */
  lemma PasteEchoesIntoHistory(h: seq<ClipboardItem>, i: nat, p: Platform)
    requires 0 < i < |h| && !h[i].File? && h[0] != h[i]
    ensures Admit(h, Classify(Written(h[i], p), p)) == Insert(h, h[i])
    ensures Admit(h, Classify(Written(h[i], p), p))[0] == h[i]
  {
    PasteThenClassify(h[i], p);
  }

  // ---------------------------------------------------------------------------
  // The manager
  // ---------------------------------------------------------------------------

  class ClipboardManager {
    var history: seq<ClipboardItem>
    var lastChangeCount: int
    const pasteboard: Pasteboard

    ghost predicate Valid()
      reads this
    {
      |history| <= MaxHistory && AdjacentDistinct(history)
    }

    /** `init()`: empty history, seeded with the current change count so existing content is not captured. */
    constructor (pasteboard: Pasteboard)
      ensures Valid()
      ensures this.pasteboard == pasteboard
      ensures history == [] && lastChangeCount == pasteboard.changeCount
    {
      this.pasteboard := pasteboard;
      history := [];
      lastChangeCount := pasteboard.changeCount;
    }

    /** `checkClipboard()`: one poll tick. */
    method CheckClipboard(p: Platform)
      requires Valid()
      modifies this
      ensures Valid()
      ensures pasteboard.changeCount == old(lastChangeCount) ==>
        history == old(history) && lastChangeCount == old(lastChangeCount)
      ensures pasteboard.changeCount != old(lastChangeCount) ==>
        lastChangeCount == pasteboard.changeCount &&
        history == Admit(old(history), Classify(pasteboard.Snapshot(), p))
    {
      if pasteboard.changeCount == lastChangeCount {
        return;
      }
      lastChangeCount := pasteboard.changeCount;
      var copied := Classify(pasteboard.Snapshot(), p);
      AdmitKeepsInvariant(history, copied);
      if copied.Some? && DiffersFromHead(history, copied.value) {
        AddToHistory(copied.value);
      }
    }

    /** `addToHistory(_:)`, taking effect at once. */
    method AddToHistory(x: ClipboardItem)
      requires Valid() && DiffersFromHead(history, x)
      modifies this`history
      ensures Valid()
      ensures history == Insert(old(history), x)
    {
      InsertKeepsAdjacentDistinct(history, x);
      history := [x] + history;
      if |history| > MaxHistory {
        history := history[..|history| - 1];
      }
    }

    /**
     * `pasteItem(at:)`: an index past the end changes nothing; otherwise the
     * pasteboard is cleared and the item written under its one slot. The
     * synthetic Cmd+V that follows touches no state here.
     */
    method PasteItem(index: int, p: Platform)
      requires index >= 0
      modifies pasteboard
      ensures history == old(history)
      ensures index >= |history| ==> unchanged(pasteboard)
      ensures index < |history| ==>
        pasteboard.changeCount == old(pasteboard.changeCount) + 1 &&
        pasteboard.Snapshot() == Written(history[index], p)
    {
      if index >= |history| {
        return;
      }
      var item := history[index];
      pasteboard.ClearContents();
      match item
      case Text(s) => pasteboard.SetString(s, StringType);
      case Image(d) => pasteboard.SetData(d, TiffType);
      case File(u) =>
        var contents := ReadFile(p, u);
        if contents.Some? {
          pasteboard.SetData(contents.value, FileContentsType);
        }
      case Pdf(d) => pasteboard.SetData(d, PdfType);
      case Rtf(d) => pasteboard.SetData(d, RtfType);
      case Html(d) => pasteboard.SetData(d, HtmlType);
      case Unknown(d) => pasteboard.SetData(d, UnknownType);
    }
  }

  /**
   * A paste followed by a poll, when the manager had not already seen a later
   * change count: pasted non-file entry `i > 0` that differs from the head
   * comes back at the head.
   */
  method PasteThenPoll(m: ClipboardManager, i: nat, p: Platform)
    requires m.Valid() && 0 < i < |m.history| && !m.history[i].File? && m.history[0] != m.history[i]
    requires m.lastChangeCount <= m.pasteboard.changeCount
    modifies m, m.pasteboard
    ensures m.Valid()
    ensures m.history == Insert(old(m.history), old(m.history)[i])
    ensures m.lastChangeCount == m.pasteboard.changeCount == old(m.pasteboard.changeCount) + 1
  {
    ghost var h := m.history;
    m.PasteItem(i, p);
    PasteEchoesIntoHistory(h, i, p);
    m.CheckClipboard(p);
  }

  /**
   * A client scenario: content present at start-up is not captured; two copies
   * fill the history; pasting the older one and polling once more puts it at
   * the head a second time.
   */
  method EchoAfterPaste()
  {
    var p := Platform(s => false, map[]);
    var board := new Pasteboard(7, Board([StringType], map[StringType := StrValue("old")]));
    var m := new ClipboardManager(board);
    m.CheckClipboard(p);
    assert m.history == [];

    board.ClearContents();
    board.SetString("a", StringType);
    m.CheckClipboard(p);
    assert m.history == [Text("a")];

    board.ClearContents();
    board.SetString("b", StringType);
    m.CheckClipboard(p);
    assert m.history == [Text("b"), Text("a")];

    m.PasteItem(1, p);
    m.CheckClipboard(p);
    assert m.history == [Text("a"), Text("b"), Text("a")];
  }
}
