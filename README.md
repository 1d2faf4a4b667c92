# Sisyphus clipboard history — a Dafny model

Sisyphus is a macOS menu-bar clipboard-history tool. Its core is the
`ClipboardManager` singleton. A repeating timer polls the general pasteboard.
When the pasteboard's change count moves, the manager classifies what the
pasteboard holds into one `ClipboardItem`. It puts that item at the head of a
history of at most nine entries, unless it equals the current head. On request,
it pastes a history entry back: it clears the pasteboard, writes the entry
under one type chosen by its case, and posts a synthetic Cmd+V.
`ClipboardItem` is a seven-case enum. It has a hand-written `==` and a keyed
`{type, data | url}` serialisation.

The project has four files:

- `wrappers.dfy`: `Option`.
- `clipboard_item.dfy` (module `ClipboardItems`): the enum, `==` (`Same`),
  `encode(to:)` (`Encode`) and `init(from:)` (`Decode`). The keyed container
  is modelled as a record `Rec(tag, data, url)`, where each key may be absent.
- `pasteboard.dfy` (module `Pasteboards`): the host, modelled abstractly.
  - A `Pasteboard` class holds a change count, an ordered type list and a map
    from type to value (a string or bytes). It has `clearContents`
    (which advances the change count), `setString` and `setData`.
  - A `Platform` value bundles two host services. `URL(string:)` is a
    predicate `urlParses`. `Data(contentsOf:)` is a map from URL strings to
    file bytes, where an absent key means the read throws.
- `clipboard_manager.dfy` (module `ClipboardManagement`):
  - the classifier `Classify` (`getClipboardItem`), a pure function of a
    pasteboard snapshot and the platform;
  - the history functions `Insert` and `Admit`;
  - `Written`, what a paste leaves on the pasteboard;
  - the `ClipboardManager` class, whose fields are `history`,
    `lastChangeCount` and the pasteboard, with methods `CheckClipboard`,
    `AddToHistory` and `PasteItem`;
  - `PasteThenPoll`, a client method that pastes and then polls once;
  - `EchoAfterPaste`, a client scenario that the verifier checks. It does
    start-up, two copies, a paste and a poll, with an assertion about the
    history after each step.

What is proved:

- Classifier: it picks the first of seven rules, in priority order.
- History: it stays within nine entries, and no two neighbouring entries are
  ever equal.
- A tick with an unchanged count is a no-op.
- A paste with an out-of-range index is a no-op.
- A paste leaves at most one type, the item's own slot, on the pasteboard. The pasteboard is empty only when a pasted file cannot be read.
- `==` coincides with structural equality of the model's values. Text is compared code point by code point (see "## Left out").
- Decoding an encoding gives back an equal item. This holds for every item the classifier produces.

The code has no paste-restore step and no suppression flag. The field
`isPastingFromHistory` (Sisyphus/ClipboardManager.swift:10) is never set or
read. The model follows the code, so it has neither.

A consequence is proved as `PasteEchoesIntoHistory` and, at the level of the
class, as `PasteThenPoll`; `EchoAfterPaste` checks it on a concrete scenario.
A paste clears the pasteboard, which advances the change count. The next tick
therefore classifies the pasted item. This assumes that `lastChangeCount` had
not already passed the pasteboard's count, which `PasteThenPoll` requires. Say the
entry at index `i > 0` is not a file and differs from the head. Pasting it
puts a second copy of it at the head. A pasted file comes back as `.unknown`
of its bytes, because the classifier reads `fileContents` only through its
fallback rule (`PasteThenClassify`).

## Model

| member | source | states |
|---|---|---|
| `ClipboardItems.Same` | Sisyphus/UniversalClipboardEnum.swift:20-39 | the custom `==` holds exactly when both items are the same case with equal payloads, that is, it coincides with structural equality; texts are compared by code points, not canonical equivalence (see Left out) |
| `ClipboardItems.SameIsEquivalence` | Sisyphus/UniversalClipboardEnum.swift:20-39 | `==` is reflexive, symmetric and transitive; items of different cases are never equal |
| `ClipboardItems.SameBytesDifferentCases` | Sisyphus/UniversalClipboardEnum.swift:20-39 | any two different byte-carrying cases (image, pdf, rtf, html, unknown) holding the same bytes compare unequal |
| `ClipboardItems.Decode` | Sisyphus/UniversalClipboardEnum.swift:68-90 | `init(from:)`, with `None` where Swift throws; no contract of its own, its behaviour is fixed by `RoundTrip`, `DecodeThenEncode`, `DecodeNeedsItsKeys` and `UnrecognisedTagIsUnknown` |
| `ClipboardItems.Encode` | Sisyphus/UniversalClipboardEnum.swift:41-66 | the record always has a `type`; `url` is present exactly for `.file` and `data` exactly for every other case; each holds the case's payload |
| `ClipboardItems.TagsNameTheCases` | Sisyphus/UniversalClipboardEnum.swift:41-66 | the `type` written for each case is its lower-case name: text, image, file, pdf, rtf, html, unknown, one name per case |
| `ClipboardItems.RoundTrip` | Sisyphus/UniversalClipboardEnum.swift:41-90 | for every case, decoding the encoding succeeds and gives an item equal to the original (for a file, given that its URL string parses) |
| `ClipboardItems.UnrecognisedTagIsUnknown` | Sisyphus/UniversalClipboardEnum.swift:87-88 | a tag not among the seven decodes to `.unknown` of the bytes under `data`, and fails without them |
| `ClipboardItems.DecodeNeedsItsKeys` | Sisyphus/UniversalClipboardEnum.swift:68-90 | decoding fails without a `type` key, with tag "file" and no `url`, or with a `url` that does not parse, and with any other tag and no `data` |
| `ClipboardItems.DecodeThenEncode` | Sisyphus/UniversalClipboardEnum.swift:68-90 | a successful decode re-encodes to the same recognised tag, and to the same value under the key that tag reads; an unrecognised tag gives `.unknown` |
| `ClipboardManagement.ReadableFileIsClassified` | Sisyphus/ClipboardManager.swift:40-49 | with no string and no TIFF data, a file-URL string that parses and names a readable file is classified as `.file` of that URL |
| `ClipboardManagement.Classify` | Sisyphus/ClipboardManager.swift:33-63 | `getClipboardItem`, the `if let` chain; no contract of its own, its behaviour is fixed by `ClassifyIsFirstMatch`, `ClassifyPriority`, `ClassifyNoneIffNoRule`, `ReadableFileIsClassified` and `UnreadableFileFallsThrough` |
| `ClipboardManagement.FirstMatchIsFirst` | Sisyphus/ClipboardManager.swift:33-62 | first-match-wins semantics: the earliest applicable rule decides, and the result is nil only when no rule applies |
| `ClipboardManagement.ClassifyIsFirstMatch` | Sisyphus/ClipboardManager.swift:33-63 | the `if let` chain equals "first applicable rule" over the rules in the order string, tiff, fileURL, pdf, rtf, html, data of the first type |
| `ClipboardManagement.ClassifyPriority` | Sisyphus/ClipboardManager.swift:33-62 | when rule `i` applies and no earlier rule does, the classifier returns rule `i`'s item, whatever later rules would give |
| `ClipboardManagement.ClassifyNoneIffNoRule` | Sisyphus/ClipboardManager.swift:59-62 | the classifier returns nil if and only if none of the seven rules applies |
| `ClipboardManagement.UnreadableFileFallsThrough` | Sisyphus/ClipboardManager.swift:40-49 | a file URL that does not parse or cannot be read does not fail classification: the result is the first of the pdf, rtf, html and fallback rules, and is never a `.file` item |
| `ClipboardManagement.FileItemsComeFromReadableUrls` | Sisyphus/ClipboardManager.swift:40-49 | a `.file` item is classified only when there is no string and no TIFF data, and the file-URL string parses and names a readable file |
| `ClipboardManagement.ClassifiedItemsRoundTrip` | Sisyphus/ClipboardManager.swift:33-63 | every item the classifier produces decodes from its own encoding back to itself, so `RoundTrip`'s requirement on file URLs always holds for classified items |
| `ClipboardManagement.Insert` | Sisyphus/ClipboardManager.swift:65-74 | the item becomes the head; every old entry keeps its order one place further down; only the last is dropped, and only when the length would exceed 9; a history within 9 stays within 9 |
| `ClipboardManagement.Admit` | Sisyphus/ClipboardManager.swift:28-30 | the `if let copiedItem = …, history.first != copiedItem` condition; no contract of its own, its behaviour is fixed by `AdmitChangesIff` and `AdmitKeepsInvariant` |
| `ClipboardManagement.AdmitChangesIff` | Sisyphus/ClipboardManager.swift:28-30 | a detected change alters the history exactly when the classifier found an item that differs from `history.first`, and then it is an insertion at the head |
| `ClipboardManagement.AdmitKeepsInvariant` | Sisyphus/ClipboardManager.swift:28-30 | admitting a classified item keeps `|history| <= 9` and keeps neighbouring entries distinct |
| `ClipboardManagement.InsertKeepsAdjacentDistinct` | Sisyphus/ClipboardManager.swift:65-71 | inserting an item that differs from the head into a history without equal neighbours gives a history without equal neighbours |
| `ClipboardManagement.Slot` | Sisyphus/ClipboardManager.swift:87-114 | the pasteboard type each case is pasted under; no contract of its own, fixed by `WrittenHoldsOneType` (different cases, different slots) |
| `ClipboardManagement.PastedValue` | Sisyphus/ClipboardManager.swift:87-114 | the value each case is pasted as, a file's bytes read at paste time; no contract of its own, fixed by `WrittenHoldsOneType` |
| `ClipboardManagement.Written` | Sisyphus/ClipboardManager.swift:85-114 | the pasteboard after a paste; no contract of its own, fixed by `WrittenHoldsOneType` and `PasteThenClassify`, and tied to `PasteItem` by its ensures |
| `ClipboardManagement.WrittenHoldsOneType` | Sisyphus/ClipboardManager.swift:85-114 | after a paste the pasteboard holds at most one type, the item's own slot, with the item's payload (a file's freshly read bytes); it is empty only when the file read fails; different cases use different slots |
| `ClipboardManagement.PasteThenClassify` | Sisyphus/ClipboardManager.swift:85-114 | classifying what a paste wrote returns the pasted item for the six non-file cases; a file comes back as `.unknown` of its bytes, or nil when unreadable |
| `ClipboardManagement.PasteEchoesIntoHistory` | Sisyphus/ClipboardManager.swift:83-114 | nothing suppresses the poll after a paste: re-classifying a pasted non-file entry `i > 0` that differs from the head prepends it again |
| `ClipboardManagement.PasteThenPoll` | Sisyphus/ClipboardManager.swift:24-31 | pasting entry `i > 0` (not a file, different from the head) and polling once, when `lastChangeCount` had not passed the pasteboard's count, records the new count and puts the pasted item at the head again, keeping the invariant |
| `ClipboardManagement.ClipboardManager.constructor` | Sisyphus/ClipboardManager.swift:12-15 | the history starts empty and `lastChangeCount` equals the pasteboard's current change count, so existing content is not captured until the count moves |
| `ClipboardManagement.ClipboardManager.CheckClipboard` | Sisyphus/ClipboardManager.swift:24-31 | an unchanged count changes neither `history` nor `lastChangeCount`; a changed count always records the new count, and the history becomes the classified item admitted with head dedupe; the invariant (at most 9 entries, no equal neighbours) is kept |
| `ClipboardManagement.ClipboardManager.AddToHistory` | Sisyphus/ClipboardManager.swift:65-74 | called, as in the source, only with an item that differs from the head: the new history is `Insert(old history, x)` and the invariant (at most 9 entries, no equal neighbours) is kept |
| `ClipboardManagement.ClipboardManager.PasteItem` | Sisyphus/ClipboardManager.swift:77-117 | the history never changes; an index at or past the end leaves the pasteboard untouched; otherwise the change count advances by one and the pasteboard holds exactly `Written(item)` |

## Left out

- ClipboardItems.Same: Swift's `String ==` decides canonical equivalence, but the model compares `.text` payloads code point by code point. So `.text("\u{E9}")` (NFC é) and `.text("e\u{301}")` (NFD é) are equal in Swift and different here. Two consequences follow. The head dedupe in `CheckClipboard` (via `Admit`) prepends a canonically equivalent text that Swift would drop. `Valid`'s no-equal-neighbours invariant also treats such texts as different. Unicode normalisation is not modelled.
- `simulatePaste` (Sisyphus/ClipboardManager.swift:120-136) posts CGEvent keystrokes, a foreign platform call. The model treats it as a no-op on the modelled state.
- The repeating `Timer` (Sisyphus/ClipboardManager.swift:18-22) is left out. A tick is an explicit call to `CheckClipboard`.
- The `DispatchQueue.main.async` hop in `addToHistory` is left out. Insertion takes effect at once, so the staleness of `history.first` across the hop is not modelled.
- A paste-restore protocol, suppression flags and cancellation of pending restores do not exist in this code, so they are not modelled. `isPastingFromHistory` is declared but unused, and the model has no field for it.
- `print` logging is left out everywhere.
- URL syntax is not modelled. `URL(string:)` is the `urlParses` predicate, and a URL is identified by its string form.
- The file system is not modelled. `Data(contentsOf:)` is a lookup in `Platform.files`.
- `Board` snapshots are not required to be well formed. Nothing ties the keys of the value map to the type list, so the model admits snapshots AppKit never shows, such as data under a type on a pasteboard whose type list is empty. No proved property depends on such snapshots.
- AppKit's pasteboard is modelled abstractly. `clearContents` advances the change count by one, and `setString`/`setData` do not change it.
- `string(forType:)` reads only values written as strings, because decoding bytes into a string is not modelled.
- `data(forType:)` of a string value yields its UTF-8 bytes.
- Pasteboard types are named by their AppKit identifiers. For `.fileContents`, only its distinctness from the other types matters.
- The JSON encoding of the record (base64 for `Data`, URL strings) is not modelled. Under `data`, a string and bytes are distinct payload kinds, so "text" with bytes, or any other tag with a string, fails to decode.
- `pasteItem` with a negative index traps at `history[index]`, so `PasteItem` requires `index >= 0`.
- The SwiftUI views, settings, the menu-bar controller and the app delegate are not modelled. The app delegate calls `pasteItem(at: i - 1)` for `i` in 1...9.
