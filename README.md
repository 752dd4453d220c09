# MM.FileSystemMapSource — a Dafny model

`MM.FileSystemMapSource` (mindmup) wraps a storage backend that offers
`loadMap(mapId)` and `saveMap(content, mapId, fileName, overwrite)`, and
turns the raw files the backend handles into mind maps and back:

- **load**: the backend resolves with `(content, mapId, contentType)`. The
  adapter picks a decoder by content type. `application/json` and
  `application/octet-stream` are JSON: a value the backend already parsed is
  used as it is, text is parsed, and the map is editable; text that is not
  JSON fails with `('format-error', 'File content not in correct format for
  this file type')`. `application/x-freemind` always loads, read-only.
  `application/vnd.mindmup.collab` is never decoded and fails with
  `('map-load-redirect', 'c' + mapId)`. Any other type fails with
  `('format-error', 'Unsupported format ' + contentType)`. Progress and
  failures of the backend reach the caller unchanged.
- **save**: the backend is called with the map serialized by
  `JSON.stringify(map, '', 2)`, the same map id, the file name
  `String(map.title) + '.mup'` and the overwrite flag unchanged; the
  backend's progress, success and failure reach the caller unchanged.

The model states the contract that the component's jasmine specification,
`test/file-system-map-source-spec.js`, asserts; the production
implementation is not modelled.
The backend's shape is the fake at lines 4-18 of that file.

Files:

- `json.dfy` — module `Json`: JSON values (the in-memory map) and
  JavaScript's `String(v)` on them, used for the title.
- `deferred.dfy` — module `Deferred`: a jQuery Deferred as the trace of
  events its subscribers see (`Notify*`, then at most one `Resolve` or
  `Reject`), and `Forward`, the trace of a Deferred that subscribes to another
  one and hands each success to a settlement function.
- `file_system_map_source.dfy` — module `FileSystemMapSource`: the content-type
  registry, load classification, `loadMap`, the save request and `saveMap`.

Foreign code is a parameter: `Codecs` carries `JSON.parse` (as a function to
`Option<Json>`, `None` where it would throw), `JSON.stringify(…, '', 2)` and
the freemind importer, so every lemma holds for any such functions.

The decoder choice is a table from content type to format, looked up by
`Lookup`, with "unsupported" as the fallback for a type not in the table.

## Model

| member | source | states |
|---|---|---|
| FileSystemMapSource.Lookup | test/file-system-map-source-spec.js:19-103 | the content-type table yields no format exactly when no entry carries the type, and otherwise the format of the first entry that does |
| FileSystemMapSource.RegistryFormats | test/file-system-map-source-spec.js:19-103 | JSON and octet-stream map to the JSON decoder, freemind and collab to their own, and exactly the four recognised types have a decoder |
| FileSystemMapSource.KindName | test/file-system-map-source-spec.js:54-102 | the wire names of the two error kinds, `format-error` only for the format error |
| FileSystemMapSource.Classify | test/file-system-map-source-spec.js:19-103 | a successful load keeps the caller's map id and is editable exactly when the type is not freemind; a redirect names `c` + map id |
| FileSystemMapSource.LoadsJsonText | test/file-system-map-source-spec.js:20-42 | JSON text under `application/json` or `application/octet-stream` loads as the parsed map, same map id, editable |
| FileSystemMapSource.LoadsStructured | test/file-system-map-source-spec.js:43-53 | an already parsed map under a JSON type loads unchanged, editable, whatever the parser would do |
| FileSystemMapSource.RejectsMalformedJson | test/file-system-map-source-spec.js:54-60 | text that does not parse under a JSON type fails with `format-error` and the exact "not in correct format" message |
| FileSystemMapSource.LoadsFreemindReadOnly | test/file-system-map-source-spec.js:61-72 | freemind content always loads, as the importer's map, same map id, never editable |
| FileSystemMapSource.RejectsUnsupported | test/file-system-map-source-spec.js:89-95 | any other content type fails with `format-error` and `Unsupported format ` + the type, whatever the content |
| FileSystemMapSource.RedirectsCollab | test/file-system-map-source-spec.js:96-102 | a collaborative map fails with `map-load-redirect` and `c` + map id, whatever the content, without decoding |
| FileSystemMapSource.RedirectsCollabExample | test/file-system-map-source-spec.js:96-102 | map id `abc` redirects to `cabc` |
| FileSystemMapSource.LoadSucceedsIff | test/file-system-map-source-spec.js:19-103 | a load succeeds exactly for freemind and for JSON-typed content that decodes; a loaded map is editable exactly for the two JSON types |
| FileSystemMapSource.FormatErrorNamesCause | test/file-system-map-source-spec.js:54-95 | a format error's message is the malformed-JSON message exactly when the type is recognised, and otherwise ends with the unsupported type |
| FileSystemMapSource.Settle | test/file-system-map-source-spec.js:19-103 | a backend success resolves with exactly the map, id and editable flag decoding produced, or rejects with exactly (kind name, message) of the decoding error |
| FileSystemMapSource.LoadMap | test/file-system-map-source-spec.js:73-88 | the adapter's load trace keeps the backend's progress payloads in order, settles as often as the backend, passes rejections through unchanged and decodes each success |
| FileSystemMapSource.LoadMapResolvesJson | test/file-system-map-source-spec.js:20-42 | JSON text loaded under a JSON type reaches the done callbacks as (parsed map, same id, editable) |
| FileSystemMapSource.LoadMapResolvesStructured | test/file-system-map-source-spec.js:43-53 | an already parsed map under a JSON type reaches the done callbacks unchanged, editable |
| FileSystemMapSource.LoadMapResolvesFreemind | test/file-system-map-source-spec.js:61-72 | freemind content reaches the done callbacks as the imported map, read-only |
| FileSystemMapSource.LoadMapRejectsMalformed | test/file-system-map-source-spec.js:54-60 | unparsable text under a JSON type reaches the fail callbacks as ('format-error', the malformed-content message) |
| FileSystemMapSource.LoadMapRejectsUnsupported | test/file-system-map-source-spec.js:89-95 | an unrecognised type reaches the fail callbacks as ('format-error', 'Unsupported format ' + type) |
| FileSystemMapSource.LoadMapRedirectsCollab | test/file-system-map-source-spec.js:96-102 | a collaborative map reaches the fail callbacks as ('map-load-redirect', 'c' + id) |
| FileSystemMapSource.LoadMapRelaysFailure | test/file-system-map-source-spec.js:81-88 | a backend failure reaches the fail callbacks with the same arguments |
| Deferred.Forward | test/file-system-map-source-spec.js:73-137 | a wrapping Deferred shows one event per inner event: notifications and rejections with the same payloads, successes as settled, and a well-formed trace exactly when the inner one is |
| Deferred.ForwardRelaysProgress | test/file-system-map-source-spec.js:73-80 | the progress payloads of a wrapping Deferred are the inner one's, in order |
| Deferred.ForwardKeepsSettlements | test/file-system-map-source-spec.js:81-88 | a wrapping Deferred settles exactly as many times as the inner one |
| Deferred.ForwardPassThrough | test/file-system-map-source-spec.js:114-137 | wrapping with a settlement that resolves with its argument leaves the trace unchanged |
| FileSystemMapSource.SaveMap | test/file-system-map-source-spec.js:114-137 | the result of `saveMap` is the backend's progress, success and failure, unchanged |
| FileSystemMapSource.Title | test/file-system-map-source-spec.js:105-113 | a string title is used as it is; a map without a title gives `undefined` |
| Json.NatToDecimalValue | test/file-system-map-source-spec.js:112 | the digits written for a natural-number title (JavaScript's `String(n)` up to 2^53) read back, left to right, as `n` |
| Json.IntToDecimalValue | test/file-system-map-source-spec.js:112 | the text written for an integer title (JavaScript's `String(n)` up to 2^53 in magnitude) is a minus sign exactly for negative `n`, then digits that read back as the magnitude of `n` |
| FileSystemMapSource.StripExtension | test/file-system-map-source-spec.js:112 | a file name the inverse accepts is the recovered title followed by `.mup` |
| FileSystemMapSource.SaveRequest | test/file-system-map-source-spec.js:105-113 | the backend is called with the serialized map, the same map id, the overwrite flag unchanged, and a file name that is the title followed by `.mup` |
| FileSystemMapSource.SaveRequestExample | test/file-system-map-source-spec.js:105-113 | `{title: 'abc'}` saved under `mapIdxxx` with overwrite true gives `(stringify(map), 'mapIdxxx', 'abc.mup', true)` |
| FileSystemMapSource.SaveThenLoad | test/file-system-map-source-spec.js:105-113 | when the parser reads back what the serializer writes, the saved text loaded as `application/json` under the saved id is the same map, editable |

## Left out

- The callback machinery of jQuery Deferred (registering `done`/`fail`/`progress`, and callbacks running synchronously as the tests observe) is not modelled; a Deferred is the trace of events its subscribers see.
- Payloads of progress and failure are argument lists of strings, the only payloads the tests use.
- `JSON.parse`, `JSON.stringify(map, '', 2)` and the freemind importer are foreign code and are parameters; their formats (RFC 8259 text, two-space indentation, freemind XML) are not modelled.
- JSON numbers are integers. A map holding a fractional number has no value in the model, so neither `JSON.parse`'s result nor a loaded or saved map can express one. Integers beyond 2^53 (9007199254740992) in magnitude are representable here, though JavaScript rounds them to doubles.
- JSON objects are maps without key order. `JSON.stringify` writes keys in insertion order, but the model's `stringify` must give the same text for two objects with the same entries; no lemma depends on key order.
- FileSystemMapSource.Title: a fractional title is not representable. Integer titles are rendered as their exact decimal digits, which matches JavaScript only up to 2^53 (9007199254740992) in magnitude. Above 2^53, JavaScript rounds to a double and writes its shortest digits padded with zeros (`String(2**64)` is `"18446744073709552000"`). From 10^21 on, it writes exponent form (`String(1e21)` is `"1e+21"`). A null map is excluded by its precondition, because JavaScript throws when reading its `title`.
- Json.NatToDecimalValue: states the exact decimal rendering, which matches JavaScript's `String(n)` only up to 2^53; above that JavaScript writes rounded, zero-padded digits.
- Json.IntToDecimalValue: states the exact decimal rendering with a sign, which matches JavaScript's `String(n)` only up to 2^53 in magnitude; above that JavaScript writes rounded, zero-padded digits.
- A value the backend already parsed is never a string: a JavaScript string is text and goes through the parser.
- The tests check a loaded map only by partial match with the expected map (lines 26, 38, 49, 68); the model takes the loaded map to be exactly the parsed value, the value the backend passed, or the importer's result.
- `undefined` content, which the tests hand only to the collab and unsupported branches, is not a `RawContent`; those branches ignore the content, and their lemmas hold for every content.
- Freemind decoding applies the importer to whatever content the backend delivered (text or an already parsed value); what the importer does with a value that is not text is the importer's business.
- `recognises`, `description` and `notSharable` are direct reads of the backend with no logic of their own.
- There are two error kinds: an unsupported content type fails with `format-error` (lines 89-95), a collaborative map with `map-load-redirect` (lines 96-102).
