/** MM.FileSystemMapSource: wraps a storage backend, decodes what the backend
    loads according to its content type, flags the result editable or
    read-only, and encodes maps into `.mup` files on save. */
module FileSystemMapSource {
  import opened Json
  import opened Deferred

  const JsonType := "application/json"
  const OctetStreamType := "application/octet-stream"
  const FreemindType := "application/x-freemind"
  const CollabType := "application/vnd.mindmup.collab"

  // Written as two literals so that the verifier can read its first character.
  const MalformedMessage := "File " + "content not in correct format for this file type"
  const UnsupportedPrefix := "Unsupported format "
  const RedirectPrefix := "c"
  const Extension := ".mup"

  /** A value a backend parsed before handing it over. A JavaScript string is
      always text, never such a value. */
  type Parsed = v: Json | !v.Str? witness Null

  /** What a backend's `loadMap` hands over: text, or a value it already parsed. */
  datatype RawContent = Text(text: string) | Structured(value: Parsed)

  /** The foreign code the adapter calls: `JSON.parse` (none when the text is
      not JSON), `JSON.stringify(map, '', 2)` and the freemind importer. */
  datatype Codecs = Codecs(
    parseJson: string -> Option<Json>,
    stringify: Json -> string,
    importFreemind: RawContent -> Json)

  /** What a backend's `loadMap` resolves with. */
  datatype Stored = Stored(content: RawContent, mapId: string, contentType: string)

  datatype Properties = Properties(editable: bool)

  /** What the adapter's `loadMap` resolves with. */
  datatype Opened = Opened(doc: Json, mapId: string, properties: Properties)

  datatype ErrorKind = FormatError | MapLoadRedirect

  function KindName(k: ErrorKind): (s: string)
    ensures s == "format-error" <==> k == FormatError
  {
    match k
    case FormatError => "format-error"
    case MapLoadRedirect => "map-load-redirect"
  }

  /** The outcome of decoding one loaded map. */
  datatype LoadOutcome = Ok(value: Opened) | Err(kind: ErrorKind, message: string)

  // ---------------------------------------------------------------------------
  // Dispatch on content type

  datatype Format = JsonFormat | FreemindFormat | CollabFormat

  /** The decoders the adapter knows, keyed by content type. */
  const Registry: seq<(string, Format)> := [
    (JsonType, JsonFormat),
    (OctetStreamType, JsonFormat),
    (FreemindType, FreemindFormat),
    (CollabType, CollabFormat)
  ]

  predicate Recognised(contentType: string) {
    contentType in {JsonType, OctetStreamType, FreemindType, CollabType}
  }

  /** The format of the first entry registered under `key`, if any. */
  function Lookup(table: seq<(string, Format)>, key: string): (r: Option<Format>)
    ensures r.None? <==> forall i :: 0 <= i < |table| ==> table[i].0 != key
    ensures r.Some? ==> exists i :: 0 <= i < |table| && table[i] == (key, r.value)
                                  && forall j :: 0 <= j < i ==> table[j].0 != key
  {
    if table == [] then None
    else if table[0].0 == key then Some(table[0].1)
    else Lookup(table[1..], key)
  }

  /** The registry assigns each recognised content type its format and
      nothing else a format. */
  lemma RegistryFormats(contentType: string)
    ensures contentType == JsonType ==> Lookup(Registry, contentType) == Some(JsonFormat)
    ensures contentType == OctetStreamType ==> Lookup(Registry, contentType) == Some(JsonFormat)
    ensures contentType == FreemindType ==> Lookup(Registry, contentType) == Some(FreemindFormat)
    ensures contentType == CollabType ==> Lookup(Registry, contentType) == Some(CollabFormat)
    ensures Lookup(Registry, contentType).None? <==> !Recognised(contentType)
  {
    var r := Lookup(Registry, contentType);
    if r.Some? {
      var i :| 0 <= i < |Registry| && Registry[i] == (contentType, r.value)
               && forall j :: 0 <= j < i ==> Registry[j].0 != contentType;
      assert Registry[0].0 == JsonType && Registry[1].0 == OctetStreamType;
      assert Registry[2].0 == FreemindType && Registry[3].0 == CollabType;
    } else {
      assert Registry[0].0 != contentType && Registry[1].0 != contentType;
      assert Registry[2].0 != contentType && Registry[3].0 != contentType;
    }
  }

  // ---------------------------------------------------------------------------
  // Load

  /** JSON content: a value the backend already parsed is used as it is;
      text goes through the JSON parser. */
  function DecodeJson(codecs: Codecs, content: RawContent): (r: Option<Json>)
    ensures content.Structured? ==> r == Some(content.value)
    ensures content.Text? ==> r == codecs.parseJson(content.text)
  {
    match content
    case Structured(v) => Some(v)
    case Text(s) => codecs.parseJson(s)
  }

  /** Decodes what the backend loaded, chosen by its content type. */
  function Classify(codecs: Codecs, content: RawContent, mapId: string, contentType: string): (r: LoadOutcome)
    ensures r.Ok? ==> r.value.mapId == mapId
    ensures r.Ok? ==> (r.value.properties.editable <==> contentType != FreemindType)
    ensures r.Err? && r.kind == MapLoadRedirect ==> r.message == RedirectPrefix + mapId
  {
    match Lookup(Registry, contentType)
    case None => Err(FormatError, UnsupportedPrefix + contentType)
    case Some(JsonFormat) =>
      (match DecodeJson(codecs, content)
       case Some(doc) => Ok(Opened(doc, mapId, Properties(true)))
       case None => Err(FormatError, MalformedMessage))
    case Some(FreemindFormat) => Ok(Opened(codecs.importFreemind(content), mapId, Properties(false)))
    case Some(CollabFormat) => Err(MapLoadRedirect, RedirectPrefix + mapId)
  }

  /** JSON text under a JSON content type decodes to the parsed map, with the
      caller's map id, editable. */
  lemma LoadsJsonText(codecs: Codecs, text: string, mapId: string, contentType: string, doc: Json)
    requires contentType == JsonType || contentType == OctetStreamType
    requires codecs.parseJson(text) == Some(doc)
    ensures Classify(codecs, Text(text), mapId, contentType) == Ok(Opened(doc, mapId, Properties(true)))
  {
    RegistryFormats(contentType);
  }

  /** A map the backend already parsed is used as it is, whatever the parser
      would say, and is editable. */
  lemma LoadsStructured(codecs: Codecs, doc: Parsed, mapId: string, contentType: string)
    requires contentType == JsonType || contentType == OctetStreamType
    ensures Classify(codecs, Structured(doc), mapId, contentType) == Ok(Opened(doc, mapId, Properties(true)))
  {
    RegistryFormats(contentType);
  }

  /** Text that is not JSON under a JSON content type fails with a format error. */
  lemma RejectsMalformedJson(codecs: Codecs, text: string, mapId: string, contentType: string)
    requires contentType == JsonType || contentType == OctetStreamType
    requires codecs.parseJson(text).None?
    ensures Classify(codecs, Text(text), mapId, contentType) == Err(FormatError, MalformedMessage)
    ensures KindName(FormatError) == "format-error"
  {
    RegistryFormats(contentType);
  }

  /** Freemind content always loads, and always read-only. */
  lemma LoadsFreemindReadOnly(codecs: Codecs, content: RawContent, mapId: string)
    ensures Classify(codecs, content, mapId, FreemindType)
         == Ok(Opened(codecs.importFreemind(content), mapId, Properties(false)))
  {
    RegistryFormats(FreemindType);
  }

  /** A collaborative map is never decoded: loading it redirects to "c" + id. */
  lemma RedirectsCollab(codecs: Codecs, content: RawContent, mapId: string)
    ensures Classify(codecs, content, mapId, CollabType) == Err(MapLoadRedirect, RedirectPrefix + mapId)
    ensures KindName(MapLoadRedirect) == "map-load-redirect"
  {
    RegistryFormats(CollabType);
  }

  lemma RedirectsCollabExample(codecs: Codecs, content: RawContent)
    ensures Classify(codecs, content, "abc", CollabType) == Err(MapLoadRedirect, "cabc")
  {
    RedirectsCollab(codecs, content, "abc");
  }

  /** Any other content type fails, naming the type, whatever the content. */
  lemma RejectsUnsupported(codecs: Codecs, content: RawContent, mapId: string, contentType: string)
    requires !Recognised(contentType)
    ensures Classify(codecs, content, mapId, contentType) == Err(FormatError, UnsupportedPrefix + contentType)
  {
    RegistryFormats(contentType);
  }

  /** Loading succeeds exactly for freemind content and for JSON content that
      decodes; a successful load is editable exactly for the JSON types. */
  lemma LoadSucceedsIff(codecs: Codecs, content: RawContent, mapId: string, contentType: string)
    ensures Classify(codecs, content, mapId, contentType).Ok?
        <==> (|| contentType == FreemindType
              || ((contentType == JsonType || contentType == OctetStreamType) && DecodeJson(codecs, content).Some?))
    ensures Classify(codecs, content, mapId, contentType).Ok?
        ==> (Classify(codecs, content, mapId, contentType).value.properties.editable
             <==> contentType == JsonType || contentType == OctetStreamType)
  {
    RegistryFormats(contentType);
  }

  /** The two format errors cannot be confused: the message tells a malformed
      JSON file from an unsupported type, and names that type. */
  lemma FormatErrorNamesCause(codecs: Codecs, content: RawContent, mapId: string, contentType: string)
    requires Classify(codecs, content, mapId, contentType).Err?
    requires Classify(codecs, content, mapId, contentType).kind == FormatError
    ensures var m := Classify(codecs, content, mapId, contentType).message;
      && (m == MalformedMessage <==> Recognised(contentType))
      && (m != MalformedMessage ==> |m| >= |UnsupportedPrefix| && m[|UnsupportedPrefix|..] == contentType)
  {
    RegistryFormats(contentType);
    var m := Classify(codecs, content, mapId, contentType).message;
    if !Recognised(contentType) {
      assert m == UnsupportedPrefix + contentType;
      assert m[0] == 'U' && MalformedMessage[0] == 'F';
    }
  }

  /** The adapter's settlement for one backend success: decoded maps resolve;
      decoding failures reject with (kind, message). */
  function Settle(codecs: Codecs, stored: Stored): (s: Settlement<Opened>)
    ensures s.Resolved? <==> Classify(codecs, stored.content, stored.mapId, stored.contentType).Ok?
    ensures s.Resolved? ==> s.value.mapId == stored.mapId
    ensures s.Rejected? ==> |s.reason| == 2 && s.reason[0] in {"format-error", "map-load-redirect"}
    ensures var c := Classify(codecs, stored.content, stored.mapId, stored.contentType);
      && (c.Ok? ==> s == Resolved(c.value))
      && (c.Err? ==> s == Rejected([KindName(c.kind), c.message]))
  {
    match Classify(codecs, stored.content, stored.mapId, stored.contentType)
    case Ok(v) => Resolved(v)
    case Err(kind, message) => Rejected([KindName(kind), message])
  }

  /** `loadMap`: what the adapter's subscribers see, given what the backend's
      subscribers see. */
  function LoadMap(codecs: Codecs, backend: seq<Event<Stored>>): (r: seq<Event<Opened>>)
    ensures WellFormed(r) <==> WellFormed(backend)
    ensures Progresses(r) == Progresses(backend)
    ensures Settlements(r) == Settlements(backend)
    ensures |r| == |backend|
    ensures forall i :: 0 <= i < |r| && backend[i].Reject? ==> r[i] == Reject(backend[i].reason)
    ensures forall i :: 0 <= i < |r| && backend[i].Resolve? ==> r[i] == AsEvent(Settle(codecs, backend[i].value))
  {
    var settle := (stored: Stored) => Settle(codecs, stored);
    ForwardRelaysProgress(backend, settle);
    ForwardKeepsSettlements(backend, settle);
    Forward(backend, settle)
  }

  /** A backend that loads JSON text under a JSON content type: the adapter's
      done callbacks receive the parsed map, the same id and `editable`. */
  lemma LoadMapResolvesJson(codecs: Codecs, text: string, mapId: string, contentType: string, doc: Json)
    requires contentType == JsonType || contentType == OctetStreamType
    requires codecs.parseJson(text) == Some(doc)
    ensures LoadMap(codecs, [Resolve(Stored(Text(text), mapId, contentType))])
         == [Resolve(Opened(doc, mapId, Properties(true)))]
  {
    LoadsJsonText(codecs, text, mapId, contentType, doc);
  }

  /** A backend that hands over an already parsed map under a JSON content
      type: the adapter's done callbacks receive that map, editable. */
  lemma LoadMapResolvesStructured(codecs: Codecs, doc: Parsed, mapId: string, contentType: string)
    requires contentType == JsonType || contentType == OctetStreamType
    ensures LoadMap(codecs, [Resolve(Stored(Structured(doc), mapId, contentType))])
         == [Resolve(Opened(doc, mapId, Properties(true)))]
  {
    LoadsStructured(codecs, doc, mapId, contentType);
  }

  /** Freemind content: the adapter's done callbacks receive the imported
      map, read-only. */
  lemma LoadMapResolvesFreemind(codecs: Codecs, content: RawContent, mapId: string)
    ensures LoadMap(codecs, [Resolve(Stored(content, mapId, FreemindType))])
         == [Resolve(Opened(codecs.importFreemind(content), mapId, Properties(false)))]
  {
    LoadsFreemindReadOnly(codecs, content, mapId);
  }

  /** Text that is not JSON under a JSON content type: the adapter's fail
      callbacks receive ('format-error', the malformed-content message). */
  lemma LoadMapRejectsMalformed(codecs: Codecs, text: string, mapId: string, contentType: string)
    requires contentType == JsonType || contentType == OctetStreamType
    requires codecs.parseJson(text).None?
    ensures LoadMap(codecs, [Resolve(Stored(Text(text), mapId, contentType))])
         == [Reject(["format-error", MalformedMessage])]
  {
    RejectsMalformedJson(codecs, text, mapId, contentType);
  }

  /** An unrecognised content type: the adapter's fail callbacks receive
      ('format-error', 'Unsupported format ' + type). */
  lemma LoadMapRejectsUnsupported(codecs: Codecs, content: RawContent, mapId: string, contentType: string)
    requires !Recognised(contentType)
    ensures LoadMap(codecs, [Resolve(Stored(content, mapId, contentType))])
         == [Reject(["format-error", UnsupportedPrefix + contentType])]
  {
    RejectsUnsupported(codecs, content, mapId, contentType);
  }

  /** A collaborative map: the adapter's fail callbacks receive
      ('map-load-redirect', 'c' + id). */
  lemma LoadMapRedirectsCollab(codecs: Codecs, content: RawContent, mapId: string)
    ensures LoadMap(codecs, [Resolve(Stored(content, mapId, CollabType))])
         == [Reject(["map-load-redirect", RedirectPrefix + mapId])]
  {
    RedirectsCollab(codecs, content, mapId);
  }

  /** A backend failure: the adapter's fail callbacks receive the same arguments. */
  lemma LoadMapRelaysFailure(codecs: Codecs, reason: Args)
    ensures LoadMap(codecs, [Reject(reason)]) == [Reject(reason)]
  {
  }

  // ---------------------------------------------------------------------------
  // Save

  /** The arguments the adapter passes to the backend's `saveMap`. */
  datatype SaveCall = SaveCall(content: string, mapId: string, fileName: string, overwrite: Option<bool>)

  /** `String(map.title)`: "undefined" when the map has no title. A null map
      has no properties to read, so it is excluded. */
  function Title(doc: Json): (r: string)
    requires !doc.Null?
    ensures doc.Obj? && "title" in doc.fields && doc.fields["title"].Str? ==> r == doc.fields["title"].s
    ensures !doc.Obj? || "title" !in doc.fields ==> r == "undefined"
  {
    if doc.Obj? && "title" in doc.fields then ToText(doc.fields["title"]) else "undefined"
  }

  /** The title a `.mup` file name was made from. */
  function StripExtension(fileName: string): (r: Option<string>)
    ensures r.Some? ==> r.value + Extension == fileName
  {
    if |fileName| >= |Extension| && fileName[|fileName| - |Extension|..] == Extension
    then Some(fileName[..|fileName| - |Extension|])
    else None
  }

  /** `saveMap(map, mapId, overwrite)`: the map serialized, the same id, the
      title with the `.mup` extension, and the overwrite flag unchanged. */
  function SaveRequest(codecs: Codecs, doc: Json, mapId: string, overwrite: Option<bool>): (r: SaveCall)
    requires !doc.Null?
    ensures r.content == codecs.stringify(doc)
    ensures r.mapId == mapId && r.overwrite == overwrite
    ensures StripExtension(r.fileName) == Some(Title(doc))
  {
    var fileName := Title(doc) + Extension;
    assert fileName[|fileName| - |Extension|..] == Extension;
    assert fileName[..|fileName| - |Extension|] == Title(doc);
    SaveCall(codecs.stringify(doc), mapId, fileName, overwrite)
  }

  lemma SaveRequestExample(codecs: Codecs)
    ensures var doc := Obj(map["title" := Str("abc")]);
      SaveRequest(codecs, doc, "mapIdxxx", Some(true))
        == SaveCall(codecs.stringify(doc), "mapIdxxx", "abc.mup", Some(true))
  {
    var doc := Obj(map["title" := Str("abc")]);
    var r := SaveRequest(codecs, doc, "mapIdxxx", Some(true));
    assert Title(doc) == "abc";
    assert StripExtension(r.fileName) == Some("abc");
  }

  /** What is saved loads back: when the parser reads back what the serializer
      wrote, loading the saved text as JSON yields the same map, editable. */
  lemma SaveThenLoad(codecs: Codecs, doc: Json, mapId: string, overwrite: Option<bool>)
    requires !doc.Null?
    requires codecs.parseJson(codecs.stringify(doc)) == Some(doc)
    ensures var call := SaveRequest(codecs, doc, mapId, overwrite);
      Classify(codecs, Text(call.content), call.mapId, JsonType) == Ok(Opened(doc, mapId, Properties(true)))
  {
    LoadsJsonText(codecs, codecs.stringify(doc), mapId, JsonType, doc);
  }

  /** `saveMap`'s result: the backend's progress, success and failure, unchanged. */
  function SaveMap<V>(backend: seq<Event<V>>): (r: seq<Event<V>>)
    ensures r == backend
  {
    ForwardPassThrough(backend);
    Forward(backend, v => Resolved(v))
  }
}
