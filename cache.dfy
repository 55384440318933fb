/** `KanjiListCache` (addon/__init__.py:187-216): the persisted map from kanji
    subject id to its characters, with the four watermarks of the two
    WaniKani feeds, and its serialisation to and from the add-on's JSON
    configuration. */
module Cache {
  import opened Common

  /** The decoded JSON values the configuration store hands over. */
  datatype Json = JNull | JString(str: string) | JObject(fields: map<string, Json>)

  /** Python truthiness of a decoded JSON value. */
  predicate JsonTruthy(j: Json)
  {
    match j
    case JNull => false
    case JString(s) => s != ""
    case JObject(f) => f != map[]
  }

  /** `dict.get(key, None)`. */
  function Get(fields: map<string, Json>, key: string): Json
  {
    if key in fields then fields[key] else JNull
  }

  /** The cache: definitions keyed by the decimal subject id, and the ETag and
      `data_updated_at` last kept from the assignment feed (`List`) and from the
      subject feed (`Definition`). A watermark is `None` when it came from a
      JSON `null` or a missing key. */
  datatype KanjiListCache = KanjiListCache(
    definitions: map<string, string>,
    lastListEtag: Option<string>,
    lastListUpdate: Option<string>,
    lastDefinitionEtag: Option<string>,
    lastDefinitionUpdate: Option<string>)

  /** `KanjiListCache()`: no definitions and four empty-string watermarks. */
  function EmptyCache(): (c: KanjiListCache)
    ensures c.definitions == map[]
    ensures c.lastListEtag == c.lastListUpdate == c.lastDefinitionEtag == c.lastDefinitionUpdate == Some("")
    ensures !Truthy(c.lastListEtag) && !Truthy(c.lastListUpdate)
    ensures !Truthy(c.lastDefinitionEtag) && !Truthy(c.lastDefinitionUpdate)
  {
    KanjiListCache(map[], Some(""), Some(""), Some(""), Some(""))
  }

  function EncodeString(o: Option<string>): Json
  {
    match o
    case None => JNull
    case Some(s) => JString(s)
  }

  function DecodeString(j: Json): Option<string>
    requires j.JNull? || j.JString?
  {
    if j.JString? then Some(j.str) else None
  }

  /** The stored values the model accepts for `from_json`: a falsy value, or
      an object whose watermark entries are strings or null and whose
      `definitions` entry is falsy or an object of strings. */
  predicate WellFormed(j: Json)
  {
    !JsonTruthy(j) ||
    (j.JObject? &&
     var f := j.fields;
     (Get(f, "last_list_etag").JNull? || Get(f, "last_list_etag").JString?) &&
     (Get(f, "last_list_update").JNull? || Get(f, "last_list_update").JString?) &&
     (Get(f, "last_definition_etag").JNull? || Get(f, "last_definition_etag").JString?) &&
     (Get(f, "last_definition_update").JNull? || Get(f, "last_definition_update").JString?) &&
     var d := Get(f, "definitions");
     (!JsonTruthy(d) || (d.JObject? && forall k :: k in d.fields ==> d.fields[k].JString?)))
  }

  /** `dict(definitions or {})`. */
  function DecodeDefinitions(d: Json): (m: map<string, string>)
    requires !JsonTruthy(d) || (d.JObject? && forall k :: k in d.fields ==> d.fields[k].JString?)
    ensures JsonTruthy(d) ==> m.Keys == d.fields.Keys
    ensures JsonTruthy(d) ==> forall k :: k in m ==> d.fields[k] == JString(m[k])
    ensures !JsonTruthy(d) ==> m == map[]
  {
    if !JsonTruthy(d) then map[] else map k | k in d.fields :: d.fields[k].str
  }

  function EncodeDefinitions(m: map<string, string>): Json
  {
    JObject(map k | k in m :: JString(m[k]))
  }

  /** `KanjiListCache.from_json`: `None` for a falsy value, otherwise a cache
      whose fields are read from the entries of the same name. */
  function FromJson(j: Json): (r: Option<KanjiListCache>)
    requires WellFormed(j)
    ensures r.None? <==> !JsonTruthy(j)
    ensures r.Some? ==> r.value.lastListEtag == DecodeString(Get(j.fields, "last_list_etag"))
    ensures r.Some? ==> r.value.lastListUpdate == DecodeString(Get(j.fields, "last_list_update"))
    ensures r.Some? ==> r.value.lastDefinitionEtag == DecodeString(Get(j.fields, "last_definition_etag"))
    ensures r.Some? ==> r.value.lastDefinitionUpdate == DecodeString(Get(j.fields, "last_definition_update"))
    ensures r.Some? ==> r.value.definitions == DecodeDefinitions(Get(j.fields, "definitions"))
  {
    if !JsonTruthy(j) then None
    else
      var f := j.fields;
      Some(KanjiListCache(
        DecodeDefinitions(Get(f, "definitions")),
        DecodeString(Get(f, "last_list_etag")),
        DecodeString(Get(f, "last_list_update")),
        DecodeString(Get(f, "last_definition_etag")),
        DecodeString(Get(f, "last_definition_update"))))
  }

  /** `KanjiListCache.to_json`: an object with exactly the five entries. */
  function ToJson(c: KanjiListCache): (j: Json)
    ensures j.JObject?
    ensures j.fields.Keys == {"definitions", "last_definition_etag", "last_definition_update",
                              "last_list_etag", "last_list_update"}
    ensures JsonTruthy(j) && WellFormed(j)
  {
    JObject(map[
      "definitions" := EncodeDefinitions(c.definitions),
      "last_definition_etag" := EncodeString(c.lastDefinitionEtag),
      "last_definition_update" := EncodeString(c.lastDefinitionUpdate),
      "last_list_etag" := EncodeString(c.lastListEtag),
      "last_list_update" := EncodeString(c.lastListUpdate)])
  }

  /** Saving a cache and loading it back gives the same five fields. */
  lemma RoundTrip(c: KanjiListCache)
    ensures FromJson(ToJson(c)) == Some(c)
  {
    var f := ToJson(c).fields;
    var d := DecodeDefinitions(Get(f, "definitions"));
    assert d.Keys == c.definitions.Keys;
    assert d == c.definitions;
  }
}
