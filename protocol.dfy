/**
 * The values that cross the boundary between the background element graph
 * and the foreground scene graft: JSON-compatible records, the RGBA colour
 * tuple, mutation payloads, the settled state of a promise, and the typed
 * shape of a serialized PBR block as the background proxy receives it.
 */
module Protocol {
  import opened Options

  /** `[r, g, b, a]`; channels are only copied, so they are kept as reals. */
  datatype Rgba = Rgba(r: real, g: real, b: real, a: real)

  /** The neutral base colour factor, `[1, 1, 1, 1]`. */
  const DefaultBaseColorFactor: Rgba := Rgba(1.0, 1.0, 1.0, 1.0)

  datatype Json =
    | JNull
    | JBool(b: bool)
    | JNumber(n: real)
    | JString(s: string)
    | JArray(items: seq<Json>)
    | JObject(fields: map<string, Json>)

  /** A plain object as produced by a `toJSON()` method. */
  type JsonObject = map<string, Json>

  /** The JSON form of an RGBA tuple: a four-element array of numbers. */
  function RgbaToJson(c: Rgba): Json
  {
    JArray([JNumber(c.r), JNumber(c.g), JNumber(c.b), JNumber(c.a)])
  }

  /** Reads a JSON value back as an RGBA tuple, if it has that shape. */
  function RgbaFromJson(j: Json): Option<Rgba>
  {
    if j.JArray? && |j.items| == 4
       && j.items[0].JNumber? && j.items[1].JNumber?
       && j.items[2].JNumber? && j.items[3].JNumber?
    then Some(Rgba(j.items[0].n, j.items[1].n, j.items[2].n, j.items[3].n))
    else None
  }

  /** Reading an RGBA back succeeds exactly on the encodings of colours. */
  lemma RgbaJsonRoundTrip(j: Json, c: Rgba)
    ensures RgbaFromJson(j) == Some(c) <==> j == RgbaToJson(c)
  {
  }

  /** The value of a mutation request: `RGBA | boolean | number`. */
  datatype MutationValue = BoolValue(b: bool) | NumberValue(n: real) | ColorValue(c: Rgba)

  /** How a `Promise<void>` settles: resolved, or rejected with an error message. */
  datatype Outcome = Resolved | Rejected(reason: string)

  /**
   * `key` of `r` holds `v` when `v` is present; when `v` is absent, `r` agrees
   * with `base` on `key` (absent from both, or present in both with one value).
   */
  predicate SetsOrKeeps(r: JsonObject, base: JsonObject, key: string, v: Option<Json>)
  {
    if v.Some? then key in r && r[key] == v.value
    else (key in r <==> key in base) && (key in base ==> r[key] == base[key])
  }

  /** `serialized.key = v` when `v` is non-null; `obj` itself otherwise. */
  function Put(obj: JsonObject, key: string, v: Option<Json>): (r: JsonObject)
    ensures SetsOrKeeps(r, obj, key, v)
    ensures r.Keys == if v.Some? then obj.Keys + {key} else obj.Keys
    ensures forall k :: k in obj && k != key ==> r[k] == obj[k]
  {
    if v.Some? then obj[key := v.value] else obj
  }

  /** The field of `obj` under `key` unless it is missing or `null`. */
  function OptionalField(obj: JsonObject, key: string): Option<Json>
  {
    if key in obj && obj[key] != JNull then Some(obj[key]) else None
  }

  /** `obj[key]` is a boolean, or is missing or `null`. */
  predicate BoolOrAbsent(obj: JsonObject, key: string)
  {
    OptionalField(obj, key).Some? ==> obj[key].JBool?
  }

  /** `obj[key]` is a number, or is missing or `null`. */
  predicate NumberOrAbsent(obj: JsonObject, key: string)
  {
    OptionalField(obj, key).Some? ==> obj[key].JNumber?
  }

  /** `obj[key]` holds the boolean `v`, or is missing or `null` when `v` is absent. */
  predicate HoldsBool(obj: JsonObject, key: string, v: Option<bool>)
  {
    if v.Some? then key in obj && obj[key] == JBool(v.value) else OptionalField(obj, key).None?
  }

  /** `obj[key]` holds the number `v`, or is missing or `null` when `v` is absent. */
  predicate HoldsNumber(obj: JsonObject, key: string, v: Option<real>)
  {
    if v.Some? then key in obj && obj[key] == JNumber(v.value) else OptionalField(obj, key).None?
  }

  /**
   * The serialized PBR block as the background proxy is constructed from it.
   * Its declared type requires the three scalars, but a record serialized
   * from a glTF block that lacks one of them leaves the key out, and the
   * proxy then holds `undefined`: an absent scalar is `None` here.
   */
  datatype SerializedPbr = SerializedPbr(
    visible: Option<bool>,
    normalScale: Option<real>,
    doubleSide: Option<bool>,
    baseColorFactor: Rgba,
    baseColorTexture: Option<Json>,
    metallicRoughnessTexture: Option<Json>)

  /** The keys a serialized PBR block may lack. */
  const OptionalPbrKeys: set<string> :=
    {"visible", "normalScale", "doubleSide", "baseColorTexture", "metallicRoughnessTexture"}

  /**
   * Reads a JSON record as a serialized PBR block: the colour must be
   * present; each scalar, when present, must have its declared type; the two
   * texture references are optional.
   */
  function ReadSerializedPbr(obj: JsonObject): (r: Option<SerializedPbr>)
    ensures r.Some? ==>
      && HoldsBool(obj, "visible", r.value.visible)
      && HoldsNumber(obj, "normalScale", r.value.normalScale)
      && HoldsBool(obj, "doubleSide", r.value.doubleSide)
      && "baseColorFactor" in obj && obj["baseColorFactor"] == RgbaToJson(r.value.baseColorFactor)
      && r.value.baseColorTexture == OptionalField(obj, "baseColorTexture")
      && r.value.metallicRoughnessTexture == OptionalField(obj, "metallicRoughnessTexture")
    ensures r.None? <==>
      || !BoolOrAbsent(obj, "visible")
      || !NumberOrAbsent(obj, "normalScale")
      || !BoolOrAbsent(obj, "doubleSide")
      || "baseColorFactor" !in obj || RgbaFromJson(obj["baseColorFactor"]).None?
  {
    if BoolOrAbsent(obj, "visible") && NumberOrAbsent(obj, "normalScale")
       && BoolOrAbsent(obj, "doubleSide")
       && "baseColorFactor" in obj && RgbaFromJson(obj["baseColorFactor"]).Some?
    then
      var color := RgbaFromJson(obj["baseColorFactor"]).value;
      RgbaJsonRoundTrip(obj["baseColorFactor"], color);
      var visible := OptionalField(obj, "visible");
      var normalScale := OptionalField(obj, "normalScale");
      var doubleSide := OptionalField(obj, "doubleSide");
      Some(SerializedPbr(
        if visible.Some? then Some(visible.value.b) else None,
        if normalScale.Some? then Some(normalScale.value.n) else None,
        if doubleSide.Some? then Some(doubleSide.value.b) else None,
        color,
        OptionalField(obj, "baseColorTexture"),
        OptionalField(obj, "metallicRoughnessTexture")))
    else None
  }
}
