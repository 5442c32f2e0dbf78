/** The preferences record as a value, the per-key decoding policy of its
    readers, its JSON encoding, and the effect of Load, Save and SetBounds on
    the pair (record, preferences file). The class in module Prefs is proved
    against these definitions. */
module PreferencesSpec {
  import opened JsonDoc

  /** The nine persisted fields. Scalars are kept exact (see README). */
  datatype Settings = Settings(
    boundsTopLeft: Vector2,
    boundsTopRight: Vector2,
    boundsBottomRight: Vector2,
    boundsBottomLeft: Vector2,
    totalFadeTimeMS: real,
    camBrightness: real,
    camContrast: real,
    camSaturation: real,
    camGain: real)

  /** The keys stored as 2-D points. */
  const BoundsKeys: set<string> :=
    {"boundsTopLeft", "boundsTopRight", "boundsBottomRight", "boundsBottomLeft"}

  /** The keys stored as JSON reals. */
  const ScalarKeys: set<string> :=
    {"totalFadeTimeMS", "camBrightness", "camContrast", "camSaturation", "camGain"}

  /** Every key the store reads and writes. */
  const FieldNames: set<string> := BoundsKeys + ScalarKeys

  /** The kind a document entry must have for key `k` to be adopted. */
  predicate HasFieldKind(k: string, j: Json) {
    if k in BoundsKeys then j.JVec2? else j.JReal?
  }

  // ---------------------------------------------------------------------
  // Per-key readers: best-effort, the old value stands unless the key is
  // present with the right kind.
  // ---------------------------------------------------------------------

  /** The value a point field takes after reading `key` from `root`. */
  function Vector2Field(root: Document, key: string, dest: Vector2): (r: Vector2)
    ensures key !in root ==> r == dest
    ensures key in root && !root[key].JVec2? ==> r == dest
    ensures key in root && root[key].JVec2? ==> r == root[key].p
  {
    var j := ObjectGet(root, key);
    if IsVector2(j) then j.value.p else dest
  }

  /** The value a float field takes after reading `key` from `root`. Only a
      JSON real is accepted: an integer such as 500 (rather than 500.0) is
      the wrong kind. */
  function RealField(root: Document, key: string, dest: real): (r: real)
    ensures key !in root ==> r == dest
    ensures key in root && root[key].JInt? ==> r == dest
    ensures key in root && !root[key].JReal? ==> r == dest
    ensures key in root && root[key].JReal? ==> r == root[key].r
  {
    var j := ObjectGet(root, key);
    if IsReal(j) then j.value.r else dest
  }

  /** The C++ `int`: a signed 32-bit integer. */
  newtype int32 = i: int | -0x8000_0000 <= i < 0x8000_0000

  /** The `(int)` cast of a json_int_t: two's-complement truncation to the
      low 32 bits. */
  function ToInt32(i: int64): (r: int32)
    ensures (r as int - i as int) % 0x1_0000_0000 == 0
    ensures -0x8000_0000 <= i as int < 0x8000_0000 ==> r as int == i as int
  {
    var low := (i as int) % 0x1_0000_0000;
    if low < 0x8000_0000 then low as int32 else (low - 0x1_0000_0000) as int32
  }

  /** The value an int field takes after reading `key` from `root`. */
  function IntField(root: Document, key: string, dest: int32): (r: int32)
    ensures key !in root ==> r == dest
    ensures key in root && !root[key].JInt? ==> r == dest
    ensures key in root && root[key].JInt? ==> r == ToInt32(root[key].i)
  {
    var j := ObjectGet(root, key);
    if IsInteger(j) then ToInt32(j.value.i) else dest
  }

  /** The nine reads of a successful Load, each on its own field (the
      per-key statement is lemma FieldPolicy). A document none of whose nine
      entries is usable, such as an empty object, leaves the record as it
      was; a document all of whose nine entries are usable determines the
      record completely, whatever it held before. */
  function LoadSettings(root: Document, s: Settings): (r: Settings)
    ensures (forall k | k in FieldNames :: k !in root || !HasFieldKind(k, root[k])) ==> r == s
    ensures (forall k | k in FieldNames :: k in root && HasFieldKind(k, root[k])) ==>
              JsonEncode(r) == map k | k in FieldNames :: root[k]
  {
    Settings(
      Vector2Field(root, "boundsTopLeft", s.boundsTopLeft),
      Vector2Field(root, "boundsTopRight", s.boundsTopRight),
      Vector2Field(root, "boundsBottomRight", s.boundsBottomRight),
      Vector2Field(root, "boundsBottomLeft", s.boundsBottomLeft),
      RealField(root, "totalFadeTimeMS", s.totalFadeTimeMS),
      RealField(root, "camBrightness", s.camBrightness),
      RealField(root, "camContrast", s.camContrast),
      RealField(root, "camSaturation", s.camSaturation),
      RealField(root, "camGain", s.camGain))
  }

  // ---------------------------------------------------------------------
  // Encoding
  // ---------------------------------------------------------------------

  /** The object written to the preferences file: exactly the nine keys,
      points as points and scalars as reals. */
  function JsonEncode(s: Settings): (root: Document)
    ensures root.Keys == FieldNames
    ensures forall k :: k in root ==> HasFieldKind(k, root[k])
  {
    map[
      "boundsTopLeft" := JVec2(s.boundsTopLeft),
      "boundsTopRight" := JVec2(s.boundsTopRight),
      "boundsBottomRight" := JVec2(s.boundsBottomRight),
      "boundsBottomLeft" := JVec2(s.boundsBottomLeft),
      "totalFadeTimeMS" := JReal(s.totalFadeTimeMS),
      "camBrightness" := JReal(s.camBrightness),
      "camContrast" := JReal(s.camContrast),
      "camSaturation" := JReal(s.camSaturation),
      "camGain" := JReal(s.camGain)]
  }

  /** Reading every field back from the encoding gives the record that was
      encoded, whatever the fields held before the read. */
  lemma RoundTrip(s: Settings, before: Settings)
    ensures LoadSettings(JsonEncode(s), before) == s
  {
  }

  /** The whole field-update policy of Load, key by key: viewed through its
      encoding, the field named `k` becomes the document's entry for `k` when
      that entry exists and has the right kind, and keeps its old value
      otherwise. */
  lemma FieldPolicy(root: Document, s: Settings, k: string)
    requires k in FieldNames
    ensures JsonEncode(LoadSettings(root, s))[k] ==
            if k in root && HasFieldKind(k, root[k]) then root[k] else JsonEncode(s)[k]
  {
  }

  /** One bad or missing key does not disturb the others: the field named `k`
      after a load depends only on the document's entry for `k` and on that
      field's old value. */
  lemma ReadsAreIndependent(root1: Document, root2: Document, s1: Settings, s2: Settings, k: string)
    requires k in FieldNames
    requires ObjectGet(root1, k) == ObjectGet(root2, k)
    requires JsonEncode(s1)[k] == JsonEncode(s2)[k]
    ensures JsonEncode(LoadSettings(root1, s1))[k] == JsonEncode(LoadSettings(root2, s2))[k]
  {
    FieldPolicy(root1, s1, k);
    FieldPolicy(root2, s2, k);
  }

  /** Keys other than the nine are never read. */
  lemma UnknownKeysIgnored(root: Document, s: Settings, k: string, v: Json)
    requires k !in FieldNames
    ensures LoadSettings(root[k := v], s) == LoadSettings(root, s)
  {
  }

  // ---------------------------------------------------------------------
  // The store and its file
  // ---------------------------------------------------------------------

  /** The in-memory record together with the preferences file; `file` is
      None when the file does not parse (missing, unreadable or malformed).
      A file that parses to something other than an object, on which every
      key lookup fails, is `Some(map[])`. */
  datatype Store = Store(settings: Settings, file: Option<Document>)

  /** The file holds exactly the encoding of the in-memory record. */
  predicate Synced(st: Store) {
    st.file == Some(JsonEncode(st.settings))
  }

  /** Save: overwrite the file with the encoding of the record. */
  function SaveStep(st: Store): (r: Store)
    ensures r.settings == st.settings
    ensures Synced(r)
    ensures r.file.value.Keys == FieldNames
  {
    Store(st.settings, Some(JsonEncode(st.settings)))
  }

  /** Load: on a parse failure nothing changes; otherwise the nine reads are
      applied and the result is saved. */
  function LoadStep(st: Store): (r: Store)
    ensures st.file.None? ==> r == st
    ensures st.file.Some? ==> r.settings == LoadSettings(st.file.value, st.settings)
    ensures st.file.Some? ==> Synced(r)
  {
    match st.file
    case None => st
    case Some(root) => SaveStep(Store(LoadSettings(root, st.settings), st.file))
  }

  /** SetBounds: replace the four bound points, keep the other five fields,
      then save. */
  function SetBoundsStep(st: Store, topLeft: Vector2, topRight: Vector2, bottomRight: Vector2, bottomLeft: Vector2): (r: Store)
    ensures r.settings.boundsTopLeft == topLeft && r.settings.boundsTopRight == topRight
    ensures r.settings.boundsBottomRight == bottomRight && r.settings.boundsBottomLeft == bottomLeft
    ensures r.settings.totalFadeTimeMS == st.settings.totalFadeTimeMS
    ensures r.settings.camBrightness == st.settings.camBrightness
    ensures r.settings.camContrast == st.settings.camContrast
    ensures r.settings.camSaturation == st.settings.camSaturation
    ensures r.settings.camGain == st.settings.camGain
    ensures Synced(r)
  {
    SaveStep(Store(st.settings.(
      boundsTopLeft := topLeft,
      boundsTopRight := topRight,
      boundsBottomRight := bottomRight,
      boundsBottomLeft := bottomLeft), st.file))
  }

  /** After SetBounds, the four bound keys of the file decode to exactly the
      points given, whatever record they are read into. */
  lemma SetBoundsPersists(st: Store, topLeft: Vector2, topRight: Vector2, bottomRight: Vector2, bottomLeft: Vector2, reader: Settings)
    ensures var back := LoadSettings(SetBoundsStep(st, topLeft, topRight, bottomRight, bottomLeft).file.value, reader);
            back.boundsTopLeft == topLeft && back.boundsTopRight == topRight &&
            back.boundsBottomRight == bottomRight && back.boundsBottomLeft == bottomLeft
  {
  }

  /** Saving twice in a row writes the same file both times. */
  lemma SaveIdempotent(st: Store)
    ensures SaveStep(SaveStep(st)) == SaveStep(st)
  {
  }

  /** Loading a file that already mirrors the record changes nothing. */
  lemma LoadOfSynced(st: Store)
    requires Synced(st)
    ensures LoadStep(st) == st
  {
  }

  /** Save followed by Load: the load reads back exactly what was saved. */
  lemma SaveThenLoad(st: Store)
    ensures LoadStep(SaveStep(st)) == SaveStep(st)
  {
  }

  /** Loading the file that a load has just written changes nothing. */
  lemma LoadIdempotent(st: Store)
    ensures LoadStep(LoadStep(st)) == LoadStep(st)
  {
  }

  /** A successful load followed by a save round-trips: loading the file back
      into any record reproduces every field of the loaded one. */
  lemma LoadThenReload(st: Store, other: Settings)
    requires st.file.Some?
    ensures LoadSettings(LoadStep(st).file.value, other) == LoadStep(st).settings
  {
  }

  // ---------------------------------------------------------------------
  // Sequences of operations
  // ---------------------------------------------------------------------

  /** The state-changing public operations of the store. */
  datatype Op =
    | Load
    | Save
    | SetBounds(topLeft: Vector2, topRight: Vector2, bottomRight: Vector2, bottomLeft: Vector2)

  function Apply(st: Store, op: Op): Store {
    match op
    case Load => LoadStep(st)
    case Save => SaveStep(st)
    case SetBounds(tl, tr, br, bl) => SetBoundsStep(st, tl, tr, br, bl)
  }

  function Run(st: Store, ops: seq<Op>): Store
    decreases |ops|
  {
    if ops == [] then st else Run(Apply(st, ops[0]), ops[1..])
  }

  /** Once the file mirrors the record, every operation keeps it so. */
  lemma {:induction false} RunKeepsSynced(st: Store, ops: seq<Op>)
    requires Synced(st)
    ensures Synced(Run(st, ops))
    decreases |ops|
  {
    if ops != [] {
      RunKeepsSynced(Apply(st, ops[0]), ops[1..]);
    }
  }

  /** Self-healing: starting from a file that parses, however few of the
      nine keys it holds, any non-empty sequence of operations leaves a file
      holding all nine keys with the in-memory values. */
  lemma {:induction false} SelfHealing(st: Store, ops: seq<Op>)
    requires st.file.Some?
    requires ops != []
    ensures Synced(Run(st, ops))
    ensures Run(st, ops).file.value.Keys == FieldNames
  {
    var next := Apply(st, ops[0]);
    assert Synced(next);
    RunKeepsSynced(next, ops[1..]);
  }

  /** Loads of a file that does not parse leave record and file untouched. */
  lemma {:induction false} UnparseableFileIsInert(st: Store, ops: seq<Op>)
    requires st.file.None?
    requires forall i :: 0 <= i < |ops| ==> ops[i] == Load
    ensures Run(st, ops) == st
    decreases |ops|
  {
    if ops != [] {
      assert Apply(st, ops[0]) == st;
      UnparseableFileIsInert(st, ops[1..]);
    }
  }
}
