# Preferences store (AmbientLightServer)

A Dafny model of the `Preferences` record store of AmbientLightServer. The
store holds nine named fields: four 2-D bound points (`boundsTopLeft`,
`boundsTopRight`, `boundsBottomRight`, `boundsBottomLeft`), a fade time
(`totalFadeTimeMS`) and four camera scalars (`camBrightness`, `camContrast`,
`camSaturation`, `camGain`). It loads them from the JSON file `prefs.txt`
key by key with a best-effort policy, writes all nine back on every save (for
values that a float can hold; see "Left out"), and lets callers read and replace the four bound points.

The model has three modules:

- `JsonDoc` (json.dfy): the JSON library seen abstractly. A value is
  `JReal | JInt | JVec2 | JOther`, a parsed object is a `map<string, Json>`,
  a key lookup gives `Option<Json>` (None is the library's null pointer), and
  the kind tests `IsVector2`, `IsReal` and `IsInteger` all reject None.
- `PreferencesSpec` (spec.dfy): the nine fields as the value `Settings`; the
  per-key reading policy (`Vector2Field`, `RealField`, `IntField`); the
  nine reads of a load (`LoadSettings`); the encoding (`JsonEncode`); the
  pair of record and file (`Store`, where `file == None` means the file does
  not parse, and a file that parses to something other than an object is
  `Some(map[])`, since every key lookup on it fails); the effect of Load,
  Save and SetBounds on that pair; and runs of any sequence of those
  operations. The lemmas about these are here.
- `Prefs` (preferences.dfy): the class `Preferences` with the nine fields
  and a field `file` for the contents of `prefs.txt`. `Load`, `Save` and
  `SetBounds` change the object and are proved to have exactly the effect of
  the matching step in `PreferencesSpec`; `GetBounds` and the three readers
  change nothing and return their results.

The readers take their destination by reference in the source. Dafny cannot
pass a field by reference, so each reader takes the field's current value
and returns its new value, and `Load` assigns the result to the field.

## Model

| member | source | states |
|---|---|---|
| `PreferencesSpec.Vector2Field` | Preferences.cpp:95-112 | a point field keeps its value when the key is absent or not a point, and becomes the stored point when it is one |
| `PreferencesSpec.RealField` | Preferences.cpp:133-150 | a float field keeps its value when the key is absent or not a real (a JSON integer included), and becomes the stored real when it is one |
| `PreferencesSpec.IntField` | Preferences.cpp:114-131 | an int field keeps its value when the key is absent or not an integer, and becomes the stored integer cast to 32 bits when it is one |
| `JsonDoc.ObjectGet` | Preferences.cpp:97 | a lookup yields a value exactly when the key is present, and then the stored one; a missing key yields the library's null |
| `PreferencesSpec.LoadSettings` | Preferences.cpp:23-33 | a document with no usable entry for any of the nine keys leaves the record unchanged; one with a usable entry for all nine determines every field from the document alone |
| `PreferencesSpec.ToInt32` | Preferences.cpp:124 | the `(int)` cast agrees with its argument modulo 2^32 and is the identity on values that fit in 32 bits |
| `PreferencesSpec.JsonEncode` | Preferences.cpp:42-59 | the encoded object has exactly the nine field names as keys, points as points and scalars as reals, so no other key is carried over |
| `PreferencesSpec.RoundTrip` | Preferences.cpp:23-56 | reading the nine keys of the encoding back into any record reproduces the encoded record exactly |
| `PreferencesSpec.FieldPolicy` | Preferences.cpp:23-33 | after a load, each of the nine fields equals the document's entry for its key when present with the right kind, and its old value otherwise |
| `PreferencesSpec.ReadsAreIndependent` | Preferences.cpp:23-33 | a field's value after a load depends only on the document's entry for its own key and that field's old value, not on any other key |
| `PreferencesSpec.UnknownKeysIgnored` | Preferences.cpp:22-33 | adding or changing a key outside the nine does not change the result of a load |
| `PreferencesSpec.SaveStep` | Preferences.cpp:61-69 | a save leaves the record alone and leaves a file that is exactly its encoding, with the nine keys |
| `PreferencesSpec.LoadStep` | Preferences.cpp:9-40 | a load from an unparseable file changes neither the record nor the file; otherwise the record becomes the nine reads of the document and the file its encoding |
| `PreferencesSpec.SetBoundsStep` | Preferences.cpp:79-93 | the four bounds become the arguments, the fade time and camera fields keep their values, and the file is the encoding of the new record |
| `PreferencesSpec.SetBoundsPersists` | Preferences.cpp:87-92 | after SetBounds the four bound keys of the file decode to exactly the given points |
| `PreferencesSpec.SaveIdempotent` | Preferences.cpp:61-69 | two saves in a row write the same file as one |
| `PreferencesSpec.LoadOfSynced` | Preferences.cpp:9-40 | loading a file that already holds the encoding of the record changes neither record nor file |
| `PreferencesSpec.SaveThenLoad` | Preferences.cpp:9-69 | a load right after a save reads back exactly the saved record and rewrites the same file |
| `PreferencesSpec.LoadIdempotent` | Preferences.cpp:9-40 | loading the file that a load just wrote changes nothing further |
| `PreferencesSpec.LoadThenReload` | Preferences.cpp:38-39 | after a successful load, the saved file reads back into any record as the loaded values |
| `PreferencesSpec.RunKeepsSynced` | Preferences.cpp:9-93 | once the file holds the encoding of the record, every sequence of loads, saves and bound changes keeps it so |
| `PreferencesSpec.SelfHealing` | Preferences.cpp:38-39 | from any parseable file, however few keys it has, any non-empty sequence of operations leaves a file with all nine keys holding the in-memory values |
| `PreferencesSpec.UnparseableFileIsInert` | Preferences.cpp:15-20 | any number of loads of an unparseable file leave record and file untouched |
| `Prefs.Preferences.Load` | Preferences.cpp:9-40 | an unparseable file aborts before any read and before saving; otherwise each field is read by its own reader and the file is rewritten with the result |
| `Prefs.Preferences.Save` | Preferences.cpp:61-69 | only the file changes, and it becomes the encoding of the nine fields |
| `Prefs.Preferences.GetBounds` | Preferences.cpp:71-77 | returns the four bound points and changes nothing |
| `Prefs.Preferences.SetBounds` | Preferences.cpp:79-93 | sets the four bounds to the arguments, keeps the other five fields, and saves |
| `Prefs.Preferences.ReadVector2` | Preferences.cpp:95-112 | returns the field's new value under the point policy of `Vector2Field` |
| `Prefs.Preferences.ReadInt` | Preferences.cpp:114-131 | returns the field's new value under the integer policy of `IntField` |
| `Prefs.Preferences.ReadFloat` | Preferences.cpp:133-150 | returns the field's new value under the real policy of `RealField` |

## Left out

- The JSON library (parsing, dumping, lookup, kind tests, construction): modelled as a map of abstract values. Its definitions, including the shape `json_is_vector2` accepts, are not part of this model; a point is simply the kind `JVec2`.
- Writing and re-reading the file: `Save` is modelled as leaving exactly the encoded object in the file, so a later load sees that object. A failing `json_dump_file` (its result is ignored by the source) and the byte-level format are not modelled.
- Float precision and range: scalars are exact `real`s. The double-to-float cast in `ReadFloat` and the float-to-double conversion in `json_real` are not modelled, and neither are doubles outside float range or non-finite floats. In the source, a stored real beyond float range (say 1e39) becomes infinity after the cast; `json_real` then yields no value, so the next save writes the file without that key, and later loads and saves never restore it. The model instead keeps the value and writes all nine keys, so `JsonEncode`, `SelfHealing` and the save-related lemmas hold only for values that a float represents finitely.
- Reference counting (`json_decref`) and the logging calls: side channels whose results are never used.
- The singleton `Instance` pointer (Preferences.cpp:7). Where, or whether, the fields get default values is not shown (Preferences.h is not part of this model), so the constructor takes the initial values as a parameter.
- Concurrency, atomicity and durability of writes: the source has none.
- `PreferencesSpec.ToInt32`: the cast is modelled as two's-complement truncation, which is what C++20 prescribes and what mainstream compilers do; older C++ standards leave it implementation-defined.
