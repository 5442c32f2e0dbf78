/** The preferences store itself: an object holding the nine fields, and the
    preferences file it loads from and saves to. Each method is proved
    against the corresponding step of module PreferencesSpec. */
module Prefs {
  import opened JsonDoc
  import opened PreferencesSpec

  class Preferences {
    var boundsTopLeft: Vector2
    var boundsTopRight: Vector2
    var boundsBottomRight: Vector2
    var boundsBottomLeft: Vector2
    var totalFadeTimeMS: real
    var camBrightness: real
    var camContrast: real
    var camSaturation: real
    var camGain: real

    /** The contents of the preferences file, prefs.txt: None when it does
        not parse (missing, unreadable or malformed); `Some(map[])` when it
        parses to something other than an object. */
    var file: Option<Document>

    /** The nine fields as one record. */
    function Current(): Settings
      reads this
    {
      Settings(boundsTopLeft, boundsTopRight, boundsBottomRight, boundsBottomLeft,
               totalFadeTimeMS, camBrightness, camContrast, camSaturation, camGain)
    }

    /** The record together with the file. */
    function State(): Store
      reads this
    {
      Store(Current(), file)
    }

    /** A store whose fields start at `initial` (the in-memory defaults) and
        whose preferences file currently holds `disk`. */
    constructor (initial: Settings, disk: Option<Document>)
      ensures State() == Store(initial, disk)
    {
      boundsTopLeft := initial.boundsTopLeft;
      boundsTopRight := initial.boundsTopRight;
      boundsBottomRight := initial.boundsBottomRight;
      boundsBottomLeft := initial.boundsBottomLeft;
      totalFadeTimeMS := initial.totalFadeTimeMS;
      camBrightness := initial.camBrightness;
      camContrast := initial.camContrast;
      camSaturation := initial.camSaturation;
      camGain := initial.camGain;
      file := disk;
    }

    /** Reads the nine keys from the file, field by field, then saves. A
        file that does not parse aborts the load before any read and before
        the save. */
    method Load()
      modifies this
      ensures State() == LoadStep(old(State()))
      ensures old(file).None? ==> Current() == old(Current()) && file == old(file)
      ensures old(file).Some? ==> Current() == LoadSettings(old(file).value, old(Current()))
      ensures old(file).Some? ==> file == Some(JsonEncode(Current()))
    {
      var root := file;
      if root.None? {
        return;
      }
      var doc := root.value;
      ghost var before := Current();

      boundsTopLeft := ReadVector2(doc, "boundsTopLeft", boundsTopLeft);
      boundsTopRight := ReadVector2(doc, "boundsTopRight", boundsTopRight);
      boundsBottomRight := ReadVector2(doc, "boundsBottomRight", boundsBottomRight);
      boundsBottomLeft := ReadVector2(doc, "boundsBottomLeft", boundsBottomLeft);

      totalFadeTimeMS := ReadFloat(doc, "totalFadeTimeMS", totalFadeTimeMS);

      camBrightness := ReadFloat(doc, "camBrightness", camBrightness);
      camContrast := ReadFloat(doc, "camContrast", camContrast);
      camSaturation := ReadFloat(doc, "camSaturation", camSaturation);
      camGain := ReadFloat(doc, "camGain", camGain);
      assert Current() == LoadSettings(doc, before);

      Save();
    }

    /** Overwrites the preferences file with the encoding of the nine
        fields; the fields themselves are untouched. */
    method Save()
      modifies this`file
      ensures State() == SaveStep(old(State()))
      ensures file == Some(JsonEncode(Current()))
    {
      var root := JsonEncode(Current());
      file := Some(root);
    }

    /** Copies out the four bound points; changes nothing. */
    method GetBounds() returns (topLeft: Vector2, topRight: Vector2, bottomRight: Vector2, bottomLeft: Vector2)
      ensures topLeft == Current().boundsTopLeft && topRight == Current().boundsTopRight
      ensures bottomRight == Current().boundsBottomRight && bottomLeft == Current().boundsBottomLeft
    {
      topLeft := boundsTopLeft;
      topRight := boundsTopRight;
      bottomRight := boundsBottomRight;
      bottomLeft := boundsBottomLeft;
    }

    /** Replaces the four bound points and saves at once. */
    method SetBounds(topLeft: Vector2, topRight: Vector2, bottomRight: Vector2, bottomLeft: Vector2)
      modifies this
      ensures State() == SetBoundsStep(old(State()), topLeft, topRight, bottomRight, bottomLeft)
      ensures boundsTopLeft == topLeft && boundsTopRight == topRight
      ensures boundsBottomRight == bottomRight && boundsBottomLeft == bottomLeft
      ensures totalFadeTimeMS == old(totalFadeTimeMS) && camBrightness == old(camBrightness)
      ensures camContrast == old(camContrast) && camSaturation == old(camSaturation)
      ensures camGain == old(camGain)
      ensures file == Some(JsonEncode(Current()))
    {
      boundsTopLeft := topLeft;
      boundsTopRight := topRight;
      boundsBottomRight := bottomRight;
      boundsBottomLeft := bottomLeft;

      Save();
    }

    /** Reads a point under `propertyName`; `dest` is the field's current
        value and the result its new one. A missing key is only reported:
        the kind test that follows fails on the missing value, so `dest`
        is kept. This is the executable form of `Vector2Field`, which
        states the policy case by case. */
    static method ReadVector2(root: Document, propertyName: string, dest: Vector2) returns (r: Vector2)
      ensures r == Vector2Field(root, propertyName, dest)
    {
      var jVec2 := ObjectGet(root, propertyName);
      if IsVector2(jVec2) {
        r := jVec2.value.p;
      } else {
        r := dest;
      }
    }

    /** Reads an integer under `propertyName`, truncated to 32 bits; the
        executable form of `IntField`. */
    static method ReadInt(root: Document, propertyName: string, dest: int32) returns (r: int32)
      ensures r == IntField(root, propertyName, dest)
    {
      var jInt := ObjectGet(root, propertyName);
      if IsInteger(jInt) {
        r := ToInt32(jInt.value.i);
      } else {
        r := dest;
      }
    }

    /** Reads a real under `propertyName`; a JSON integer is refused. The
        executable form of `RealField`. */
    static method ReadFloat(root: Document, propertyName: string, dest: real) returns (r: real)
      ensures r == RealField(root, propertyName, dest)
    {
      var jReal := ObjectGet(root, propertyName);
      if IsReal(jReal) {
        r := jReal.value.r;
      } else {
        r := dest;
      }
    }
  }
}
