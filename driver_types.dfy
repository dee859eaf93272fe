/** include/EDriverTypes.h: the E_DRIVER_TYPE enumeration and the two
    name tables indexed by it. An enumeration value is an `int`, as in C,
    so that code receiving a value outside the enumerators can be modelled. */
module DriverTypes {
  import opened IrrTypes

  const EDT_NULL: int := 0
  const EDT_OPENGL: int := 5
  const EDT_OGLES1: int := 6
  const EDT_OGLES2: int := 7
  const EDT_WEBGL1: int := 8
  /** One past the last enumerator; not a driver. */
  const EDT_COUNT: int := EDT_WEBGL1 + 1

  /** The values that have an enumerator (EDT_COUNT excluded). */
  predicate IsEnumerator(t: int)
  {
    t == EDT_NULL || t == EDT_OPENGL || t == EDT_OGLES1 || t == EDT_OGLES2 || t == EDT_WEBGL1
  }

  /** DRIVER_TYPE_NAMES: EDT_COUNT names and a null terminator. */
  const DRIVER_TYPE_NAMES: seq<Option<string>> := [
    Some("NullDriver"),
    Some("Software Renderer"),
    Some("Burning's Video"),
    Some("Direct3D 8.1"),
    Some("Direct3D 9.0c"),
    Some("OpenGL 1.x/2.x/3.x"),
    Some("OpenGL ES1"),
    Some("OpenGL ES2"),
    Some("WebGL 1"),
    None
  ]

  /** DRIVER_TYPE_NAMES_SHORT: EDT_COUNT short names and a null terminator. */
  const DRIVER_TYPE_NAMES_SHORT: seq<Option<string>> := [
    Some("null"),
    Some("software"),
    Some("burning"),
    Some("d3d8"),
    Some("d3d9"),
    Some("opengl"),
    Some("ogles1"),
    Some("ogles2"),
    Some("webgl1"),
    None
  ]

  /** `DRIVER_TYPE_NAMES[t]`; the terminator reads as None. */
  function DriverTypeName(t: int): (name: Option<string>)
    requires 0 <= t <= EDT_COUNT
    ensures name.None? <==> t == EDT_COUNT
  {
    DRIVER_TYPE_NAMES[t]
  }

  /** `DRIVER_TYPE_NAMES_SHORT[t]`; the terminator reads as None. */
  function DriverTypeShortName(t: int): (name: Option<string>)
    requires 0 <= t <= EDT_COUNT
    ensures name.None? <==> t == EDT_COUNT
  {
    DRIVER_TYPE_NAMES_SHORT[t]
  }

  /** Both tables hold exactly EDT_COUNT entries before their terminator,
      so indexing by any enumerator is in range and yields a name. */
  lemma NameTablesCoverEnumerators(t: int)
    requires IsEnumerator(t)
    ensures 0 <= t < EDT_COUNT
    ensures t < |DRIVER_TYPE_NAMES| && DRIVER_TYPE_NAMES[t].Some?
    ensures t < |DRIVER_TYPE_NAMES_SHORT| && DRIVER_TYPE_NAMES_SHORT[t].Some?
  {
  }

  /** The tables are null-terminated right after the last enumerator. */
  lemma NameTablesTerminated()
    ensures |DRIVER_TYPE_NAMES| == |DRIVER_TYPE_NAMES_SHORT| == EDT_COUNT + 1
    ensures DRIVER_TYPE_NAMES[EDT_COUNT] == None && DRIVER_TYPE_NAMES_SHORT[EDT_COUNT] == None
  {
  }

  /** Indexing by an enumerator gives the name of that driver. */
  lemma EnumeratorNames()
    ensures DriverTypeShortName(EDT_NULL) == Some("null")
    ensures DriverTypeShortName(EDT_OPENGL) == Some("opengl")
    ensures DriverTypeShortName(EDT_OGLES1) == Some("ogles1")
    ensures DriverTypeShortName(EDT_OGLES2) == Some("ogles2")
    ensures DriverTypeShortName(EDT_WEBGL1) == Some("webgl1")
    ensures DriverTypeName(EDT_NULL) == Some("NullDriver")
    ensures DriverTypeName(EDT_OPENGL) == Some("OpenGL 1.x/2.x/3.x")
    ensures DriverTypeName(EDT_OGLES1) == Some("OpenGL ES1")
    ensures DriverTypeName(EDT_OGLES2) == Some("OpenGL ES2")
    ensures DriverTypeName(EDT_WEBGL1) == Some("WebGL 1")
  {
  }

  /** Slots 1 to 4 name drivers (software, burning, d3d8, d3d9) that no
      enumerator reaches any more. */
  lemma OrphanNameSlots(t: int)
    requires 1 <= t <= 4
    ensures !IsEnumerator(t)
    ensures DriverTypeShortName(t).Some?
  {
  }
}
