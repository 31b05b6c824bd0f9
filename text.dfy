/** Rendering of values into text. */
module Text {
  import opened Geometry

  /**
   * The renderers `string.Format` applies to the payload of an action:
   * `double.ToString` for scalars, and the `ToString` of the geometry
   * library's Vector, Orientation and Joints types. They are foreign code,
   * so every description is stated for an arbitrary choice of them.
   */
  datatype Formats = Formats(
    number: real -> string,
    vector: Vector -> string,
    orientation: Rotation -> string,
    joints: Joints -> string)

  function DigitChar(d: nat): (c: char)
    requires d < 10
    ensures '0' <= c <= '9'
  {
    "0123456789"[d]
  }

  function NatToString(n: nat): (s: string)
    ensures |s| > 0
    ensures forall i :: 0 <= i < |s| ==> '0' <= s[i] <= '9'
    decreases n
  {
    if n < 10 then [DigitChar(n)] else NatToString(n / 10) + [DigitChar(n % 10)]
  }

  /** Decimal rendering of an integer, as `int.ToString` and `long.ToString` give it. */
  function IntToString(i: int): (s: string)
    ensures |s| > 0
    ensures (i < 0) <==> (s[0] == '-')
  {
    if i < 0 then "-" + NatToString(-i) else NatToString(i)
  }

  predicate StartsWith(s: string, prefix: string) {
    |prefix| <= |s| && s[..|prefix|] == prefix
  }

  predicate EndsWith(s: string, suffix: string) {
    |suffix| <= |s| && s[|s| - |suffix|..] == suffix
  }
}
