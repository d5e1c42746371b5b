/**
 * The few pieces of the Java platform whose exact behaviour the model relies on:
 * `String.trim` (behind the `@NotBlank` constraint), the hash codes of `Long`
 * and `String`, and the single-field `hashCode` that Lombok generates.
 */
module JavaLang {
  import opened Wrappers

  /** A `LocalDateTime` reading, supplied by the caller instead of a clock. */
  type Timestamp = int

  /** `String.trim` removes every code unit at or below U+0020 from both ends. */
  predicate IsTrimmable(c: char) {
    c <= ' '
  }

  /** Drops the leading trimmable characters. */
  function TrimStart(s: string): string {
    if s != [] && IsTrimmable(s[0]) then TrimStart(s[1..]) else s
  }

  /** Drops the trailing trimmable characters. */
  function TrimEnd(s: string): string {
    if s != [] && IsTrimmable(s[|s| - 1]) then TrimEnd(s[..|s| - 1]) else s
  }

  /** `String.trim`. */
  function Trim(s: string): string {
    TrimEnd(TrimStart(s))
  }

  /** `TrimStart` drops exactly the longest prefix of trimmable characters. */
  lemma {:induction false} TrimStartDropsLongestPrefix(s: string)
    ensures |TrimStart(s)| <= |s| && TrimStart(s) == s[|s| - |TrimStart(s)|..]
    ensures forall i :: 0 <= i < |s| - |TrimStart(s)| ==> IsTrimmable(s[i])
    ensures TrimStart(s) != [] ==> !IsTrimmable(TrimStart(s)[0])
  {
    if s != [] && IsTrimmable(s[0]) {
      var t := TrimStart(s[1..]);
      TrimStartDropsLongestPrefix(s[1..]);
      assert TrimStart(s) == t;
      assert s[1..][|s| - 1 - |t|..] == s[|s| - |t|..];
      forall i | 0 <= i < |s| - |t| ensures IsTrimmable(s[i]) {
        if i > 0 {
          assert s[i] == s[1..][i - 1];
        }
      }
    }
  }

  /** `TrimEnd` drops exactly the longest suffix of trimmable characters. */
  lemma {:induction false} TrimEndDropsLongestSuffix(s: string)
    ensures |TrimEnd(s)| <= |s| && TrimEnd(s) == s[..|TrimEnd(s)|]
    ensures forall i :: |TrimEnd(s)| <= i < |s| ==> IsTrimmable(s[i])
    ensures TrimEnd(s) != [] ==> !IsTrimmable(TrimEnd(s)[|TrimEnd(s)| - 1])
  {
    if s != [] && IsTrimmable(s[|s| - 1]) {
      var t := TrimEnd(s[..|s| - 1]);
      TrimEndDropsLongestSuffix(s[..|s| - 1]);
      assert TrimEnd(s) == t;
      assert s[..|s| - 1][..|t|] == s[..|t|];
      forall i | |t| <= i < |s| ensures IsTrimmable(s[i]) {
        if i < |s| - 1 {
          assert s[i] == s[..|s| - 1][i];
        }
      }
    }
  }

  /**
   * Jakarta's `@NotBlank` as Hibernate Validator implements it: a value is
   * blank when it is null or when `trim()` leaves nothing.
   */
  predicate IsBlank(s: Option<string>) {
    s.None? || Trim(s.value) == ""
  }

  /** The value is present and has a character above U+0020. */
  predicate HasContent(value: Option<string>) {
    value.Some? && exists i :: 0 <= i < |value.value| && !IsTrimmable(value.value[i])
  }

  /** A string is blank exactly when every one of its characters is trimmable. */
  lemma BlankIffAllTrimmable(s: string)
    ensures IsBlank(Some(s)) <==> forall i :: 0 <= i < |s| ==> IsTrimmable(s[i])
  {
    var t := TrimStart(s);
    TrimStartDropsLongestPrefix(s);
    TrimEndDropsLongestSuffix(t);
    if Trim(s) != "" {
      var k := |s| - |t|;
      assert t[0] == s[k];
      assert !IsTrimmable(s[k]);
    }
  }

  /** A Java `int`, as its 32 bits. */
  type Int32 = bv32

  /** `Long.hashCode(v)`: `(int) (v ^ (v >>> 32))`, on the two's-complement bits of `v`. */
  function LongHashCode(v: int): Int32 {
    var bits := (v % 0x1_0000_0000_0000_0000) as bv64;
    (((bits ^ (bits >> 32)) as int) % 0x1_0000_0000) as bv32
  }

  /** The UTF-16 code units of a string, as Java stores it. */
  function Utf16(s: string): (units: seq<int>)
    ensures forall k :: 0 <= k < |units| ==> 0 <= units[k] < 0x1_0000
  {
    if s == [] then []
    else
      var c := s[0] as int;
      var head := if c < 0x1_0000 then [c]
                  else [0xD800 + (c - 0x1_0000) / 0x400, 0xDC00 + (c - 0x1_0000) % 0x400];
      head + Utf16(s[1..])
  }

  /** `String.hashCode()`: `h = 31 * h + unit` over the UTF-16 code units, wrapping at 32 bits. */
  function StringHashCode(s: string): Int32 {
    HashUnits(Utf16(s))
  }

  function HashUnits(units: seq<int>): Int32
    requires forall k :: 0 <= k < |units| ==> 0 <= units[k] < 0x1_0000
  {
    if units == [] then 0
    else 31 * HashUnits(units[..|units| - 1]) + (units[|units| - 1] as bv32)
  }

  /** Lombok's `hashCode` over one included field: `1 * 59 + (field == null ? 43 : field.hashCode())`. */
  function LombokHashCode(fieldHash: Option<Int32>): Int32 {
    59 + fieldHash.GetOr(43)
  }
}
