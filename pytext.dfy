/**
 * The few Python string builtins the service relies on, stated over `string`
 * (a sequence of Unicode scalar values): `str.isspace`, `str.strip()`,
 * `str.rfind`, slicing with a clamped upper bound, and `str.join`.
 */
module PyText {

  /** Python's `str.isspace()` for one code point: the characters `str.strip()` removes. */
  predicate IsSpace(c: char) {
    var n := c as int;
    || n == 0x20
    || 0x09 <= n <= 0x0D
    || 0x1C <= n <= 0x1F
    || n == 0x85 || n == 0xA0 || n == 0x1680
    || 0x2000 <= n <= 0x200A
    || n == 0x2028 || n == 0x2029 || n == 0x202F || n == 0x205F || n == 0x3000
  }

  function Min(a: int, b: int): int { if a <= b then a else b }

  function Max(a: int, b: int): int { if a >= b then a else b }

  /** The number of whitespace characters at the front of `s`. */
  function LeadingSpaces(s: string): (n: nat)
    ensures n <= |s|
  {
    if s == [] || !IsSpace(s[0]) then 0 else 1 + LeadingSpaces(s[1..])
  }

  /** `LeadingSpaces` counts exactly the whitespace run at the front. */
  lemma {:induction false} LeadingSpacesSpec(s: string)
    ensures forall k :: 0 <= k < LeadingSpaces(s) ==> IsSpace(s[k])
    ensures LeadingSpaces(s) < |s| ==> !IsSpace(s[LeadingSpaces(s)])
  {
    if s != [] && IsSpace(s[0]) {
      LeadingSpacesSpec(s[1..]);
    }
  }

  /**
   * Python's `s.strip()` with no argument: whitespace is dropped from the front,
   * then from the back, one character at a time.
   */
  function Strip(s: string): (r: string)
    ensures |r| <= |s|
  {
    if s != [] && IsSpace(s[0]) then Strip(s[1..])
    else if s != [] && IsSpace(s[|s| - 1]) then Strip(s[..|s| - 1])
    else s
  }

  /** `strip()` keeps a slice of `s` that starts after the leading whitespace and is followed only by whitespace. */
  lemma {:induction false} StripCore(s: string)
    ensures LeadingSpaces(s) + |Strip(s)| <= |s|
    ensures Strip(s) == s[LeadingSpaces(s)..LeadingSpaces(s) + |Strip(s)|]
    ensures forall k :: LeadingSpaces(s) + |Strip(s)| <= k < |s| ==> IsSpace(s[k])
  {
    if s != [] && IsSpace(s[0]) {
      var t := s[1..];
      StripCore(t);
      var a, b := LeadingSpaces(t), LeadingSpaces(t) + |Strip(t)|;
      assert LeadingSpaces(s) == 1 + a && Strip(s) == Strip(t);
      assert t[a..b] == s[1 + a..1 + b];
    } else if s != [] && IsSpace(s[|s| - 1]) {
      var t := s[..|s| - 1];
      StripCore(t);
      assert LeadingSpaces(t) == 0;
    }
  }

  /** What `strip()` keeps neither starts nor ends with whitespace. */
  lemma {:induction false} StripEnds(s: string)
    ensures Strip(s) != [] ==> !IsSpace(Strip(s)[0]) && !IsSpace(Strip(s)[|Strip(s)| - 1])
  {
    if s != [] && IsSpace(s[0]) {
      StripEnds(s[1..]);
    } else if s != [] && IsSpace(s[|s| - 1]) {
      StripEnds(s[..|s| - 1]);
    }
  }

  /**
   * `strip()` keeps the middle part of `s` that neither starts nor ends with
   * whitespace, starting after the leading whitespace run; everything it cuts
   * off on either side is whitespace.
   */
  lemma StripSpec(s: string)
    ensures LeadingSpaces(s) + |Strip(s)| <= |s|
    ensures Strip(s) == s[LeadingSpaces(s)..LeadingSpaces(s) + |Strip(s)|]
    ensures forall k :: 0 <= k < LeadingSpaces(s) ==> IsSpace(s[k])
    ensures forall k :: LeadingSpaces(s) + |Strip(s)| <= k < |s| ==> IsSpace(s[k])
    ensures Strip(s) != [] ==> !IsSpace(Strip(s)[0]) && !IsSpace(Strip(s)[|Strip(s)| - 1])
  {
    LeadingSpacesSpec(s);
    StripCore(s);
    StripEnds(s);
  }

  /** A string with no whitespace at either end is its own `strip()`. */
  lemma StripUnpadded(s: string)
    requires s == [] || (!IsSpace(s[0]) && !IsSpace(s[|s| - 1]))
    ensures Strip(s) == s
  {
  }

  /** `strip()` is idempotent: stripping a chunk again changes nothing. */
  lemma StripIdempotent(s: string)
    ensures Strip(Strip(s)) == Strip(s)
  {
    StripEnds(s);
    StripUnpadded(Strip(s));
  }

  /** Python's `s.rfind(c)`. */
  function RFind(s: string, c: char): (r: int)
    ensures -1 <= r < |s|
  {
    if s == [] then -1
    else if s[|s| - 1] == c then |s| - 1
    else RFind(s[..|s| - 1], c)
  }

  /** `RFind` gives the index of the last `c` in `s`, or -1 when `s` has none. */
  lemma {:induction false} RFindSpec(s: string, c: char)
    ensures RFind(s, c) >= 0 ==> s[RFind(s, c)] == c
    ensures forall k :: RFind(s, c) < k < |s| ==> s[k] != c
  {
    if s != [] && s[|s| - 1] != c {
      RFindSpec(s[..|s| - 1], c);
    }
  }

  /** Python's `text[lo:hi]` for `0 <= lo <= len(text)` and `lo <= hi`: the upper bound is clamped. */
  function Slice(text: string, lo: nat, hi: int): (r: string)
    requires lo <= |text| && lo <= hi
    ensures |r| == Min(hi, |text|) - lo
  {
    if hi <= |text| then text[lo..hi] else text[lo..]
  }

  /** The number of characters in all of `parts` together. */
  function TotalLength(parts: seq<string>): nat {
    if parts == [] then 0 else |parts[0]| + TotalLength(parts[1..])
  }

  /** Python's `sep.join(parts)`. */
  function Join(sep: string, parts: seq<string>): (r: string)
    ensures parts == [] ==> r == ""
    ensures |parts| == 1 ==> r == parts[0]
  {
    if |parts| == 0 then ""
    else if |parts| == 1 then parts[0]
    else parts[0] + sep + Join(sep, parts[1..])
  }

  /** `sep.join(parts)` holds every part and one `sep` between each two neighbours, and nothing else. */
  lemma {:induction false} JoinLength(sep: string, parts: seq<string>)
    requires parts != []
    ensures |Join(sep, parts)| == TotalLength(parts) + (|parts| - 1) * |sep|
  {
    if |parts| > 1 {
      JoinLength(sep, parts[1..]);
    }
  }

  /** Where the `i`-th part starts inside `Join(sep, parts)`. */
  function JoinOffset(sep: string, parts: seq<string>, i: nat): nat
    requires i <= |parts|
  {
    if i == 0 then 0 else |parts[0]| + |sep| + JoinOffset(sep, parts[1..], i - 1)
  }

  /** A slice of `a + b` that lies wholly in `b`. */
  lemma SliceOfSuffix<T>(a: seq<T>, b: seq<T>, lo: nat, hi: nat)
    requires |a| <= lo <= hi <= |a| + |b|
    ensures (a + b)[lo..hi] == b[lo - |a|..hi - |a|]
  {
  }

  /** The first part of `sep.join(parts)` sits at offset 0, followed by `sep` when more parts follow. */
  lemma JoinFirst(sep: string, parts: seq<string>)
    requires |parts| > 0
    ensures |parts[0]| <= |Join(sep, parts)|
    ensures Join(sep, parts)[..|parts[0]|] == parts[0]
    ensures |parts| > 1 ==> Join(sep, parts) == parts[0] + sep + Join(sep, parts[1..])
    ensures |parts| == 1 ==> Join(sep, parts) == parts[0]
  {
  }

  /** Where part `i` of `sep.join(parts)` lies, and what follows it. */
  ghost predicate PartAt(sep: string, parts: seq<string>, i: nat)
    requires i < |parts|
  {
    var j, o := Join(sep, parts), JoinOffset(sep, parts, i);
    && o + |parts[i]| <= |j|
    && j[o..o + |parts[i]|] == parts[i]
    && (i + 1 < |parts| ==>
          JoinOffset(sep, parts, i + 1) == o + |parts[i]| + |sep| <= |j| &&
          j[o + |parts[i]|..o + |parts[i]| + |sep|] == sep)
    && (i + 1 == |parts| ==> o + |parts[i]| == |j|)
  }

  lemma JoinLayoutFirst(sep: string, parts: seq<string>)
    requires |parts| > 0
    ensures PartAt(sep, parts, 0)
  {
    JoinFirst(sep, parts);
    if |parts| > 1 {
      var tail := sep + Join(sep, parts[1..]);
      assert Join(sep, parts) == parts[0] + tail;
      SliceOfSuffix(parts[0], tail, |parts[0]|, |parts[0]| + |sep|);
    }
  }

  /** A slice of `b` is found again in `a + b`, shifted by `|a|`. */
  lemma ShiftedSlice(a: string, b: string, lo: nat, hi: nat, x: string)
    requires lo <= hi <= |b| && b[lo..hi] == x
    ensures |a| + hi <= |a + b| && (a + b)[|a| + lo..|a| + hi] == x
  {
    SliceOfSuffix(a, b, |a| + lo, |a| + hi);
  }

  lemma JoinLayoutShift(sep: string, parts: seq<string>, i: nat)
    requires 0 < i < |parts|
    requires PartAt(sep, parts[1..], i - 1)
    ensures PartAt(sep, parts, i)
  {
    var head, rest := parts[0] + sep, parts[1..];
    var j, whole := Join(sep, rest), Join(sep, parts);
    var o, n := JoinOffset(sep, rest, i - 1), |parts[i]|;
    assert rest[i - 1] == parts[i];
    assert whole == head + j;
    assert JoinOffset(sep, parts, i) == |head| + o;
    assert o + n <= |j| && j[o..o + n] == parts[i];
    ShiftedSlice(head, j, o, o + n, parts[i]);
    if i + 1 < |parts| {
      assert JoinOffset(sep, parts, i + 1) == |head| + JoinOffset(sep, rest, i);
      assert o + n + |sep| <= |j| && j[o + n..o + n + |sep|] == sep;
      ShiftedSlice(head, j, o + n, o + n + |sep|, sep);
    } else {
      assert o + n == |j|;
    }
  }

  /**
   * The layout of `sep.join(parts)`: part `i` appears whole at `JoinOffset(i)`,
   * followed by `sep` unless it is the last part, and nothing follows the last part.
   */
  lemma {:induction false} JoinLayout(sep: string, parts: seq<string>, i: nat)
    requires i < |parts|
    ensures PartAt(sep, parts, i)
  {
    if i == 0 {
      JoinLayoutFirst(sep, parts);
    } else {
      JoinLayout(sep, parts[1..], i - 1);
      JoinLayoutShift(sep, parts, i);
    }
  }
}
