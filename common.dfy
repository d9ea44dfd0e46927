/** Values shared by every part of the model: identifiers, instants, optional
    values, the outcome of an operation that may throw, and the few string
    operations of java.lang.String (and Kotlin/Swift equivalents) the services
    rely on. */
module Common {

  /** Document and row identifiers are opaque strings. */
  type Id = string

  /** An instant is a count of milliseconds since 1970-01-01T00:00:00Z. */
  type Instant = int

  datatype Option<+T> = None | Some(value: T)

  /** The outcome of a call that either returns a value or throws an exception
      carrying a message. */
  datatype Result<+T> = Ok(value: T) | Err(message: string)

  function Min(a: int, b: int): int { if a <= b then a else b }

  function Max(a: int, b: int): int { if a >= b then a else b }

  /** `s.startsWith(prefix)` */
  predicate StartsWith(s: string, prefix: string) {
    |prefix| <= |s| && s[..|prefix|] == prefix
  }

  /** `s.contains(sub)`: `sub` occurs at position `i` of `s`. */
  predicate OccursAt(s: string, sub: string, i: int) {
    0 <= i && i + |sub| <= |s| && s[i..i + |sub|] == sub
  }

  /** `s.contains(sub)` */
  predicate Contains(s: string, sub: string) {
    exists i :: 0 <= i <= |s| && OccursAt(s, sub, i)
  }

  /** `s.contains(sub)`, computed by scanning the positions from `from` on. */
  function ContainsFrom(s: string, sub: string, from: nat): (b: bool)
    decreases |s| - from
    ensures b <==> exists i :: from <= i && OccursAt(s, sub, i)
  {
    if from + |sub| > |s| then
      false
    else if s[from..from + |sub|] == sub then
      assert OccursAt(s, sub, from);
      true
    else
      var b := ContainsFrom(s, sub, from + 1);
      assert !OccursAt(s, sub, from);
      b
  }

  /** ASCII lower-casing, the part of `toLowerCase()` the keyword rules need. */
  function LowerChar(c: char): char {
    if 'A' <= c <= 'Z' then (c as int - 'A' as int + 'a' as int) as char else c
  }

  function ToLower(s: string): (r: string)
    ensures |r| == |s|
    ensures forall i :: 0 <= i < |s| ==> r[i] == LowerChar(s[i])
  {
    if s == [] then [] else [LowerChar(s[0])] + ToLower(s[1..])
  }

  /** `String.trim()` removes every leading and trailing character whose code
      is at most U+0020. */
  predicate IsTrimmable(c: char) { c <= ' ' }

  function TrimStart(s: string): (r: string)
    ensures |r| <= |s| && r == s[|s| - |r|..]
    ensures r == [] || !IsTrimmable(r[0])
  {
    if s != [] && IsTrimmable(s[0]) then TrimStart(s[1..]) else s
  }

  function TrimEnd(s: string): (r: string)
    ensures |r| <= |s| && r == s[..|r|]
    ensures r == [] || !IsTrimmable(r[|r| - 1])
  {
    if s != [] && IsTrimmable(s[|s| - 1]) then TrimEnd(s[..|s| - 1]) else s
  }

  function Trim(s: string): string { TrimEnd(TrimStart(s)) }

  predicate IsDigit(c: char) { '0' <= c <= '9' }

  /** The range of Java's `long`. */
  const LongMin := -0x8000_0000_0000_0000
  const LongMax := 0x7fff_ffff_ffff_ffff

  predicate IsLong(x: int) { LongMin <= x <= LongMax }

  /** Two's-complement wrap-around of Java `long` arithmetic. */
  function Wrap64(x: int): (r: int)
    ensures IsLong(r)
    ensures IsLong(x) ==> r == x
    ensures (r - x) % 0x1_0000_0000_0000_0000 == 0
  {
    (x - LongMin) % 0x1_0000_0000_0000_0000 + LongMin
  }
}
