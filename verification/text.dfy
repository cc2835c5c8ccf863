/**
 The few .NET string operations the naming conventions and the context provider
 rely on: `string.IsNullOrWhiteSpace`, `ToLowerInvariant` (restricted to ASCII
 letters) and `string.Replace` of one character by another.
 */
module Text {
  import opened Wrappers

  /** `char.IsWhiteSpace`: the Unicode space, line and paragraph separators,
      U+0009..U+000D and U+0085. */
  predicate IsWhiteSpace(c: char) {
    var n := c as int;
    || (0x09 <= n <= 0x0D)
    || n == 0x20 || n == 0x85 || n == 0xA0 || n == 0x1680
    || (0x2000 <= n <= 0x200A)
    || n == 0x2028 || n == 0x2029 || n == 0x202F || n == 0x205F || n == 0x3000
  }

  /** `string.IsNullOrWhiteSpace`: null, empty, or made only of white space. */
  predicate IsNullOrWhiteSpace(s: Option<string>) {
    match s
    case None => true
    case Some(t) => forall i :: 0 <= i < |t| ==> IsWhiteSpace(t[i])
  }

  predicate IsUpper(c: char) {
    'A' <= c <= 'Z'
  }

  /** A string that lower-casing leaves alone. */
  predicate IsLower(s: string) {
    forall i :: 0 <= i < |s| ==> !IsUpper(s[i])
  }

  function LowerChar(c: char): (r: char)
    ensures !IsUpper(r)
    ensures !IsUpper(c) ==> r == c
    ensures IsUpper(c) ==> r as int - c as int == 'a' as int - 'A' as int
  {
    if IsUpper(c) then (c as int - 'A' as int + 'a' as int) as char else c
  }

  /** `ToLowerInvariant`, character by character. */
  function Lower(s: string): (r: string)
    ensures |r| == |s|
    ensures forall i :: 0 <= i < |s| ==> r[i] == LowerChar(s[i])
    ensures IsLower(r)
  {
    if s == [] then [] else [LowerChar(s[0])] + Lower(s[1..])
  }

  /** `s.Replace(from, to)` for single-character arguments. */
  function ReplaceChar(s: string, from: char, to: char): (r: string)
    ensures |r| == |s|
    ensures forall i :: 0 <= i < |s| ==> r[i] == (if s[i] == from then to else s[i])
    ensures from != to ==> from !in r
  {
    if s == [] then [] else [if s[0] == from then to else s[0]] + ReplaceChar(s[1..], from, to)
  }

  /** Lower-cased strings are fixed points of lower-casing. */
  lemma LowerFixesLower(s: string)
    requires IsLower(s)
    ensures Lower(s) == s
  {
    assert forall i :: 0 <= i < |s| ==> Lower(s)[i] == s[i];
  }

  /** Lower-casing is idempotent. */
  lemma LowerIdempotent(s: string)
    ensures Lower(Lower(s)) == Lower(s)
  {
    LowerFixesLower(Lower(s));
  }

  /** Lower-casing distributes over concatenation. */
  lemma {:induction false} LowerAppend(a: string, b: string)
    ensures Lower(a + b) == Lower(a) + Lower(b)
  {
    if a == [] {
      assert a + b == b;
    } else {
      assert (a + b)[1..] == a[1..] + b;
      LowerAppend(a[1..], b);
    }
  }

  /** Lower-casing a six-part concatenation whose even parts are already
      lower-case lower-cases only its odd parts. */
  lemma LowerAppendSixLowerParts(a: string, b: string, c: string, d: string, e: string, f: string)
    requires IsLower(b) && IsLower(d) && IsLower(f)
    ensures Lower(a + b + c + d + e + f) == Lower(a) + b + Lower(c) + d + Lower(e) + f
  {
    LowerAppend(a, b);
    LowerAppend(a + b, c);
    LowerAppend(a + b + c, d);
    LowerAppend(a + b + c + d, e);
    LowerAppend(a + b + c + d + e, f);
    LowerFixesLower(b);
    LowerFixesLower(d);
    LowerFixesLower(f);
  }

  /** Lower-casing never creates nor removes a character that is not a
      letter, such as the `.` separator. */
  lemma LowerKeepsNonLetter(s: string, c: char)
    requires !IsUpper(c) && !('a' <= c <= 'z')
    ensures c in Lower(s) <==> c in s
  {
  }

  /** The characters that lower-case to a given lower-case letter. */
  lemma LowerCharTo(c: char, l: char)
    requires 'a' <= l <= 'z'
    ensures LowerChar(c) == l <==> c == l || c as int == l as int - 32
  {
  }

  /** A string lower-cases to `w` exactly when it has `w`'s length and each
      of its characters lower-cases to the matching character of `w`. */
  lemma LowerIsPointwise(t: string, w: string)
    ensures Lower(t) == w <==> |t| == |w| && forall i :: 0 <= i < |t| ==> LowerChar(t[i]) == w[i]
  {
    if |t| == |w| && forall i :: 0 <= i < |t| ==> LowerChar(t[i]) == w[i] {
      assert forall i :: 0 <= i < |t| ==> Lower(t)[i] == w[i];
    }
  }

  /** The upper-case partner of a lower-case letter. */
  function UpperOf(l: char): (u: char)
    requires 'a' <= l <= 'z'
    ensures IsUpper(u) && LowerChar(u) == l
  {
    (l as int - 32) as char
  }

  /** Whether `c` is `l` in either case. */
  predicate EitherCase(c: char, l: char)
    requires 'a' <= l <= 'z'
  {
    c == l || c == UpperOf(l)
  }

  /** A five-character string lower-cases to "redis" exactly when each of
      its characters is the matching letter of "redis" in either case. */
  lemma LowerIsRedisPointwise(t: string)
    requires |t| == 5
    ensures (forall i :: 0 <= i < 5 ==> LowerChar(t[i]) == "redis"[i]) <==>
      (EitherCase(t[0], 'r') && EitherCase(t[1], 'e') && EitherCase(t[2], 'd')
       && EitherCase(t[3], 'i') && EitherCase(t[4], 's'))
  {
    var w := "redis";
    assert w[0] == 'r' && w[1] == 'e' && w[2] == 'd' && w[3] == 'i' && w[4] == 's';
    forall i | 0 <= i < 5
      ensures LowerChar(t[i]) == w[i] <==> EitherCase(t[i], w[i])
    {
      LowerCharTo(t[i], w[i]);
    }
  }

  /** `ToLowerInvariant() == "redis"` holds exactly for the mixed-case
      spellings of "redis". */
  lemma LowerIsRedis(t: string)
    ensures Lower(t) == "redis" <==>
      && |t| == 5
      && EitherCase(t[0], 'r') && EitherCase(t[1], 'e') && EitherCase(t[2], 'd')
      && EitherCase(t[3], 'i') && EitherCase(t[4], 's')
  {
    LowerIsPointwise(t, "redis");
    if |t| == 5 {
      LowerIsRedisPointwise(t);
    }
  }
}
