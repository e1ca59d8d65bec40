/** String operations of java.lang.String that the modelled code relies on, over seq<char>. */
module Text {

  predicate StartsWith(s: string, prefix: string)
  {
    |prefix| <= |s| && s[..|prefix|] == prefix
  }

  predicate EndsWith(s: string, suffix: string)
  {
    |suffix| <= |s| && s[|s| - |suffix|..] == suffix
  }

  /** String.contains: `part` occurs somewhere in `s`. */
  predicate Contains(s: string, part: string)
  {
    exists i | 0 <= i <= |s| :: OccursAt(s, part, i)
  }

  predicate OccursAt(s: string, part: string, i: int)
  {
    0 <= i <= |s| - |part| && s[i..i + |part|] == part
  }

  /** StringUtils.isBlank for the ASCII whitespace characters. */
  predicate IsBlank(s: string)
  {
    forall i :: 0 <= i < |s| ==> s[i] in {' ', '\t', '\n', '\r', '\U{000B}', '\U{000C}'}
  }

  /**
   * String.replace(target, replacement): every non-overlapping occurrence of `target`,
   * scanned left to right, is replaced. An empty target puts the replacement before
   * every character and at the end, as Java does.
   */
  function ReplaceAll(s: string, target: string, replacement: string): string
    decreases |s|
  {
    if target == [] then
      (if s == [] then replacement else replacement + [s[0]] + ReplaceAll(s[1..], target, replacement))
    else if |s| < |target| then s
    else if s[..|target|] == target then replacement + ReplaceAll(s[|target|..], target, replacement)
    else [s[0]] + ReplaceAll(s[1..], target, replacement)
  }

  /** Replacing a one-character target, one character at a time. */
  lemma ReplaceCharCons(s: string, c: char, replacement: string)
    requires s != []
    ensures ReplaceAll(s, [c], replacement)
      == (if s[0] == c then replacement else [s[0]]) + ReplaceAll(s[1..], [c], replacement)
  {
    assert s[..1] == [s[0]];
  }

  /** The characters of `s` other than `c`, in order. */
  function Without(s: string, c: char): (r: string)
    ensures c !in r
    ensures forall x :: x in r ==> x in s
    ensures |r| <= |s|
  {
    if s == [] then [] else if s[0] == c then Without(s[1..], c) else [s[0]] + Without(s[1..], c)
  }

  /** Replacing a one-character target by nothing deletes every occurrence of that character. */
  lemma {:induction false} ReplaceCharByNothing(s: string, c: char)
    ensures ReplaceAll(s, [c], []) == Without(s, c)
  {
    if |s| >= 1 {
      ReplaceCharByNothing(s[1..], c);
      assert s[..1] == [s[0]];
    }
  }

  lemma {:induction false} WithoutIdempotent(s: string, c: char)
    ensures Without(Without(s, c), c) == Without(s, c)
  {
    if s != [] {
      WithoutIdempotent(s[1..], c);
    }
  }

  /** Deleting a character distributes over concatenation. */
  lemma {:induction false} WithoutAppend(a: string, b: string, c: char)
    ensures Without(a + b, c) == Without(a, c) + Without(b, c)
  {
    if a == [] {
      assert a + b == b;
    } else {
      assert (a + b)[0] == a[0];
      assert (a + b)[1..] == a[1..] + b;
      WithoutAppend(a[1..], b, c);
    }
  }

  /** Replacing a target that does not occur changes nothing. */
  lemma {:induction false} ReplaceAbsent(s: string, target: string, replacement: string)
    requires target != []
    requires !Contains(s, target)
    ensures ReplaceAll(s, target, replacement) == s
  {
    if |s| >= |target| {
      assert !OccursAt(s, target, 0);
      assert s[..|target|] != target;
      forall i | 0 <= i
        ensures !OccursAt(s[1..], target, i)
      {
        assert !OccursAt(s, target, i + 1);
        if i <= |s[1..]| - |target| {
          assert s[1..][i..i + |target|] == s[i + 1..i + 1 + |target|];
        }
      }
      ReplaceAbsent(s[1..], target, replacement);
    }
  }

  function LowerChar(c: char): (r: char)
    ensures 'A' <= c <= 'Z' ==> 'a' <= r <= 'z'
    ensures !('A' <= c <= 'Z') ==> r == c
  {
    if 'A' <= c <= 'Z' then (c as int - 'A' as int + 'a' as int) as char else c
  }

  /** String.toLowerCase restricted to the ASCII letters. */
  function ToLower(s: string): (r: string)
    ensures |r| == |s|
    ensures forall i :: 0 <= i < |s| ==> r[i] == LowerChar(s[i])
  {
    if s == [] then [] else [LowerChar(s[0])] + ToLower(s[1..])
  }

  lemma ToLowerIdempotent(s: string)
    ensures ToLower(ToLower(s)) == ToLower(s)
  {
    assert forall i :: 0 <= i < |s| ==> ToLower(ToLower(s))[i] == ToLower(s)[i];
  }

  /** String.lastIndexOf(c): the last index holding `c`, or -1. */
  function LastIndexOf(s: string, c: char): (r: int)
    ensures -1 <= r < |s|
    ensures r >= 0 ==> s[r] == c
    ensures forall i :: r < i < |s| ==> s[i] != c
  {
    if s == [] then -1
    else if s[|s| - 1] == c then |s| - 1
    else LastIndexOf(s[..|s| - 1], c)
  }

  function DigitChar(d: int): char
    requires 0 <= d < 10
  {
    "0123456789"[d]
  }

  /** The decimal form of a natural number, most significant digit first. */
  function NatToString(n: nat): (r: string)
    ensures |r| >= 1
    decreases n
  {
    if n < 10 then [DigitChar(n)] else NatToString(n / 10) + [DigitChar(n % 10)]
  }

  /** String.valueOf(int) and the %d conversion. */
  function IntToString(n: int): string
  {
    if n < 0 then "-" + NatToString(-n) else NatToString(n)
  }

  /** The pieces between the occurrences of `c`, empty ones included. */
  function Pieces(s: string, c: char): (r: seq<string>)
    ensures |r| >= 1
    ensures forall k :: 0 <= k < |r| ==> c !in r[k]
  {
    if s == [] then [[]]
    else if s[0] == c then [[]] + Pieces(s[1..], c)
    else
      var p := Pieces(s[1..], c);
      [[s[0]] + p[0]] + p[1..]
  }

  function DropTrailingEmpty(ps: seq<string>): (r: seq<string>)
    ensures |r| <= |ps| && r == ps[..|r|]
    ensures r != [] ==> r[|r| - 1] != []
  {
    if ps != [] && ps[|ps| - 1] == [] then DropTrailingEmpty(ps[..|ps| - 1]) else ps
  }

  /**
   * String.split on a one-character regular expression: a string without `c` is its own only
   * piece; otherwise the pieces with the trailing empty ones removed.
   */
  function Split(s: string, c: char): seq<string>
  {
    if c !in s then [s] else DropTrailingEmpty(Pieces(s, c))
  }

  lemma {:induction false} PiecesAppend(a: string, c: char, rest: string)
    requires c !in a
    ensures Pieces(a + [c] + rest, c) == [a] + Pieces(rest, c)
  {
    if a != [] {
      assert (a + [c] + rest)[1..] == a[1..] + [c] + rest;
      assert a[0] in a && [a[0]] + a[1..] == a;
      PiecesAppend(a[1..], c, rest);
    } else {
      assert (a + [c] + rest)[1..] == rest;
    }
  }

  lemma {:induction false} PiecesWithout(a: string, c: char)
    requires c !in a
    ensures Pieces(a, c) == [a]
  {
    if a != [] {
      assert a[0] in a && [a[0]] + a[1..] == a;
      PiecesWithout(a[1..], c);
    }
  }

  /** Three parts joined by a separator none of them contains split back into those parts. */
  lemma SplitThree(a: string, b: string, d: string, c: char)
    requires c !in a && c !in b && c !in d && d != []
    ensures Split(a + [c] + b + [c] + d, c) == [a, b, d]
  {
    var s := a + [c] + b + [c] + d;
    assert s[|a|] == c;
    assert a + [c] + b + [c] + d == a + [c] + (b + [c] + d);
    PiecesAppend(a, c, b + [c] + d);
    PiecesAppend(b, c, d);
    PiecesWithout(d, c);
  }

  /** Two parts joined by a separator neither contains split back into those parts. */
  lemma SplitTwo(a: string, b: string, c: char)
    requires c !in a && c !in b && b != []
    ensures Split(a + [c] + b, c) == [a, b]
  {
    assert (a + [c] + b)[|a|] == c;
    PiecesAppend(a, c, b);
    PiecesWithout(b, c);
  }
}
