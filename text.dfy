/**
 * String helpers shared by the client and the backend model: whitespace
 * trimming (JavaScript `String.prototype.trim`, Python `str.strip`),
 * ASCII lower-casing, substring search, joining and decimal rendering.
 */
module Text {

  datatype Option<T> = None | Some(value: T)

  /** The whitespace characters both trims remove (the ASCII subset). */
  predicate IsSpace(c: char) {
    c == ' ' || c == '\t' || c == '\n' || c == '\r' || c == '\U{0B}' || c == '\U{0C}'
  }

  function TrimStart(s: string): string {
    if s != [] && IsSpace(s[0]) then TrimStart(s[1..]) else s
  }

  function TrimEnd(s: string): string {
    if s != [] && IsSpace(s[|s| - 1]) then TrimEnd(s[..|s| - 1]) else s
  }

  /** `TrimStart` keeps a suffix that is empty or starts with a non-space. */
  lemma {:induction false} TrimStartShape(s: string)
    ensures |TrimStart(s)| <= |s| && TrimStart(s) == s[|s| - |TrimStart(s)|..]
    ensures TrimStart(s) == [] || !IsSpace(TrimStart(s)[0])
  {
    if s != [] && IsSpace(s[0]) {
      TrimStartShape(s[1..]);
    }
  }

  /** `TrimEnd` keeps a prefix that is empty or ends with a non-space. */
  lemma {:induction false} TrimEndShape(s: string)
    ensures |TrimEnd(s)| <= |s| && TrimEnd(s) == s[..|TrimEnd(s)|]
    ensures TrimEnd(s) == [] || !IsSpace(TrimEnd(s)[|TrimEnd(s)| - 1])
  {
    if s != [] && IsSpace(s[|s| - 1]) {
      TrimEndShape(s[..|s| - 1]);
    }
  }

  /** Only whitespace is dropped from the front. */
  lemma {:induction false} TrimStartDropsSpace(s: string)
    ensures forall i :: 0 <= i < |s| - |TrimStart(s)| ==> IsSpace(s[i])
  {
    if s != [] && IsSpace(s[0]) {
      TrimStartDropsSpace(s[1..]);
      TrimStartShape(s[1..]);
      forall i | 1 <= i < |s| - |TrimStart(s)| ensures IsSpace(s[i]) {
        assert s[i] == s[1..][i - 1];
      }
    }
  }

  /** Only whitespace is dropped from the end. */
  lemma {:induction false} TrimEndDropsSpace(s: string)
    ensures forall i :: |TrimEnd(s)| <= i < |s| ==> IsSpace(s[i])
  {
    if s != [] && IsSpace(s[|s| - 1]) {
      TrimEndDropsSpace(s[..|s| - 1]);
      TrimEndShape(s[..|s| - 1]);
      forall i | |TrimEnd(s)| <= i < |s| - 1 ensures IsSpace(s[i]) {
        assert s[i] == s[..|s| - 1][i];
      }
    }
  }

  /** `s.trim()` / `s.strip()`: leading and trailing whitespace removed. */
  function Trim(s: string): string {
    TrimEnd(TrimStart(s))
  }

  /** True when `s` holds only whitespace: falsy after trimming (`BlankIffTrimEmpty`). */
  predicate IsBlank(s: string) {
    forall i :: 0 <= i < |s| ==> IsSpace(s[i])
  }

  predicate Trimmed(s: string) {
    s == [] || (!IsSpace(s[0]) && !IsSpace(s[|s| - 1]))
  }

  lemma TrimStartOfTrimmed(s: string)
    requires Trimmed(s)
    ensures TrimStart(s) == s
  {
  }

  lemma TrimEndOfTrimmed(s: string)
    requires Trimmed(s)
    ensures TrimEnd(s) == s
  {
  }

  /** Trimming leaves nothing to trim, and a trimmed string is its own trim. */
  lemma {:induction false} TrimIsTrimmed(s: string)
    ensures Trimmed(Trim(s))
  {
    var a := TrimStart(s);
    var r := TrimEnd(a);
    TrimStartShape(s);
    TrimEndShape(a);
    if r != [] {
      assert r[0] == a[0];
    }
  }

  lemma TrimOfTrimmed(s: string)
    requires Trimmed(s)
    ensures Trim(s) == s
  {
    TrimStartOfTrimmed(s);
    TrimEndOfTrimmed(s);
  }

  lemma TrimIdempotent(s: string)
    ensures Trim(Trim(s)) == Trim(s)
  {
    TrimIsTrimmed(s);
    TrimOfTrimmed(Trim(s));
  }

  /** Trimming leaves nothing exactly when every character is whitespace. */
  lemma {:induction false} BlankIffTrimEmpty(s: string)
    ensures IsBlank(s) <==> Trim(s) == ""
  {
    var a := TrimStart(s);
    TrimStartShape(s);
    TrimEndShape(a);
    TrimStartDropsSpace(s);
    if Trim(s) == "" {
      TrimEndDropsSpace(a);
      assert a == [];
    } else {
      assert a != [] && a[0] == s[|s| - |a|];
    }
  }

  function LowerChar(c: char): char {
    if 'A' <= c <= 'Z' then (c as int + 32) as char else c
  }

  /** `s.lower()`, on the ASCII letters. */
  function ToLower(s: string): (r: string)
    ensures |r| == |s|
    ensures forall i :: 0 <= i < |s| ==> r[i] == LowerChar(s[i])
  {
    seq(|s|, i requires 0 <= i < |s| => LowerChar(s[i]))
  }

  /** `p` occurs in `s` starting at index `i`. */
  predicate OccursAt(s: string, p: string, i: int) {
    0 <= i <= |s| - |p| && s[i..i + |p|] == p
  }

  /** `p in s` (Python) / `s.includes(p)` (JavaScript). */
  predicate Contains(s: string, p: string) {
    exists i :: 0 <= i <= |s| - |p| && OccursAt(s, p, i)
  }

  /** A string lacking one of the characters of `p` cannot contain `p`. */
  lemma MissingChar(s: string, p: string, c: char)
    requires c in p && c !in s
    ensures !Contains(s, p)
  {
    forall i | 0 <= i <= |s| - |p| ensures !OccursAt(s, p, i) {
      var j :| 0 <= j < |p| && p[j] == c;
      assert s[i..i + |p|][j] == s[i + j];
    }
  }

  /**
   * An occurrence of `p` in `a + [c] + b` cannot straddle `c` when `c` is
   * not a character of `p`.
   */
  lemma SplitForeign(a: string, c: char, b: string, p: string)
    requires c !in p && !Contains(a, p) && !Contains(b, p)
    ensures !Contains(a + [c] + b, p)
  {
    var s := a + [c] + b;
    forall i | 0 <= i <= |s| - |p| ensures !OccursAt(s, p, i) {
      if i + |p| <= |a| {
        assert !OccursAt(a, p, i);
        assert s[i..i + |p|] == a[i..i + |p|];
      } else if i > |a| {
        assert !OccursAt(b, p, i - |a| - 1);
        assert s[i..i + |p|] == b[i - |a| - 1..i - |a| - 1 + |p|];
      } else {
        assert s[i..i + |p|][|a| - i] == c;
      }
    }
  }

  /** `p` occurs in `a + p` right after `a`. */
  lemma OccursAtEnd(a: string, p: string)
    ensures OccursAt(a + p, p, |a|)
  {
    assert (a + p)[|a|..] == p;
  }

  /** `p` occurs at the start of `p + t`. */
  lemma OccursAtStart(p: string, t: string)
    ensures OccursAt(p + t, p, 0)
  {
    assert (p + t)[..|p|] == p;
  }

  /** An occurrence survives appending text after it. */
  lemma OccursExtend(s: string, p: string, i: int, t: string)
    requires OccursAt(s, p, i)
    ensures OccursAt(s + t, p, i)
  {
    assert (s + t)[i..i + |p|] == s[i..i + |p|];
  }

  /** An occurrence survives prepending text, shifted by its length. */
  lemma OccursPrepend(a: string, s: string, p: string, i: int)
    requires OccursAt(s, p, i)
    ensures OccursAt(a + s, p, |a| + i)
  {
    assert (a + s)[|a| + i..|a| + i + |p|] == s[i..i + |p|];
  }

  /** A string without the tail `p[k..]` of `p` cannot contain `p` itself. */
  lemma MissingSuffix(s: string, p: string, k: nat)
    requires k <= |p| && !Contains(s, p[k..])
    ensures !Contains(s, p)
  {
    forall i | 0 <= i <= |s| - |p| ensures !OccursAt(s, p, i) {
      assert !OccursAt(s, p[k..], i + k);
      assert s[i..i + |p|][k..] == s[i + k..i + k + |p[k..]|];
    }
  }

  /** Lower-casing leaves a string without capital letters unchanged. */
  lemma ToLowerOfLower(s: string)
    requires forall c :: 'A' <= c <= 'Z' ==> c !in s
    ensures ToLower(s) == s
  {
    forall i | 0 <= i < |s| ensures ToLower(s)[i] == s[i] {
      assert s[i] in s;
    }
  }

  /** The parts joined with `sep` between neighbours (`Array.prototype.join`). */
  function Join(parts: seq<string>, sep: string): string
    decreases |parts|
  {
    if |parts| == 0 then ""
    else if |parts| == 1 then parts[0]
    else Join(parts[..|parts| - 1], sep) + sep + parts[|parts| - 1]
  }

  /** An occurrence of `p` in `s` is still one in any extension of `s`. */
  lemma ContainsExtend(s: string, p: string, t: string)
    requires Contains(s, p)
    ensures Contains(s + t, p)
  {
    var k :| 0 <= k <= |s| - |p| && OccursAt(s, p, k);
    OccursExtend(s, p, k, t);
  }

  /** Where part `i` starts in `Join(parts, sep)`. */
  function JoinOffset(parts: seq<string>, sep: string, i: nat): nat
    requires i <= |parts|
    decreases i
  {
    if i == 0 then 0 else JoinOffset(parts, sep, i - 1) + |parts[i - 1]| + |sep|
  }

  /** Offsets strictly increase with the part index, so parts keep their order. */
  lemma {:induction false} JoinOffsetIncreasing(parts: seq<string>, sep: string, i: nat, j: nat)
    requires i < j <= |parts| && sep != ""
    ensures JoinOffset(parts, sep, i) < JoinOffset(parts, sep, j)
    decreases j
  {
    if i < j - 1 {
      JoinOffsetIncreasing(parts, sep, i, j - 1);
    }
  }

  lemma {:induction false} JoinOffsetOfPrefix(parts: seq<string>, sep: string, k: nat, i: nat)
    requires i <= k <= |parts|
    ensures JoinOffset(parts[..k], sep, i) == JoinOffset(parts, sep, i)
    decreases i
  {
    if i > 0 {
      JoinOffsetOfPrefix(parts, sep, k, i - 1);
    }
  }

  /**
   * Every part occurs in the joined string at its offset, and the joined
   * string ends right after the last part.
   */
  lemma {:induction false} JoinLayout(parts: seq<string>, sep: string, i: nat)
    requires i < |parts|
    ensures OccursAt(Join(parts, sep), parts[i], JoinOffset(parts, sep, i))
    ensures |Join(parts, sep)| == JoinOffset(parts, sep, |parts| - 1) + |parts[|parts| - 1]|
    decreases |parts|
  {
    var n := |parts|;
    if n == 1 {
      assert Join(parts, sep)[0..|parts[0]|] == parts[0];
    } else {
      var init := parts[..n - 1];
      var front := Join(init, sep) + sep;
      assert Join(parts, sep) == front + parts[n - 1];
      JoinLayout(init, sep, n - 2);
      JoinOffsetOfPrefix(parts, sep, n - 1, n - 2);
      JoinOffsetOfPrefix(parts, sep, n - 1, n - 1);
      if i == n - 1 {
        OccursAtEnd(front, parts[n - 1]);
      } else {
        JoinLayout(init, sep, i);
        JoinOffsetOfPrefix(parts, sep, n - 1, i);
        OccursExtend(Join(init, sep), parts[i], JoinOffset(parts, sep, i), sep);
        OccursExtend(front, parts[i], JoinOffset(parts, sep, i), parts[n - 1]);
      }
    }
  }

  /** Joining one more part appends the separator and that part. */
  lemma JoinAppend(parts: seq<string>, sep: string, p: string)
    requires |parts| > 0
    ensures Join(parts + [p], sep) == Join(parts, sep) + sep + p
  {
    assert (parts + [p])[..|parts|] == parts;
  }

  /** `list.reverse()`: the same elements, last first. */
  function Reverse<T>(s: seq<T>): (r: seq<T>)
    ensures |r| == |s|
    ensures forall i :: 0 <= i < |s| ==> r[i] == s[|s| - 1 - i]
  {
    seq(|s|, i requires 0 <= i < |s| => s[|s| - 1 - i])
  }

  /** `s.substring(0, n)`: at most the first n characters. */
  function Prefix(s: string, n: nat): (r: string)
    ensures |r| == if |s| < n then |s| else n
    ensures r == s[..|r|]
  {
    if |s| <= n then s else s[..n]
  }

  function DigitChar(d: nat): char
    requires d < 10
  {
    ('0' as int + d) as char
  }

  /** Decimal rendering of a natural number, without leading zeros. */
  function NatToString(n: nat): (r: string)
    ensures r != []
    decreases n
  {
    if n < 10 then [DigitChar(n)] else NatToString(n / 10) + [DigitChar(n % 10)]
  }

  /** Decimal rendering of an integer, with a leading minus when negative. */
  function IntToString(n: int): string {
    if n < 0 then "-" + NatToString(-n) else NatToString(n)
  }

  function PadFour(n: nat): string
    requires n < 10000
  {
    [DigitChar(n / 1000), DigitChar(n / 100 % 10), DigitChar(n / 10 % 10), DigitChar(n % 10)]
  }

  /**
   * Fixed-point rendering with four decimals (`x.toFixed(4)`, `f"{x:.4f}"`),
   * rounding ties away from zero on the exact value.
   */
  function Fixed4(x: real): string {
    var magnitude := if x < 0.0 then -x else x;
    var scaled := (magnitude * 10000.0 + 0.5).Floor;
    (if x < 0.0 then "-" else "") + NatToString(scaled / 10000) + "." + PadFour(scaled % 10000)
  }
}
