/** String primitives shared by the backend and the frontend models:
    ASCII lower-casing (Python `str.lower`, SQL `LOWER`, the case folding of `ILIKE`),
    substring containment (Python `in`, `LIKE '%x%'`), whitespace stripping (Python
    `str.strip`, JavaScript `trim`), JavaScript `split(' ')` with its inverse `join(' ')`,
    and decimal rendering of naturals (f-strings). */
module Text {

  /** The characters Python's `strip()` and JavaScript's `trim()` remove (ASCII part). */
  predicate IsSpace(c: char) {
    c == ' ' || c == '\t' || c == '\n' || c == '\r' || c == '\U{000B}' || c == '\U{000C}'
  }

  predicate IsDigit(c: char) {
    '0' <= c <= '9'
  }

  function LowerChar(c: char): (d: char)
    ensures IsSpace(d) <==> IsSpace(c)
    ensures !('A' <= d <= 'Z')
  {
    if 'A' <= c <= 'Z' then (c as int + 32) as char else c
  }

  /** Lower-casing, character by character. */
  function Lower(s: string): (r: string)
    ensures |r| == |s|
    ensures forall i :: 0 <= i < |s| ==> r[i] == LowerChar(s[i])
  {
    seq(|s|, i requires 0 <= i < |s| => LowerChar(s[i]))
  }

  lemma LowerIdempotent(s: string)
    ensures Lower(Lower(s)) == Lower(s)
  {
  }

  lemma LowerConcat(a: string, b: string)
    ensures Lower(a + b) == Lower(a) + Lower(b)
  {
  }

  /** `p` occurs in `s` starting at index `i`. */
  predicate OccursAt(s: string, p: string, i: int) {
    0 <= i && i + |p| <= |s| && s[i..i + |p|] == p
  }

  /** Substring containment: Python `p in s`, SQL `s LIKE '%p%'`. */
  predicate Contains(s: string, p: string) {
    exists i | 0 <= i <= |s| - |p| :: OccursAt(s, p, i)
  }

  predicate StartsWith(s: string, p: string) {
    |p| <= |s| && s[..|p|] == p
  }

  /** A needle with a character the haystack lacks does not occur in it. */
  lemma AbsentChar(s: string, p: string, k: nat)
    requires k < |p| && p[k] !in s
    ensures !Contains(s, p)
  {
  }

  /** An occurrence shown character by character. */
  lemma OccursAtChars(s: string, p: string, i: nat)
    requires i + |p| <= |s| && forall k :: 0 <= k < |p| ==> s[i + k] == p[k]
    ensures Contains(s, p)
  {
    assert s[i..i + |p|] == p;
    assert OccursAt(s, p, i);
  }

  lemma ContainsInfix(a: string, b: string, c: string)
    ensures Contains(a + b + c, b)
  {
    assert OccursAt(a + b + c, b, |a|);
  }

  /** An occurrence survives adding text on either side. */
  lemma ContainsExtend(s: string, p: string, before: string, after: string)
    requires Contains(s, p)
    ensures Contains(before + s + after, p)
  {
    var i :| 0 <= i <= |s| - |p| && OccursAt(s, p, i);
    assert (before + s + after)[|before| + i..|before| + i + |p|] == s[i..i + |p|];
    assert OccursAt(before + s + after, p, |before| + i);
  }

  lemma ContainsAppend(s: string, p: string, after: string)
    requires Contains(s, p)
    ensures Contains(s + after, p)
  {
    ContainsExtend(s, p, "", after);
    assert "" + s + after == s + after;
  }

  lemma ContainsPrepend(s: string, p: string, before: string)
    requires Contains(s, p)
    ensures Contains(before + s, p)
  {
    ContainsExtend(s, p, before, "");
    assert before + s + "" == before + s;
  }

  lemma StartsWithAppend(s: string, p: string, after: string)
    requires StartsWith(s, p)
    ensures StartsWith(s + after, p)
  {
    assert (s + after)[..|p|] == s[..|p|];
  }

  lemma ContainsItself(s: string)
    ensures Contains(s, s)
  {
    assert OccursAt(s, s, 0);
  }

  function TrimStart(s: string): (r: string)
    ensures |r| <= |s| && r == s[|s| - |r|..]
    ensures forall i :: 0 <= i < |s| - |r| ==> IsSpace(s[i])
    ensures r != [] ==> !IsSpace(r[0])
    decreases |s|
  {
    if |s| > 0 && IsSpace(s[0]) then TrimStart(s[1..]) else s
  }

  /** The first index from `i` on that holds no whitespace, or `|s|`. */
  function FirstNonSpace(s: string, i: nat): (k: nat)
    requires i <= |s|
    ensures i <= k <= |s|
    ensures forall j :: i <= j < k ==> IsSpace(s[j])
    ensures k < |s| ==> !IsSpace(s[k])
    decreases |s| - i
  {
    if i == |s| || !IsSpace(s[i]) then i else FirstNonSpace(s, i + 1)
  }

  /** The end of `s[a..j]` once its trailing whitespace is dropped. */
  function LastEnd(s: string, a: nat, j: nat): (k: nat)
    requires a <= j <= |s|
    ensures a <= k <= j
    ensures forall m :: k <= m < j ==> IsSpace(s[m])
    ensures a < k ==> !IsSpace(s[k - 1])
    decreases j
  {
    if j == a || !IsSpace(s[j - 1]) then j else LastEnd(s, a, j - 1)
  }

  /** Python `str.strip()` / JavaScript `String.prototype.trim()`: the result is the
      slice `s[a..b]` left after removing the whitespace before `a` and from `b` on. */
  function Strip(s: string): (r: string)
    ensures exists a, b :: 0 <= a <= b <= |s| && r == s[a..b] && Stripped(s, a, b)
    ensures r != [] ==> !IsSpace(r[0]) && !IsSpace(r[|r| - 1])
  {
    var a := FirstNonSpace(s, 0);
    var b := LastEnd(s, a, |s|);
    assert Stripped(s, a, b);
    s[a..b]
  }

  /** Everything in `s` outside `s[a..b]` is whitespace. */
  predicate Stripped(s: string, a: int, b: int)
    requires 0 <= a <= b <= |s|
  {
    (forall i :: 0 <= i < a ==> IsSpace(s[i])) && (forall i :: b <= i < |s| ==> IsSpace(s[i]))
  }

  lemma StripIdempotent(s: string)
    ensures Strip(Strip(s)) == Strip(s)
  {
    var r := Strip(s);
    assert FirstNonSpace(r, 0) == 0;
    assert LastEnd(r, 0, |r|) == |r|;
    assert r[0..|r|] == r;
  }

  lemma StripAllSpace(s: string)
    ensures Strip(s) == [] <==> forall i :: 0 <= i < |s| ==> IsSpace(s[i])
  {
    if Strip(s) == [] {
      var a, b :| 0 <= a <= b <= |s| && Strip(s) == s[a..b] && Stripped(s, a, b);
      forall i | 0 <= i < |s| ensures IsSpace(s[i]) {
        if i >= a { assert i >= b; }
      }
    }
  }

  /** An occurrence in the slice `s[a..b]` is an occurrence in `s`. */
  lemma OccursInSlice(s: string, a: int, b: int, w: string, i: int)
    requires 0 <= a <= b <= |s| && OccursAt(s[a..b], w, i)
    ensures OccursAt(s, w, a + i)
  {
    var t := s[a..b];
    forall k | 0 <= k < |w| ensures s[a + i + k] == w[k] {
      assert t[i..i + |w|][k] == w[k];
    }
    assert s[a + i..a + i + |w|] == w;
  }

  /** A non-empty word that neither starts nor ends with whitespace. */
  predicate SolidEnds(w: string) {
    |w| > 0 && !IsSpace(w[0]) && !IsSpace(w[|w| - 1])
  }

  /** A word with solid ends that occurs in `s` lies inside the unstripped part. */
  lemma OccursInStripped(s: string, a: int, b: int, w: string, i: int)
    requires 0 <= a <= b <= |s| && Stripped(s, a, b)
    requires SolidEnds(w)
    requires OccursAt(s, w, i)
    ensures OccursAt(s[a..b], w, i - a)
  {
    assert s[i] == w[0] by { assert s[i..i + |w|][0] == w[0]; }
    assert s[i + |w| - 1] == w[|w| - 1] by { assert s[i..i + |w|][|w| - 1] == w[|w| - 1]; }
    assert a <= i && i + |w| <= b;
    var t := s[a..b];
    forall k | 0 <= k < |w| ensures t[i - a + k] == w[k] {
      assert s[i..i + |w|][k] == w[k];
    }
    assert t[i - a..i - a + |w|] == w;
  }

  /** Stripping does not change whether a word with solid ends occurs. */
  lemma StripKeepsWords(s: string, w: string)
    requires SolidEnds(w)
    ensures Contains(Strip(s), w) <==> Contains(s, w)
  {
    var a, b :| 0 <= a <= b <= |s| && Strip(s) == s[a..b] && Stripped(s, a, b);
    if i :| 0 <= i <= |s[a..b]| - |w| && OccursAt(s[a..b], w, i) {
      OccursInSlice(s, a, b, w, i);
    }
    if i :| 0 <= i <= |s| - |w| && OccursAt(s, w, i) {
      OccursInStripped(s, a, b, w, i);
    }
  }

  /** Lower-casing keeps whitespace where it is, so both scans find the same index. */
  lemma {:induction false} LowerFirstNonSpace(s: string, i: nat)
    requires i <= |s|
    ensures FirstNonSpace(Lower(s), i) == FirstNonSpace(s, i)
    decreases |s| - i
  {
    if i < |s| && IsSpace(s[i]) {
      LowerFirstNonSpace(s, i + 1);
    }
  }

  lemma {:induction false} LowerLastEnd(s: string, a: nat, j: nat)
    requires a <= j <= |s|
    ensures LastEnd(Lower(s), a, j) == LastEnd(s, a, j)
    decreases j
  {
    if a < j && IsSpace(s[j - 1]) {
      LowerLastEnd(s, a, j - 1);
    }
  }

  lemma LowerStrip(s: string)
    ensures Lower(Strip(s)) == Strip(Lower(s))
  {
    LowerFirstNonSpace(s, 0);
    var a := FirstNonSpace(s, 0);
    LowerLastEnd(s, a, |s|);
    var b := LastEnd(s, a, |s|);
    assert Lower(s[a..b]) == Lower(s)[a..b];
  }

  /** JavaScript `s.split(' ')`: the pieces between single spaces, empty ones kept. */
  function SplitSpace(s: string): (parts: seq<string>)
    ensures |parts| >= 1
    ensures forall p :: p in parts ==> ' ' !in p
    ensures forall p, c :: p in parts && c in p ==> c in s
    decreases |s|
  {
    if s == [] then [""]
    else if s[0] == ' ' then [""] + SplitSpace(s[1..])
    else
      var rest := SplitSpace(s[1..]);
      [[s[0]] + rest[0]] + rest[1..]
  }

  /** `parts.join(' ')`. */
  function JoinSpace(parts: seq<string>): string
    requires |parts| >= 1
    decreases |parts|
  {
    if |parts| == 1 then parts[0] else parts[0] + " " + JoinSpace(parts[1..])
  }

  /** Splitting loses nothing: joining the pieces back gives the name. */
  lemma {:induction false} SplitJoin(s: string)
    ensures JoinSpace(SplitSpace(s)) == s
    decreases |s|
  {
    if s != [] {
      var rest := SplitSpace(s[1..]);
      SplitJoin(s[1..]);
      if s[0] == ' ' {
        assert SplitSpace(s) == [""] + rest;
        JoinCons("", rest);
      } else {
        assert SplitSpace(s) == [[s[0]] + rest[0]] + rest[1..];
        JoinHead([s[0]], rest);
      }
      assert s == [s[0]] + s[1..];
    }
  }

  /** Joining a list that starts with the piece `p`. */
  lemma JoinCons(p: string, rest: seq<string>)
    requires |rest| >= 1
    ensures JoinSpace([p] + rest) == p + " " + JoinSpace(rest)
  {
    assert ([p] + rest)[1..] == rest;
  }

  /** Prefixing the first piece prefixes the joined text. */
  lemma JoinHead(c: string, rest: seq<string>)
    requires |rest| >= 1
    ensures JoinSpace([c + rest[0]] + rest[1..]) == c + JoinSpace(rest)
  {
    var parts := [c + rest[0]] + rest[1..];
    if |rest| == 1 {
      assert parts == [c + rest[0]];
    } else {
      HeadReplacedTail(c, rest);
      JoinUnfold(parts);
      JoinUnfold(rest);
      SpaceAssoc(c, rest[0], JoinSpace(rest[1..]));
    }
  }

  lemma JoinUnfold(parts: seq<string>)
    requires |parts| > 1
    ensures JoinSpace(parts) == parts[0] + " " + JoinSpace(parts[1..])
  {
  }

  lemma HeadReplacedTail(c: string, rest: seq<string>)
    requires |rest| > 1
    ensures ([c + rest[0]] + rest[1..])[1..] == rest[1..]
  {
  }

  lemma SpaceAssoc(c: string, x: string, tail: string)
    ensures (c + x) + " " + tail == c + (x + " " + tail)
  {
  }


  /** A word followed by one space splits into the word and an empty piece. */
  lemma {:induction false} SplitTrailingSpace(w: string)
    requires ' ' !in w
    ensures SplitSpace(w + " ") == [w, ""]
    decreases |w|
  {
    if w == [] {
      assert SplitSpace("") == [""];
      assert w + " " == " ";
    } else {
      assert (w + " ")[1..] == w[1..] + " ";
      SplitTrailingSpace(w[1..]);
      assert [w[0]] + w[1..] == w;
    }
  }

  function DigitChar(d: nat): (c: char)
    requires d < 10
    ensures IsDigit(c)
  {
    ('0' as int + d) as char
  }

  /** Decimal rendering of a natural number, as Python's f-strings and JavaScript's
      template literals print it. */
  function NatToString(n: nat): (r: string)
    ensures 1 <= |r|
    ensures forall i :: 0 <= i < |r| ==> IsDigit(r[i])
    decreases n
  {
    if n < 10 then [DigitChar(n)] else NatToString(n / 10) + [DigitChar(n % 10)]
  }

  /** The decimal rendering is read back by the usual digit-by-digit evaluation. */
  function DigitsValue(s: string): nat
    requires forall i :: 0 <= i < |s| ==> IsDigit(s[i])
  {
    if s == [] then 0
    else
      var d := s[|s| - 1];
      assert IsDigit(d);
      10 * DigitsValue(s[..|s| - 1]) + (d as int - '0' as int)
  }

  lemma {:induction false} NatToStringRoundTrip(n: nat)
    ensures DigitsValue(NatToString(n)) == n
    decreases n
  {
    if n >= 10 {
      NatToStringRoundTrip(n / 10);
      var s := NatToString(n);
      assert s[..|s| - 1] == NatToString(n / 10);
    }
  }

  lemma NatToStringInjective(m: nat, n: nat)
    requires NatToString(m) == NatToString(n)
    ensures m == n
  {
    NatToStringRoundTrip(m);
    NatToStringRoundTrip(n);
  }

  function Min(a: int, b: int): int {
    if a <= b then a else b
  }

  /** Python `s[:n]` / SQL `LIMIT n` for a non-negative `n`. */
  function Take<T>(s: seq<T>, n: nat): (r: seq<T>)
    ensures |r| == Min(n, |s|) && r == s[..|r|]
  {
    if n <= |s| then s[..n] else s
  }
}
