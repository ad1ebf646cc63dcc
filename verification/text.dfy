/**
 * The string primitives shared by the content scorer, the SEO optimizer, the
 * document store and the router: ASCII case folding, substring search, the
 * non-overlapping occurrence count of `str.count`, `str.split` with a
 * separator, whitespace splitting, `str.strip`, and the "maximal run" view of
 * regular expressions such as `\b\w+\b`.
 *
 * Strings are sequences of Unicode scalar values, as Python's `str` is; case
 * folding and the character classes are ASCII-only.
 */
module Text {

  datatype Option<T> = None | Some(value: T)

  // ---------------------------------------------------------------------------
  // Character classes
  // ---------------------------------------------------------------------------

  /**
   * Whitespace as `str.isspace`, `str.strip()`, `str.split()` and the regex
   * class `\s` see it: the ASCII controls and space, the separators below
   * U+0100, and the Unicode space, line and paragraph separators.
   */
  predicate IsSpace(c: char) {
    || c == ' ' || c == '\t' || c == '\n' || c == '\r' || c == '\U{000B}' || c == '\U{000C}'
    || ('\U{001C}' <= c <= '\U{001F}')
    || c == '\U{0085}' || c == '\U{00A0}' || c == '\U{1680}'
    || ('\U{2000}' <= c <= '\U{200A}')
    || c == '\U{2028}' || c == '\U{2029}' || c == '\U{202F}' || c == '\U{205F}' || c == '\U{3000}'
  }

  /** An ASCII decimal digit. */
  predicate IsDigit(c: char) { '0' <= c <= '9' }

  predicate IsUpper(c: char) { 'A' <= c <= 'Z' }

  predicate IsLower(c: char) { 'a' <= c <= 'z' }

  predicate IsLetter(c: char) { IsUpper(c) || IsLower(c) }

  /** The regex class `\w`: letters, digits and the underscore. */
  predicate IsWordChar(c: char) { IsLetter(c) || IsDigit(c) || c == '_' }

  predicate IsNonSpace(c: char) { !IsSpace(c) }

  predicate AllSpace(s: string) { forall i :: 0 <= i < |s| ==> IsSpace(s[i]) }

  // ---------------------------------------------------------------------------
  // Case folding
  // ---------------------------------------------------------------------------

  function LowerChar(c: char): char {
    if IsUpper(c) then (c as int + 32) as char else c
  }

  function UpperChar(c: char): char {
    if IsLower(c) then (c as int - 32) as char else c
  }

  /** `str.lower()` on ASCII letters; every other character is kept. */
  function Lower(s: string): (r: string)
    ensures |r| == |s|
    ensures forall i :: 0 <= i < |s| ==> r[i] == LowerChar(s[i])
  {
    seq(|s|, i requires 0 <= i < |s| => LowerChar(s[i]))
  }

  lemma LowerIdempotent(s: string)
    ensures Lower(Lower(s)) == Lower(s)
  {
    assert forall i :: 0 <= i < |s| ==> LowerChar(LowerChar(s[i])) == LowerChar(s[i]);
  }

  lemma LowerAppend(a: string, b: string)
    ensures Lower(a + b) == Lower(a) + Lower(b)
  {
  }

  lemma LowerSlice(s: string, i: nat, j: nat)
    requires i <= j <= |s|
    ensures Lower(s[i..j]) == Lower(s)[i..j]
  {
  }

  // ---------------------------------------------------------------------------
  // Prefixes, suffixes, substrings
  // ---------------------------------------------------------------------------

  predicate StartsWith(s: string, p: string) {
    |p| <= |s| && s[..|p|] == p
  }

  predicate EndsWith(s: string, p: string) {
    |p| <= |s| && s[|s| - |p|..] == p
  }

  /** `sub` occurs in `s` starting at index `i`. */
  predicate OccursAt(s: string, sub: string, i: int) {
    0 <= i && i + |sub| <= |s| && s[i..i + |sub|] == sub
  }

  /** Python's `sub in s`. */
  predicate Contains(s: string, sub: string)
    decreases |s|
  {
    StartsWith(s, sub) || (s != [] && Contains(s[1..], sub))
  }

  lemma {:induction false} ContainsIffOccurs(s: string, sub: string)
    ensures Contains(s, sub) <==> exists i :: OccursAt(s, sub, i)
    decreases |s|
  {
    if StartsWith(s, sub) {
      assert OccursAt(s, sub, 0);
    } else if s == [] {
      forall i ensures !OccursAt(s, sub, i) {
      }
    } else {
      ContainsIffOccurs(s[1..], sub);
      if Contains(s[1..], sub) {
        var i :| OccursAt(s[1..], sub, i);
        assert s[i + 1..i + 1 + |sub|] == s[1..][i..i + |sub|];
        assert OccursAt(s, sub, i + 1);
      } else {
        forall i | OccursAt(s, sub, i) ensures false {
          assert i != 0;
          assert s[1..][i - 1..i - 1 + |sub|] == s[i..i + |sub|];
          assert OccursAt(s[1..], sub, i - 1);
        }
      }
    }
  }

  /** A substring of `x` is a substring of any text that has `x` inside it. */
  lemma ContainsWithin(a: string, x: string, b: string, sub: string)
    requires Contains(x, sub)
    ensures Contains(a + x + b, sub)
  {
    ContainsIffOccurs(x, sub);
    var i :| OccursAt(x, sub, i);
    var s := a + x + b;
    assert s[|a| + i..|a| + i + |sub|] == x[i..i + |sub|];
    assert OccursAt(s, sub, |a| + i);
    ContainsIffOccurs(s, sub);
  }

  /** An occurrence inside the slice `s[a..b]` is an occurrence in `s`, shifted by `a`. */
  lemma OccursInSlice(s: string, a: nat, b: nat, sub: string, j: int)
    requires a <= b <= |s| && OccursAt(s[a..b], sub, j)
    ensures OccursAt(s, sub, a + j)
  {
    var u := s[a..b][j..j + |sub|];
    var v := s[a + j..a + j + |sub|];
    assert |u| == |v| && forall k :: 0 <= k < |u| ==> u[k] == v[k];
    assert u == v;
  }

  /** A substring of a slice of `s` is a substring of `s`. */
  lemma ContainsInSlice(s: string, a: nat, b: nat, sub: string)
    requires a <= b <= |s| && Contains(s[a..b], sub)
    ensures Contains(s, sub)
  {
    ContainsIffOccurs(s[a..b], sub);
    var j :| OccursAt(s[a..b], sub, j);
    OccursInSlice(s, a, b, sub, j);
    ContainsIffOccurs(s, sub);
  }

  /** Taking `k` characters of the suffix from `i` is slicing from `i` to `i + k`. */
  lemma SliceOfSuffix(s: string, i: nat, k: nat)
    requires i + k <= |s|
    ensures s[i..][..k] == s[i..i + k]
    ensures s[i..][k..] == s[i + k..]
  {
  }

  /** A substring of a substring of `s` is a substring of `s`. */
  lemma ContainsTransitive(s: string, mid: string, sub: string)
    requires Contains(s, mid) && Contains(mid, sub)
    ensures Contains(s, sub)
  {
    ContainsIffOccurs(s, mid);
    var i :| OccursAt(s, mid, i);
    assert s == s[..i] + mid + s[i + |mid|..];
    ContainsWithin(s[..i], mid, s[i + |mid|..], sub);
  }

  /** What the lower-cased ending of `t` contains, the lower-cased `t` contains. */
  lemma ContainsInEnding(t: string, x: string, sub: string)
    requires EndsWith(t, x) && Contains(Lower(x), sub)
    ensures Contains(Lower(t), sub)
  {
    var a := |t| - |x|;
    assert t[a..|t|] == x;
    LowerSlice(t, a, |t|);
    ContainsInSlice(Lower(t), a, |t|, sub);
  }

  /** Every text contains itself. */
  lemma ContainsSelf(s: string)
    ensures Contains(s, s)
  {
    assert StartsWith(s, s);
  }

  /** Python's `any(w in s for w in words)`. */
  predicate ContainsAny(s: string, words: seq<string>) {
    exists w :: w in words && Contains(s, w)
  }

  /** Python's `sum(1 for w in words if w in s)`. */
  function CountContained(s: string, words: seq<string>): (n: nat)
    ensures n <= |words|
    ensures n > 0 <==> ContainsAny(s, words)
  {
    if words == [] then 0
    else (if Contains(s, words[0]) then 1 else 0) + CountContained(s, words[1..])
  }

  /** Appending text keeps every listed word it already contained, so the count never drops. */
  lemma {:induction false} CountContainedExtends(a: string, b: string, words: seq<string>)
    ensures CountContained(a, words) <= CountContained(a + b, words)
  {
    if words != [] {
      CountContainedExtends(a, b, words[1..]);
      if Contains(a, words[0]) {
        ContainsWithin([], a, b, words[0]);
        assert [] + a + b == a + b;
      }
    }
  }

  /** Some digit of `s` is immediately followed by `suffix`: the regex `\d+` followed by `suffix`. */
  predicate DigitFollowedBy(s: string, suffix: string) {
    exists i :: 0 <= i < |s| && IsDigit(s[i]) && StartsWith(s[i + 1..], suffix)
  }

  // ---------------------------------------------------------------------------
  // str.find, str.count, str.split, str.join
  // ---------------------------------------------------------------------------

  /** Python's `s.find(sub)`: the first index at which `sub` occurs, or -1. */
  function Find(s: string, sub: string): (r: int)
    ensures r == -1 || OccursAt(s, sub, r)
    ensures r == -1 <==> !Contains(s, sub)
    ensures forall i :: 0 <= i < r ==> !OccursAt(s, sub, i)
    decreases |s|
  {
    if StartsWith(s, sub) then
      OccursAtStart(s, sub);
      0
    else if s == [] then -1
    else
      var k := Find(s[1..], sub);
      if k < 0 then -1
      else
        OccursAtStart(s, sub);
        OccursShift(s, sub, k + 1);
        assert forall i :: 1 <= i < k + 1 ==> !OccursAt(s, sub, i) by {
          forall i | 1 <= i < k + 1 ensures !OccursAt(s, sub, i) {
            OccursShift(s, sub, i);
          }
        }
        k + 1
  }

  lemma OccursAtStart(s: string, sub: string)
    ensures OccursAt(s, sub, 0) <==> StartsWith(s, sub)
  {
    if |sub| <= |s| {
      assert s[0..|sub|] == s[..|sub|];
    }
  }

  /** An occurrence past the first character is an occurrence in the rest. */
  lemma OccursShift(s: string, sub: string, i: int)
    requires s != [] && 1 <= i
    ensures OccursAt(s, sub, i) <==> OccursAt(s[1..], sub, i - 1)
  {
    if i + |sub| <= |s| {
      var u := s[1..][i - 1..i - 1 + |sub|];
      var v := s[i..i + |sub|];
      forall k | 0 <= k < |sub| ensures u[k] == v[k] {
        assert u[k] == s[1..][i - 1 + k] == s[i + k];
      }
      assert u == v;
    }
  }

  /**
   * Python's `s.count(sub)`: occurrences found scanning left to right and
   * resuming after each match, so they never overlap. The empty string occurs
   * `|s| + 1` times.
   */
  function Count(s: string, sub: string): (n: nat)
    decreases |s|
  {
    if sub == [] then |s| + 1
    else
      var i := Find(s, sub);
      if i < 0 then 0 else 1 + Count(s[i + |sub|..], sub)
  }

  /** Past a first character where `sub` does not start, `find` looks in the rest. */
  lemma FindStep(s: string, sub: string)
    requires s != [] && !StartsWith(s, sub)
    ensures Find(s, sub) == if Find(s[1..], sub) < 0 then -1 else Find(s[1..], sub) + 1
  {
  }

  lemma {:induction false} CountPositiveIffContains(s: string, sub: string)
    ensures Count(s, sub) > 0 <==> Contains(s, sub)
  {
    if sub == [] {
      assert StartsWith(s, sub);
    }
  }

  /** Non-overlapping occurrences of `sub` fit in `s`. */
  lemma {:induction false} CountBound(s: string, sub: string)
    requires sub != []
    ensures Count(s, sub) * |sub| <= |s|
    decreases |s|
  {
    var i := Find(s, sub);
    if i >= 0 {
      CountBound(s[i + |sub|..], sub);
      CountBoundStep(s, sub, Count(s[i + |sub|..], sub));
    } else {
      CountBoundNone(s, sub);
    }
  }

  lemma CountBoundNone(s: string, sub: string)
    requires sub != [] && Find(s, sub) < 0
    ensures Count(s, sub) * |sub| <= |s|
  {
    CountStep(s, sub);
  }

  lemma CountBoundStep(s: string, sub: string, n: nat)
    requires sub != [] && Find(s, sub) >= 0
    requires n == Count(s[Find(s, sub) + |sub|..], sub) && n * |sub| <= |s| - Find(s, sub) - |sub|
    ensures Count(s, sub) * |sub| <= |s|
  {
    CountStep(s, sub);
    MulSucc(Count(s, sub), n, |sub|);
  }

  lemma MulSucc(c: nat, n: nat, k: nat)
    requires c == 1 + n
    ensures c * k == k + n * k
  {
  }

  /** Python's `s.split(sep)` for a non-empty separator. */
  function Split(s: string, sep: string): (parts: seq<string>)
    requires sep != []
    ensures |parts| == Count(s, sep) + 1
    ensures NoPieceContains(parts, sep)
    decreases |s|
  {
    var i := Find(s, sep);
    if i < 0 then
      SplitNone(s, sep);
      [s]
    else
      var rest := Split(s[i + |sep|..], sep);
      SplitPieces(s, sep, i, rest);
      [s[..i]] + rest
  }

  /** The split of the text after the first separator, behind the text before it, is a split of the whole. */
  lemma SplitPieces(s: string, sep: string, i: int, rest: seq<string>)
    requires sep != [] && i == Find(s, sep) && i >= 0
    requires |rest| == Count(s[i + |sep|..], sep) + 1
    requires NoPieceContains(rest, sep)
    ensures |[s[..i]] + rest| == Count(s, sep) + 1
    ensures NoPieceContains([s[..i]] + rest, sep)
  {
    CountStep(s, sep);
    NothingBeforeFind(s, sep);
  }

  lemma SplitNone(s: string, sep: string)
    requires sep != [] && Find(s, sep) < 0
    ensures |[s]| == Count(s, sep) + 1
    ensures NoPieceContains([s], sep)
  {
    CountStep(s, sep);
  }

  /** No piece holds the separator. */
  predicate NoPieceContains(parts: seq<string>, sep: string) {
    forall p :: p in parts ==> !Contains(p, sep)
  }

  lemma CountStep(s: string, sub: string)
    requires sub != []
    ensures Find(s, sub) < 0 ==> Count(s, sub) == 0
    ensures Find(s, sub) >= 0 ==> Count(s, sub) == 1 + Count(s[Find(s, sub) + |sub|..], sub)
  {
    var i := Find(s, sub);
    if i >= 0 {
      assert Count(s, sub) == 1 + Count(s[i + |sub|..], sub);
    }
  }

  /** The text before the first occurrence does not contain the separator. */
  lemma NothingBeforeFind(s: string, sep: string)
    requires sep != [] && Find(s, sep) >= 0
    ensures !Contains(s[..Find(s, sep)], sep)
  {
    var i := Find(s, sep);
    ContainsIffOccurs(s[..i], sep);
    forall j ensures !OccursAt(s[..i], sep, j) {
      if 0 <= j && j + |sep| <= i {
        assert s[..i][j..j + |sep|] == s[j..j + |sep|];
        assert !OccursAt(s, sep, j);
      }
    }
  }

  /** Python's `sep.join(parts)`. */
  function Join(parts: seq<string>, sep: string): string
    decreases |parts|
  {
    if parts == [] then []
    else if |parts| == 1 then parts[0]
    else parts[0] + sep + Join(parts[1..], sep)
  }

  /** Every piece shows up in the joined text. */
  lemma {:induction false} JoinContainsParts(parts: seq<string>, sep: string, i: nat)
    requires i < |parts|
    ensures Contains(Join(parts, sep), parts[i])
    decreases |parts|
  {
    if |parts| == 1 {
      ContainsSelf(parts[0]);
    } else if i == 0 {
      ContainsSelf(parts[0]);
      ContainsWithin([], parts[0], sep + Join(parts[1..], sep), parts[0]);
      assert [] + parts[0] + (sep + Join(parts[1..], sep)) == Join(parts, sep);
    } else {
      JoinContainsParts(parts[1..], sep, i - 1);
      ContainsWithin(parts[0] + sep, Join(parts[1..], sep), [], parts[i]);
      assert parts[0] + sep + Join(parts[1..], sep) + [] == Join(parts, sep);
    }
  }

  /** Joining a non-empty list starts with its first piece. */
  lemma JoinStartsWithFirst(parts: seq<string>, sep: string)
    requires parts != []
    ensures StartsWith(Join(parts, sep), parts[0])
  {
    if |parts| > 1 {
      assert Join(parts, sep) == parts[0] + (sep + Join(parts[1..], sep));
    }
  }

  lemma {:induction false} SplitJoin(s: string, sep: string)
    requires sep != []
    ensures Join(Split(s, sep), sep) == s
    decreases |s|
  {
    var i := Find(s, sep);
    if i >= 0 {
      var rest := s[i + |sep|..];
      SplitJoin(rest, sep);
      SplitStep(s, sep);
      JoinCons(s[..i], Split(rest, sep), sep);
      AroundOccurrence(s, sep, i);
      assert Join(Split(s, sep), sep) == s[..i] + sep + rest;
    }
  }

  /** Past an occurrence, `split` is the text before it followed by the split of the rest. */
  lemma SplitStep(s: string, sep: string)
    requires sep != [] && Find(s, sep) >= 0
    ensures Split(s, sep) == [s[..Find(s, sep)]] + Split(s[Find(s, sep) + |sep|..], sep)
  {
  }

  lemma JoinCons(p: string, parts: seq<string>, sep: string)
    requires parts != []
    ensures Join([p] + parts, sep) == p + sep + Join(parts, sep)
  {
    assert ([p] + parts)[1..] == parts;
  }

  /** A text is what comes before an occurrence, the occurrence, and what comes after it. */
  lemma AroundOccurrence(s: string, sub: string, i: int)
    requires OccursAt(s, sub, i)
    ensures s == s[..i] + sub + s[i + |sub|..]
  {
    assert s[i..i + |sub|] == sub;
    assert s == s[..i] + s[i..i + |sub|] + s[i + |sub|..];
  }

  /** The first piece of `split` is the text before the first separator. */
  lemma FirstPiece(a: string, sep: string, b: string)
    requires sep != [] && !Contains(a, sep)
    requires a == [] || a[|a| - 1] !in sep
    ensures Split(a + sep + b, sep)[0] == a
  {
    FindAfterBarrier(a, sep, b);
  }

  /**
   * When `x` holds no occurrence of `m` and does not end in a character of
   * `m`, no occurrence can straddle its end, so the first one in `x + m + y`
   * is the one at `|x|`.
   */
  lemma {:induction false} FindAfterBarrier(x: string, m: string, y: string)
    requires m != [] && !Contains(x, m)
    requires x == [] || x[|x| - 1] !in m
    ensures Find(x + m + y, m) == |x|
  {
    var s := x + m + y;
    assert OccursAt(s, m, |x|) by {
      assert s[|x|..|x| + |m|] == m;
    }
    ContainsIffOccurs(s, m);
    ContainsIffOccurs(x, m);
    forall i | 0 <= i < |x| ensures !OccursAt(s, m, i) {
      if i + |m| <= |x| {
        assert x[i..i + |m|] == s[i..i + |m|];
        assert !OccursAt(x, m, i);
      } else {
        assert s[|x| - 1] == x[|x| - 1];
        assert i + |m| <= |s| ==> s[i..i + |m|][|x| - 1 - i] == s[|x| - 1];
      }
    }
    var f := Find(s, m);
    assert f != -1;
    assert !(f > |x|);
  }

  /** A text holding no separator splits into itself alone. */
  lemma SplitWithoutSeparator(s: string, sep: string)
    requires sep != [] && !Contains(s, sep)
    ensures Split(s, sep) == [s]
  {
  }

  /** A text opening with the separator splits into "" and the pieces of the rest. */
  lemma SplitLeadingSeparator(sep: string, y: string)
    requires sep != []
    ensures Split(sep + y, sep) == [""] + Split(y, sep)
  {
    FindAfterBarrier([], sep, y);
    assert [] + sep + y == sep + y;
    assert (sep + y)[|sep|..] == y;
  }

  /** Python's `s.split(sep)[0]` for a separator `s` may or may not contain. */
  function FirstLine(s: string): (r: string)
    ensures r == Split(s, "\n")[0]
    ensures '\n' !in r
  {
    var i := Find(s, "\n");
    assert Contains(Split(s, "\n")[0], "\n") == false;
    if i < 0 then
      assert forall j :: 0 <= j < |s| ==> s[j] != '\n' by {
        ContainsIffOccurs(s, "\n");
        forall j | 0 <= j < |s| ensures s[j] != '\n' {
          assert !OccursAt(s, "\n", j);
          assert s[j..j + 1] == [s[j]];
        }
      }
      s
    else
      assert forall j :: 0 <= j < i ==> s[j] != '\n' by {
        forall j | 0 <= j < i ensures s[j] != '\n' {
          assert !OccursAt(s, "\n", j);
          assert s[j..j + 1] == [s[j]];
        }
      }
      s[..i]
  }

  /** A text without the character holds no one-character occurrence of it. */
  lemma AbsentChar(s: string, c: char)
    requires c !in s
    ensures !Contains(s, [c])
  {
    ContainsIffOccurs(s, [c]);
    forall i ensures !OccursAt(s, [c], i) {
      if 0 <= i < |s| {
        assert s[i] in s;
        assert s[i..i + 1] == [s[i]];
      }
    }
  }

  /** An occurrence in a prefix is an occurrence in the whole text. */
  lemma ContainsInPrefix(s: string, n: nat, sub: string)
    requires n <= |s| && Contains(s[..n], sub)
    ensures Contains(s, sub)
  {
    assert s[..n] == s[0..n];
    ContainsInSlice(s, 0, n, sub);
  }

  /** Regrouping a concatenation; stated once so that long literal messages need not be unfolded to see it. */
  lemma ConcatAssoc<T>(a: seq<T>, b: seq<T>, c: seq<T>)
    ensures a + b + c == a + (b + c)
  {
  }

  /** A single line is its own first line. */
  lemma FirstLineOfLine(s: string)
    requires '\n' !in s
    ensures FirstLine(s) == s
  {
    AbsentChar(s, '\n');
    SplitWithoutSeparator(s, "\n");
  }

  // ---------------------------------------------------------------------------
  // str.strip
  // ---------------------------------------------------------------------------

  function TrimStart(s: string): (r: string)
    ensures |r| <= |s| && r == s[|s| - |r|..]
    ensures AllSpace(s[..|s| - |r|])
    ensures r == [] || !IsSpace(r[0])
    decreases |s|
  {
    if s != [] && IsSpace(s[0]) then
      var r := TrimStart(s[1..]);
      assert s[..|s| - |r|] == [s[0]] + s[1..][..|s| - 1 - |r|];
      r
    else s
  }

  function TrimEnd(s: string): (r: string)
    ensures |r| <= |s| && r == s[..|r|]
    ensures AllSpace(s[|r|..])
    ensures r == [] || !IsSpace(r[|r| - 1])
    decreases |s|
  {
    if s != [] && IsSpace(s[|s| - 1]) then
      var r := TrimEnd(s[..|s| - 1]);
      assert s[|r|..] == s[..|s| - 1][|r|..] + [s[|s| - 1]];
      r
    else s
  }

  /** Where `strip` starts cutting: the length of the leading whitespace. */
  function LeadingSpace(s: string): (i: nat)
    ensures i <= |s| && AllSpace(s[..i])
  {
    |s| - |TrimStart(s)|
  }

  /** Python's `s.strip()`: `s` without its leading and trailing whitespace. */
  function Strip(s: string): (r: string)
    ensures LeadingSpace(s) + |r| <= |s| && r == s[LeadingSpace(s)..LeadingSpace(s) + |r|]
    ensures AllSpace(s[LeadingSpace(s) + |r|..])
    ensures r == [] || (!IsSpace(r[0]) && !IsSpace(r[|r| - 1]))
  {
    StripSlices(s, LeadingSpace(s), TrimStart(s), TrimEnd(TrimStart(s)));
    TrimEnd(TrimStart(s))
  }

  /** A prefix `r` of a suffix `t` of `s` sits inside `s`, followed by what follows it in `t`. */
  lemma StripSlices(s: string, i: nat, t: string, r: string)
    requires |t| <= |s| && i == |s| - |t| && t == s[i..]
    requires |r| <= |t| && r == t[..|r|]
    requires AllSpace(t[|r|..])
    requires t == [] || !IsSpace(t[0])
    requires r == [] || !IsSpace(r[|r| - 1])
    ensures i + |r| <= |s| && r == s[i..i + |r|]
    ensures AllSpace(s[i + |r|..])
    ensures r == [] || (!IsSpace(r[0]) && !IsSpace(r[|r| - 1]))
  {
    SliceOfSuffix(s, i, |r|);
    assert t[|r|..] == s[i + |r|..];
    if r != [] { assert r[0] == t[0]; }
  }

  /** A text that neither starts nor ends with whitespace is its own `strip`. */
  lemma StripUnpadded(s: string)
    requires s != [] && !IsSpace(s[0]) && !IsSpace(s[|s| - 1])
    ensures Strip(s) == s
  {
    assert TrimStart(s) == s;
    assert TrimEnd(s) == s;
  }

  /** `strip` only removes characters, so it cannot create an occurrence. */
  lemma StripKeepsAbsence(s: string, sub: string)
    requires !Contains(s, sub)
    ensures !Contains(Strip(s), sub)
  {
    var i := LeadingSpace(s);
    if Contains(Strip(s), sub) {
      ContainsInSlice(s, i, i + |Strip(s)|, sub);
    }
  }

  /** A fragment that `strip` empties. */
  predicate IsBlank(s: string) { Strip(s) == [] }

  lemma {:induction false} BlankIffAllSpace(s: string)
    ensures IsBlank(s) <==> AllSpace(s)
  {
    if Strip(s) == [] {
      BlankIsSpace(s);
    } else {
      NonBlankHasNonSpace(s);
    }
  }

  lemma BlankIsSpace(s: string)
    requires Strip(s) == []
    ensures AllSpace(s)
  {
    var i := LeadingSpace(s);
    assert AllSpace(s[..i]) && AllSpace(s[i..]);
    assert s == s[..i] + s[i..];
  }

  lemma NonBlankHasNonSpace(s: string)
    requires Strip(s) != []
    ensures LeadingSpace(s) < |s| && !IsSpace(s[LeadingSpace(s)])
  {
    var r := Strip(s);
    var i := LeadingSpace(s);
    assert s[i] == r[0];
  }

  lemma {:induction false} TrimStartOfSpacePrefix(w: string, x: string)
    requires AllSpace(w)
    ensures TrimStart(w + x) == TrimStart(x)
    decreases |w|
  {
    if w != [] {
      assert (w + x)[1..] == w[1..] + x;
      TrimStartOfSpacePrefix(w[1..], x);
    } else {
      assert w + x == x;
    }
  }

  lemma {:induction false} TrimEndOfSpaceSuffix(x: string, w: string)
    requires AllSpace(w)
    ensures TrimEnd(x + w) == TrimEnd(x)
    decreases |w|
  {
    if w != [] {
      assert (x + w)[..|x + w| - 1] == x + w[..|w| - 1];
      TrimEndOfSpaceSuffix(x, w[..|w| - 1]);
    } else {
      assert x + w == x;
    }
  }

  lemma {:induction false} TrimStartAppend(x: string, w: string)
    requires TrimStart(x) != []
    ensures TrimStart(x + w) == TrimStart(x) + w
    decreases |x|
  {
    if x != [] && IsSpace(x[0]) {
      TrimStartSkip(x, w);
      TrimStartAppend(x[1..], w);
    } else {
      TrimStartKeep(x, w);
    }
  }

  lemma TrimStartSkip(x: string, w: string)
    requires x != [] && IsSpace(x[0])
    ensures TrimStart(x) == TrimStart(x[1..])
    ensures TrimStart(x + w) == TrimStart(x[1..] + w)
  {
    assert (x + w)[0] == x[0];
    assert (x + w)[1..] == x[1..] + w;
  }

  lemma TrimStartKeep(x: string, w: string)
    requires x != [] && !IsSpace(x[0])
    ensures TrimStart(x) == x
    ensures TrimStart(x + w) == x + w
  {
    assert (x + w)[0] == x[0];
  }

  /** Whitespace padding on either side does not survive `strip`. */
  lemma {:induction false} StripPadded(w1: string, x: string, w2: string)
    requires AllSpace(w1) && AllSpace(w2)
    ensures Strip(w1 + x + w2) == Strip(x)
  {
    assert w1 + x + w2 == w1 + (x + w2);
    TrimStartOfSpacePrefix(w1, x + w2);
    if TrimStart(x) == [] {
      var i := |x| - |TrimStart(x)|;
      assert AllSpace(x) by { assert x[..i] == x; }
      assert AllSpace(x + w2);
      TrimStartOfSpacePrefix(x + w2, []);
      assert x + w2 + [] == x + w2;
      assert TrimStart(x + w2) == [];
    } else {
      TrimStartAppend(x, w2);
      TrimEndOfSpaceSuffix(TrimStart(x), w2);
    }
  }

  // ---------------------------------------------------------------------------
  // Maximal runs: re.findall('[P]+') and str.split()
  // ---------------------------------------------------------------------------

  /** Length of the longest prefix of `s` whose characters all satisfy `P`. */
  function RunLength(s: string, P: char -> bool): (n: nat)
    ensures n <= |s|
    ensures forall i :: 0 <= i < n ==> P(s[i])
    ensures n < |s| ==> !P(s[n])
    decreases |s|
  {
    if s != [] && P(s[0]) then 1 + RunLength(s[1..], P) else 0
  }

  /**
   * The maximal runs of characters satisfying `P`, left to right: what
   * `re.findall` returns for the pattern `[P]+`, and for `\b\w+\b` when `P`
   * is `IsWordChar`.
   */
  function Runs(s: string, P: char -> bool): (rs: seq<string>)
    ensures forall r :: r in rs ==> r != [] && forall c :: c in r ==> P(c)
    ensures |rs| <= |s|
    decreases |s|
  {
    if s == [] then []
    else if !P(s[0]) then Runs(s[1..], P)
    else
      var n := RunLength(s, P);
      var rest := Runs(s[n..], P);
      assert forall c :: c in s[..n] ==> P(c);
      [s[..n]] + rest
  }

  /** A character outside the class separates runs, so run counts add up. */
  lemma {:induction false} RunsSeparated(a: string, c: char, b: string, P: char -> bool)
    requires !P(c)
    ensures Runs(a + [c] + b, P) == Runs(a, P) + Runs(b, P)
    decreases |a|
  {
    var s := a + [c] + b;
    if a == [] {
      assert s[1..] == b;
    } else if !P(a[0]) {
      assert s[1..] == a[1..] + [c] + b;
      RunsSeparated(a[1..], c, b, P);
    } else {
      var n := RunLength(a, P);
      RunLengthExtends(a, [c] + b, P);
      assert s == a + ([c] + b);
      assert RunLength(s, P) == n;
      assert s[..n] == a[..n];
      assert s[n..] == a[n..] + [c] + b;
      RunsSeparated(a[n..], c, b, P);
    }
  }

  /** A non-empty text made only of class characters is a single run. */
  lemma RunsOfClassOnly(s: string, P: char -> bool)
    requires s != [] && forall i :: 0 <= i < |s| ==> P(s[i])
    ensures Runs(s, P) == [s]
  {
    RunLengthAll(s, P);
    assert s[..|s|] == s;
    assert s[|s|..] == [];
  }

  lemma {:induction false} RunLengthAll(s: string, P: char -> bool)
    requires forall i :: 0 <= i < |s| ==> P(s[i])
    ensures RunLength(s, P) == |s|
    decreases |s|
  {
    if s != [] {
      assert forall i :: 0 <= i < |s[1..]| ==> P(s[1..][i]) by {
        forall i | 0 <= i < |s[1..]| ensures P(s[1..][i]) {
          assert s[1..][i] == s[i + 1];
        }
      }
      RunLengthAll(s[1..], P);
    }
  }

  lemma {:induction false} RunLengthExtends(a: string, b: string, P: char -> bool)
    requires b != [] && !P(b[0])
    ensures RunLength(a + b, P) == RunLength(a, P)
    decreases |a|
  {
    if a == [] {
      assert a + b == b;
    } else {
      assert (a + b)[1..] == a[1..] + b;
      if P(a[0]) { RunLengthExtends(a[1..], b, P); }
    }
  }

  /** The tokens of Python's `s.split()`: maximal runs of non-whitespace. */
  function Tokens(s: string): seq<string> {
    Runs(s, IsNonSpace)
  }

  /** The words `re.findall(r'\b\w+\b', s)` returns. */
  function Words(s: string): seq<string> {
    Runs(s, IsWordChar)
  }

  /** Case folding never turns a word character into a non-word one or back. */
  lemma {:induction false} WordsOfLower(s: string)
    ensures |Words(Lower(s))| == |Words(s)|
    decreases |s|
  {
    var l := Lower(s);
    if s != [] {
      assert l[1..] == Lower(s[1..]);
      if !IsWordChar(s[0]) {
        WordsOfLower(s[1..]);
      } else {
        var n := RunLength(s, IsWordChar);
        RunLengthOfLower(s);
        assert l[n..] == Lower(s[n..]);
        WordsOfLower(s[n..]);
      }
    }
  }

  lemma {:induction false} RunLengthOfLower(s: string)
    ensures RunLength(Lower(s), IsWordChar) == RunLength(s, IsWordChar)
    decreases |s|
  {
    if s != [] {
      assert Lower(s)[1..] == Lower(s[1..]);
      RunLengthOfLower(s[1..]);
    }
  }

  // ---------------------------------------------------------------------------
  // re.split on runs of separator characters
  // ---------------------------------------------------------------------------

  /** Index of the first character of `s` satisfying `P`, or `|s|`. */
  function FirstWhere(s: string, P: char -> bool): (i: nat)
    ensures i <= |s|
    ensures forall j :: 0 <= j < i ==> !P(s[j])
    ensures i < |s| ==> P(s[i])
    decreases |s|
  {
    if s == [] || P(s[0]) then 0 else 1 + FirstWhere(s[1..], P)
  }

  /** No character of `s` satisfies `P`. */
  predicate NoneOf(s: string, P: char -> bool) {
    forall j :: 0 <= j < |s| ==> !P(s[j])
  }

  /** `re.split('[P]+', s)`: the pieces between maximal runs of `P` characters. */
  function SplitOnRuns(s: string, P: char -> bool): (parts: seq<string>)
    ensures |parts| >= 1
    ensures forall k :: 0 <= k < |parts| ==> NoneOf(parts[k], P)
    decreases |s|
  {
    var i := FirstWhere(s, P);
    if i == |s| then [s]
    else [s[..i]] + SplitOnRuns(s[i + RunLength(s[i..], P)..], P)
  }

  /** Number of pieces that are not blank: `len([p.strip() for p in parts if p.strip()])`. */
  function NonBlankCount(parts: seq<string>): (n: nat)
    ensures n <= |parts|
  {
    if parts == [] then 0
    else (if IsBlank(parts[0]) then 0 else 1) + NonBlankCount(parts[1..])
  }

  /** Every character of `s` is whitespace or satisfies `P`. */
  predicate SpaceOr(s: string, P: char -> bool) {
    forall i :: 0 <= i < |s| ==> IsSpace(s[i]) || P(s[i])
  }

  /** Every piece between the runs of `P` is blank exactly when every character is whitespace or satisfies `P`. */
  lemma {:induction false} NoNonBlankPiece(s: string, P: char -> bool)
    ensures NonBlankCount(SplitOnRuns(s, P)) == 0 <==> SpaceOr(s, P)
    decreases |s|
  {
    var i := FirstWhere(s, P);
    if i == |s| {
      NonBlankLast(s, P);
    } else {
      var n := RunLength(s[i..], P);
      var rest := s[i + n..];
      BlankIffAllSpace(s[..i]);
      NonBlankStep(s, P, i, n);
      NoNonBlankPiece(rest, P);
      SpaceOrAround(s, P, i, n);
      NoneLeft(NonBlankCount(SplitOnRuns(s, P)), IsBlank(s[..i]), NonBlankCount(SplitOnRuns(rest, P)),
        AllSpace(s[..i]), SpaceOr(rest, P), SpaceOr(s, P));
    }
  }

  /** The first piece is blank and none of the others counts, exactly when all of them are. */
  lemma NoneLeft(count: nat, blank: bool, later: nat, allSpace: bool, restOk: bool, ok: bool)
    requires count == (if blank then 0 else 1) + later
    requires later == 0 <==> restOk
    requires blank <==> allSpace
    requires ok <==> allSpace && restOk
    ensures count == 0 <==> ok
  {
  }

  lemma NonBlankLast(s: string, P: char -> bool)
    requires FirstWhere(s, P) == |s|
    ensures NonBlankCount(SplitOnRuns(s, P)) == 0 <==> SpaceOr(s, P)
  {
    assert SplitOnRuns(s, P) == [s];
    assert NonBlankCount([s]) == (if IsBlank(s) then 0 else 1) + NonBlankCount([]);
    BlankIffAllSpace(s);
  }

  lemma NonBlankStep(s: string, P: char -> bool, i: nat, n: nat)
    requires i == FirstWhere(s, P) < |s| && n == RunLength(s[i..], P)
    ensures NonBlankCount(SplitOnRuns(s, P)) == (if IsBlank(s[..i]) then 0 else 1) + NonBlankCount(SplitOnRuns(s[i + n..], P))
  {
    SplitOnRunsStep(s, P, i, n);
    NonBlankCons(s[..i], SplitOnRuns(s[i + n..], P));
  }

  lemma SplitOnRunsStep(s: string, P: char -> bool, i: nat, n: nat)
    requires i == FirstWhere(s, P) < |s| && n == RunLength(s[i..], P)
    ensures SplitOnRuns(s, P) == [s[..i]] + SplitOnRuns(s[i + n..], P)
  {
  }

  lemma NonBlankCons(p: string, parts: seq<string>)
    ensures NonBlankCount([p] + parts) == (if IsBlank(p) then 0 else 1) + NonBlankCount(parts)
  {
    assert ([p] + parts)[1..] == parts;
  }

  /** Cutting out a run of `P` characters after a prefix without any. */
  lemma SpaceOrAround(s: string, P: char -> bool, i: nat, n: nat)
    requires i == FirstWhere(s, P) < |s| && n == RunLength(s[i..], P)
    ensures SpaceOr(s, P) <==> AllSpace(s[..i]) && SpaceOr(s[i + n..], P)
  {
    var rest := s[i + n..];
    if SpaceOr(s, P) {
      assert forall j :: 0 <= j < i ==> s[..i][j] == s[j];
      assert forall j :: 0 <= j < |rest| ==> rest[j] == s[i + n + j];
    }
    if AllSpace(s[..i]) && SpaceOr(rest, P) {
      forall j | 0 <= j < |s|
        ensures IsSpace(s[j]) || P(s[j])
      {
        if j < i {
          assert s[j] == s[..i][j];
        } else if j < i + n {
          assert s[j] == s[i..][j - i];
        } else {
          assert s[j] == rest[j - i - n];
        }
      }
    }
  }

  // ---------------------------------------------------------------------------
  // Numbers and slices
  // ---------------------------------------------------------------------------

  function Min(a: int, b: int): int { if a <= b then a else b }

  function Max(a: int, b: int): int { if a >= b then a else b }

  /** Python's `xs[:n]`, including a negative `n`, which counts from the end. */
  function PyPrefix<T>(xs: seq<T>, n: int): (r: seq<T>)
    ensures |r| <= |xs| && r == xs[..|r|]
    ensures n >= 0 ==> |r| == Min(n, |xs|)
    ensures n < 0 ==> |r| == Max(0, |xs| + n)
  {
    if n >= 0 then xs[..Min(n, |xs|)] else xs[..Max(0, |xs| + n)]
  }

  /** A slice bound past the end keeps everything. */
  lemma PyPrefixAll<T>(xs: seq<T>, n: int)
    requires n >= |xs|
    ensures PyPrefix(xs, n) == xs
  {
    assert xs[..|xs|] == xs;
  }

  /** Python's `s[-n:]` for `n > 0`: the last `n` characters, or all of a shorter `s`. */
  function LastChars(s: string, n: nat): (r: string)
    ensures |r| == Min(n, |s|) && r == s[|s| - |r|..]
  {
    if |s| <= n then s else s[|s| - n..]
  }

  /** Python's `str(n)` for a natural number. */
  function NatToString(n: nat): (r: string)
    ensures r != [] && forall c :: c in r ==> IsDigit(c)
    decreases n
  {
    var d := ['0' + (n % 10) as char];
    if n < 10 then d else NatToString(n / 10) + d
  }
}
