/**
 * The few Python `str` operations the service relies on, with Python's
 * semantics: truthiness, `str.strip()`, the `in` operator, `str.find` and
 * `str.split(sep)`.
 */
module PyStr {
  import opened Wrappers

  /** Python truthiness of an optional string: `None` and `""` are falsy. */
  predicate Truthy(s: Option<string>) {
    s.Some? && s.value != ""
  }

  /** The characters `str.strip()` removes: Python's Unicode whitespace. */
  predicate IsSpace(c: char) {
    var n := c as int;
    (0x09 <= n <= 0x0D) || (0x1C <= n <= 0x20) || n == 0x85 || n == 0xA0 || n == 0x1680
    || (0x2000 <= n <= 0x200A) || n == 0x2028 || n == 0x2029 || n == 0x202F
    || n == 0x205F || n == 0x3000
  }

  /**
   * The index of the first non-whitespace character at or after `i`
   * (`|s|` when there is none): the left scan of `str.strip()`.
   */
  function TextStart(s: string, i: nat): (k: nat)
    requires i <= |s|
    ensures i <= k <= |s|
    ensures forall p :: i <= p < k ==> IsSpace(s[p])
    ensures k == |s| || !IsSpace(s[k])
    decreases |s| - i
  {
    if i < |s| && IsSpace(s[i]) then TextStart(s, i + 1) else i
  }

  /**
   * The index just past the last non-whitespace character before `j`, not
   * going below `lo`: the right scan of `str.strip()`.
   */
  function TextEnd(s: string, lo: nat, j: nat): (k: nat)
    requires lo <= j <= |s|
    ensures lo <= k <= j
    ensures forall p :: k <= p < j ==> IsSpace(s[p])
    ensures k == lo || !IsSpace(s[k - 1])
    decreases j
  {
    if lo < j && IsSpace(s[j - 1]) then TextEnd(s, lo, j - 1) else j
  }

  /** `s.strip()`: no whitespace is left at either end. */
  function Strip(s: string): (r: string)
    ensures |r| <= |s|
    ensures r == [] || (!IsSpace(r[0]) && !IsSpace(r[|r| - 1]))
  {
    var a := TextStart(s, 0);
    s[a..TextEnd(s, a, |s|)]
  }

  /** Stripping yields a slice of its input with only whitespace outside it. */
  lemma StripSlice(s: string) returns (a: nat, b: nat)
    ensures a <= b <= |s| && Strip(s) == s[a..b]
    ensures forall i :: 0 <= i < a ==> IsSpace(s[i])
    ensures forall i :: b <= i < |s| ==> IsSpace(s[i])
  {
    a := TextStart(s, 0);
    b := TextEnd(s, a, |s|);
  }

  /** Stripping cannot create an occurrence of `pat`. */
  lemma StripLacks(s: string, pat: string)
    requires !Contains(s, pat)
    ensures !Contains(Strip(s), pat)
  {
    var a, b := StripSlice(s);
    SliceLacks(s, pat, a, b);
  }

  /** A string without whitespace at either end is left as it is. */
  lemma StripTrimmed(s: string)
    requires s == [] || (!IsSpace(s[0]) && !IsSpace(s[|s| - 1]))
    ensures Strip(s) == s
  {
  }

  /** `strip()` is idempotent. */
  lemma StripIdempotent(s: string)
    ensures Strip(Strip(s)) == Strip(s)
  {
    var _, _ := StripSlice(s);
    StripTrimmed(Strip(s));
  }

  /** `pat` occurs in `s` starting at index `i`. */
  predicate OccursAt(s: string, pat: string, i: int) {
    0 <= i && i + |pat| <= |s| && s[i..i + |pat|] == pat
  }

  /** `s.find(pat, k)`: the first occurrence of `pat` at or after index `k`. */
  function FindFrom(s: string, pat: string, k: nat): (r: Option<nat>)
    ensures r.Some? ==> k <= r.value && OccursAt(s, pat, r.value)
    ensures forall j :: k <= j && (r.None? || j < r.value) ==> !OccursAt(s, pat, j)
    decreases |s| + 1 - k
  {
    if k + |pat| > |s| then None
    else if s[k..k + |pat|] == pat then Some(k)
    else FindFrom(s, pat, k + 1)
  }

  /** `s.find(pat)`, with `None` for Python's `-1`. */
  function Find(s: string, pat: string): (r: Option<nat>)
    ensures r.Some? ==> OccursAt(s, pat, r.value)
    ensures forall j :: (r.None? || j < r.value) ==> !OccursAt(s, pat, j)
  {
    FindFrom(s, pat, 0)
  }

  /** Python's `pat in s`. */
  predicate Contains(s: string, pat: string) {
    Find(s, pat).Some?
  }

  /** An occurrence inside a slice is an occurrence in the whole string. */
  lemma OccursInSlice(s: string, pat: string, a: nat, b: nat, j: int)
    requires a <= b <= |s| && OccursAt(s[a..b], pat, j)
    ensures OccursAt(s, pat, a + j)
  {
    forall k | 0 <= k < |pat| ensures s[a + j + k] == pat[k] {
      assert s[a..b][j..j + |pat|][k] == pat[k];
    }
    assert s[a + j..a + j + |pat|] == pat;
  }

  /** A slice of a string that lacks `pat` lacks it too. */
  lemma SliceLacks(s: string, pat: string, a: nat, b: nat)
    requires a <= b <= |s| && !Contains(s, pat)
    ensures !Contains(s[a..b], pat)
  {
    if Contains(s[a..b], pat) {
      OccursInSlice(s, pat, a, b, Find(s[a..b], pat).value);
    }
  }

  /** Finding `pat` in a prefix: the first occurrence survives iff it fits in the prefix. */
  lemma FindInPrefix(s: string, pat: string, n: nat)
    requires n <= |s|
    ensures Find(s[..n], pat) ==
      match Find(s, pat)
      case Some(j) => if j + |pat| <= n then Some(j) else None
      case None => None
  {
    var r := Find(s[..n], pat);
    if r.Some? {
      OccursInSlice(s, pat, 0, n, r.value);
    }
    match Find(s, pat)
    case Some(j) =>
      if j + |pat| <= n {
        assert s[..n][j..j + |pat|] == s[j..j + |pat|];
        assert OccursAt(s[..n], pat, j);
      }
    case None =>
  }

  /** The text before the first `sep` (all of `s` when there is none): `s.split(sep)[0]`. */
  function UpTo(s: string, sep: string): (r: string)
    ensures !Contains(s, sep) ==> r == s
    ensures Contains(s, sep) ==> r == s[..Find(s, sep).value]
  {
    match Find(s, sep)
    case None => s
    case Some(i) => s[..i]
  }

  /** `s.split(sep)` for a non-empty separator (Python rejects an empty one). */
  function Split(s: string, sep: string): (parts: seq<string>)
    requires sep != ""
    ensures 1 <= |parts|
    ensures Contains(s, sep) <==> 2 <= |parts|
    ensures parts[0] == UpTo(s, sep)
    ensures forall k :: 0 <= k < |parts| ==> !Contains(parts[k], sep)
    decreases |s|
  {
    match Find(s, sep)
    case None => [s]
    case Some(i) =>
      FindInPrefix(s, sep, i);
      [s[..i]] + Split(s[i + |sep|..], sep)
  }

  /** The second piece of a split is the text up to the following separator. */
  lemma SplitSecond(s: string, sep: string, i: nat)
    requires sep != "" && Find(s, sep) == Some(i)
    ensures 2 <= |Split(s, sep)| && Split(s, sep)[1] == UpTo(s[i + |sep|..], sep)
  {
  }

  /** `sep.join(parts)`: the inverse of `Split`. */
  function Join(parts: seq<string>, sep: string): string {
    if parts == [] then ""
    else if |parts| == 1 then parts[0]
    else parts[0] + sep + Join(parts[1..], sep)
  }

  /** Joining a piece in front of a non-empty list puts one separator between them. */
  lemma JoinCons(head: string, tail: seq<string>, sep: string)
    requires tail != []
    ensures Join([head] + tail, sep) == head + sep + Join(tail, sep)
  {
    assert ([head] + tail)[1..] == tail;
  }

  /** Splitting loses nothing: joining the pieces back gives the original text. */
  lemma {:induction false} JoinSplit(s: string, sep: string)
    requires sep != ""
    ensures Join(Split(s, sep), sep) == s
    decreases |s|
  {
    match Find(s, sep)
    case None =>
    case Some(i) =>
      var rest := s[i + |sep|..];
      var tail := Split(rest, sep);
      JoinSplit(rest, sep);
      assert Split(s, sep) == [s[..i]] + tail;
      JoinCons(s[..i], tail, sep);
      assert s[i..i + |sep|] == sep;
      assert s == s[..i] + s[i..i + |sep|] + rest;
  }
}
