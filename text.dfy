/** The Python string operations the gateway relies on: `str.isspace`,
    `str.strip`, `str.find`, `in`, `str.join` and first-line extraction. */
module Text {

  /** Python's `str.isspace()` for one character: the ASCII controls
      TAB..CR and FS..US, SPACE, NEL, NBSP and the Unicode space separators. */
  predicate IsSpace(c: char) {
    var n := c as int;
    (9 <= n <= 13) || (28 <= n <= 32) || n == 0x85 || n == 0xA0 || n == 0x1680
    || (0x2000 <= n <= 0x200A) || n == 0x2028 || n == 0x2029 || n == 0x202F
    || n == 0x205F || n == 0x3000
  }

  predicate AllSpace(s: string) {
    forall i :: 0 <= i < |s| ==> IsSpace(s[i])
  }

  /** `s.lstrip()`: what is left of `s` after its leading whitespace. */
  function TrimStart(s: string): string {
    if s != [] && IsSpace(s[0]) then TrimStart(s[1..]) else s
  }

  /** `s.rstrip()`: what is left of `s` after its trailing whitespace. */
  function TrimEnd(s: string): string {
    if s != [] && IsSpace(s[|s| - 1]) then TrimEnd(s[..|s| - 1]) else s
  }

  /** `s.strip()`. */
  function Strip(s: string): string {
    TrimEnd(TrimStart(s))
  }

  /** `lstrip` cuts a whitespace prefix and stops at the first other character. */
  lemma {:induction false} TrimStartSpec(s: string)
    ensures |TrimStart(s)| <= |s| && TrimStart(s) == s[|s| - |TrimStart(s)|..]
    ensures AllSpace(s[..|s| - |TrimStart(s)|])
    ensures TrimStart(s) != [] ==> !IsSpace(TrimStart(s)[0])
  {
    if s != [] && IsSpace(s[0]) {
      var r := TrimStart(s[1..]);
      TrimStartSpec(s[1..]);
      assert s[1..][..|s| - 1 - |r|] == s[1..|s| - |r|];
    }
  }

  /** `rstrip` cuts a whitespace suffix and stops at the last other character. */
  lemma {:induction false} TrimEndSpec(s: string)
    ensures |TrimEnd(s)| <= |s| && TrimEnd(s) == s[..|TrimEnd(s)|]
    ensures AllSpace(s[|TrimEnd(s)|..])
    ensures TrimEnd(s) != [] ==> !IsSpace(TrimEnd(s)[|TrimEnd(s)| - 1])
  {
    if s != [] && IsSpace(s[|s| - 1]) {
      var r := TrimEnd(s[..|s| - 1]);
      TrimEndSpec(s[..|s| - 1]);
      assert s[|r|..] == s[..|s| - 1][|r|..] + [s[|s| - 1]];
    }
  }

  /** `s.strip()` is a slice of `s` with only whitespace cut away on either
      side, and it neither begins nor ends with whitespace. */
  lemma StripIsSlice(s: string)
    ensures exists i, j ::
              0 <= i <= j <= |s| && Strip(s) == s[i..j] && AllSpace(s[..i]) && AllSpace(s[j..])
    ensures Strip(s) != [] ==> !IsSpace(Strip(s)[0]) && !IsSpace(Strip(s)[|Strip(s)| - 1])
  {
    var t := TrimStart(s);
    TrimStartSpec(s);
    var r := TrimEnd(t);
    TrimEndSpec(t);
    var i := |s| - |t|;
    var j := i + |r|;
    assert t == s[i..];
    assert r == s[i..j];
    assert t[|r|..] == s[j..];
  }

  /** `s.strip() == ""` holds exactly when every character of `s` is whitespace. */
  lemma {:induction false} StripEmptyIffBlank(s: string)
    ensures Strip(s) == "" <==> AllSpace(s)
  {
    var t := TrimStart(s);
    TrimStartSpec(s);
    TrimEndSpec(t);
    if AllSpace(s) {
      TrimStartOfBlank(s);
    }
    if Strip(s) == "" {
      assert t[|TrimEnd(t)|..] == t;
      assert t == [];
      assert s[..|s| - |t|] == s;
    }
  }

  lemma {:induction false} TrimStartOfBlank(s: string)
    requires AllSpace(s)
    ensures TrimStart(s) == []
  {
    if s != [] {
      TrimStartOfBlank(s[1..]);
    }
  }

  /** `pat` occurs in `s` starting at index `k`. */
  predicate OccursAt(s: string, pat: string, k: int) {
    0 <= k && k + |pat| <= |s| && s[k..k + |pat|] == pat
  }

  /** `s.find(pat, start)`: the first index at or after `start` where `pat`
      occurs in `s`, or -1. */
  function Find(s: string, pat: string, start: nat): (r: int)
    ensures r == -1 || (start <= r && OccursAt(s, pat, r))
    ensures forall k :: start <= k && (r == -1 || k < r) ==> !OccursAt(s, pat, k)
    decreases |s| - start
  {
    if start + |pat| > |s| then -1
    else if s[start..start + |pat|] == pat then start
    else Find(s, pat, start + 1)
  }

  /** The search stops at `p` when `pat` occurs there and nowhere between `start` and `p`. */
  lemma FindIs(s: string, pat: string, start: nat, p: int)
    requires start <= p && OccursAt(s, pat, p)
    requires forall k :: start <= k < p ==> !OccursAt(s, pat, k)
    ensures Find(s, pat, start) == p
  {
  }

  /** `pat in s`. */
  predicate Contains(s: string, pat: string) {
    Find(s, pat, 0) != -1
  }

  /** Searching for a one-character pattern: `c in s` exactly when the
      search succeeds, and then it stops at the first occurrence of `c`. */
  lemma FindChar(s: string, c: char)
    ensures Find(s, [c], 0) == -1 <==> c !in s
    ensures Find(s, [c], 0) != -1 ==> 0 <= Find(s, [c], 0) < |s| && s[Find(s, [c], 0)] == c
                                      && c !in s[..Find(s, [c], 0)]
  {
    var k := Find(s, [c], 0);
    assert forall i :: 0 <= i < |s| ==> (OccursAt(s, [c], i) <==> s[i] == c) by {
      forall i | 0 <= i < |s|
        ensures OccursAt(s, [c], i) <==> s[i] == c
      {
        assert s[i..i + 1] == [s[i]];
      }
    }
  }

  /** `sep.join(parts)`. */
  function Join(sep: string, parts: seq<string>): string
    decreases |parts|
  {
    if |parts| == 0 then ""
    else if |parts| == 1 then parts[0]
    else Join(sep, parts[..|parts| - 1]) + sep + parts[|parts| - 1]
  }

  /** Joining one more part appends the separator and that part. */
  lemma JoinSnoc(sep: string, parts: seq<string>, p: string)
    requires parts != []
    ensures Join(sep, parts + [p]) == Join(sep, parts) + sep + p
  {
    assert (parts + [p])[..|parts|] == parts;
  }

  /** `doc.split('\n')[0] if '\n' in doc else doc`: the first line of `doc`. */
  function FirstLine(doc: string): (r: string)
    ensures '\n' !in r
    ensures |r| <= |doc| && r == doc[..|r|]
    ensures |r| < |doc| ==> doc[|r|] == '\n'
  {
    var k := Find(doc, "\n", 0);
    if k != -1 then
      assert doc[k..k + 1] == "\n";
      assert forall i :: 0 <= i < k ==> !OccursAt(doc, "\n", i) && doc[i..i + 1] == [doc[i]];
      doc[..k]
    else
      assert forall i :: 0 <= i < |doc| ==> !OccursAt(doc, "\n", i) && doc[i..i + 1] == [doc[i]];
      doc
  }
}
