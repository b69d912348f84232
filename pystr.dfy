/** The three Python `str` methods the webhook handler applies to message text
    (`strip`, `lower`, `capitalize`), restricted to the ASCII range: whitespace is
    what `str.isspace` accepts below 0x80, and case mapping touches only A-Z / a-z. */
module PyStr {

  /** `str.isspace` on ASCII: space, TAB..CR (0x09-0x0D) and FS..US (0x1C-0x1F). */
  predicate IsSpace(c: char) {
    c == ' ' || ('\t' <= c <= '\r') || ('\U{1C}' <= c <= '\U{1F}')
  }

  /** Whitespace here is ASCII only, and case mapping leaves it alone. */
  lemma SpaceIsAscii(c: char)
    requires IsSpace(c)
    ensures c as int < 0x80 && ToLower(c) == c && ToUpper(c) == c
  {
  }

  predicate AllSpace(s: string) {
    forall i :: 0 <= i < |s| ==> IsSpace(s[i])
  }

  /** No whitespace at either end (the empty string qualifies). */
  predicate Trimmed(s: string) {
    s == [] || (!IsSpace(s[0]) && !IsSpace(s[|s| - 1]))
  }

  /** The first index at or after `lo` that does not hold whitespace
      (`|s|` when there is none). */
  function FirstNonSpace(s: string, lo: nat): (k: nat)
    requires lo <= |s|
    ensures lo <= k <= |s|
    ensures forall i :: lo <= i < k ==> IsSpace(s[i])
    ensures k < |s| ==> !IsSpace(s[k])
    decreases |s| - lo
  {
    if lo < |s| && IsSpace(s[lo]) then FirstNonSpace(s, lo + 1) else lo
  }

  /** The end of `s[lo..hi]` once its trailing whitespace is cut off. */
  function EndOfText(s: string, lo: nat, hi: nat): (k: nat)
    requires lo <= hi <= |s|
    ensures lo <= k <= hi
    ensures forall i :: k <= i < hi ==> IsSpace(s[i])
    ensures lo < k ==> !IsSpace(s[k - 1])
    decreases hi - lo
  {
    if lo < hi && IsSpace(s[hi - 1]) then EndOfText(s, lo, hi - 1) else hi
  }

  /** `s.strip()`: whitespace removed from both ends. */
  function Strip(s: string): (r: string)
    ensures Trimmed(r)
    ensures |r| <= |s|
  {
    var a := FirstNonSpace(s, 0);
    s[a..EndOfText(s, a, |s|)]
  }

  /** What `strip` removes is whitespace, from the two ends only: the result is
      the slice of `s` between its leading and its trailing whitespace. */
  lemma StripFramed(s: string)
    ensures var a := FirstNonSpace(s, 0);
      var e := EndOfText(s, a, |s|);
      Strip(s) == s[a..e] &&
      (forall i :: 0 <= i < a ==> IsSpace(s[i])) &&
      (forall i :: e <= i < |s| ==> IsSpace(s[i]))
  {
  }

  /** Any whitespace padding around an already trimmed string is exactly what
      `strip` removes. Together with `Strip`'s own contract this pins `strip` down. */
  lemma {:induction false} StripPadded(w1: string, t: string, w2: string)
    requires AllSpace(w1) && AllSpace(w2) && Trimmed(t)
    ensures Strip(w1 + t + w2) == t
  {
    var s := w1 + t + w2;
    var n := |w1| + |t|;
    assert forall i :: 0 <= i < |w1| ==> s[i] == w1[i];
    assert forall i :: n <= i < |s| ==> s[i] == w2[i - n];
    if t == [] {
      FirstNonSpaceIs(s, 0, |s|);
      assert s[|s|..|s|] == t;
    } else {
      assert s[|w1|] == t[0] && s[n - 1] == t[|t| - 1];
      FirstNonSpaceIs(s, 0, |w1|);
      EndOfTextIs(s, |w1|, |s|, n);
      assert s[|w1|..n] == t;
    }
  }

  /** `FirstNonSpace` is the only index with its two properties. */
  lemma FirstNonSpaceIs(s: string, lo: nat, k: nat)
    requires lo <= k <= |s|
    requires forall i :: lo <= i < k ==> IsSpace(s[i])
    requires k < |s| ==> !IsSpace(s[k])
    ensures FirstNonSpace(s, lo) == k
  {
  }

  /** `EndOfText` is the only index with its two properties. */
  lemma EndOfTextIs(s: string, lo: nat, hi: nat, k: nat)
    requires lo <= k <= hi <= |s|
    requires forall i :: k <= i < hi ==> IsSpace(s[i])
    requires lo < k ==> !IsSpace(s[k - 1])
    ensures EndOfText(s, lo, hi) == k
  {
  }

  /** `strip` leaves an already trimmed string as it is. */
  lemma StripTrimmed(s: string)
    requires Trimmed(s)
    ensures Strip(s) == s
  {
    assert [] + s + [] == s;
    StripPadded([], s, []);
  }

  /** `strip` is idempotent. */
  lemma StripIdempotent(s: string)
    ensures Strip(Strip(s)) == Strip(s)
  {
    StripTrimmed(Strip(s));
  }

  function ToLower(c: char): (d: char)
    ensures 'A' <= c <= 'Z' ==> d as int == c as int + 32
    ensures !('A' <= c <= 'Z') ==> d == c
  {
    if 'A' <= c <= 'Z' then (c as int + 32) as char else c
  }

  function ToUpper(c: char): (d: char)
    ensures 'a' <= c <= 'z' ==> d as int == c as int - 32
    ensures !('a' <= c <= 'z') ==> d == c
  {
    if 'a' <= c <= 'z' then (c as int - 32) as char else c
  }

  /** `s.lower()`: the same length, every character folded to lower case. */
  function Lower(s: string): (r: string)
    ensures |r| == |s|
    ensures forall i :: 0 <= i < |s| ==> r[i] == ToLower(s[i])
  {
    if s == [] then [] else [ToLower(s[0])] + Lower(s[1..])
  }

  /** `s.capitalize()`: the first character upper-cased, all others lower-cased. */
  function Capitalize(s: string): (r: string)
    ensures |r| == |s|
    ensures |s| > 0 ==> r[0] == ToUpper(s[0])
    ensures forall i :: 0 < i < |s| ==> r[i] == ToLower(s[i])
  {
    if s == [] then [] else [ToUpper(s[0])] + Lower(s[1..])
  }

  /** Lower-casing is idempotent. */
  lemma LowerIdempotent(s: string)
    ensures Lower(Lower(s)) == Lower(s)
  {
  }

  /** `capitalize` ignores the case the text arrived in: it gives the same result
      for a string as for its lower-cased form. */
  lemma CapitalizeIgnoresCase(s: string)
    ensures Capitalize(s) == Capitalize(Lower(s))
  {
    var a, b := Capitalize(s), Capitalize(Lower(s));
    assert |a| == |b|;
    forall i | 0 <= i < |a| ensures a[i] == b[i] {
      if i == 0 {
        assert ToUpper(ToLower(s[0])) == ToUpper(s[0]);
      }
    }
  }

  /** Two strings that lower-case alike capitalize alike. */
  lemma CapitalizeCaseInsensitive(s: string, t: string)
    requires Lower(s) == Lower(t)
    ensures Capitalize(s) == Capitalize(t)
  {
    CapitalizeIgnoresCase(s);
    CapitalizeIgnoresCase(t);
  }
}
