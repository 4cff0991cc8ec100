/**
  The handful of Python string operations the bot relies on: strip(), split(sep),
  replace(old, new), find / `in`, lower(), isdigit()/int() and str(n), written
  over Dafny strings (sequences of Unicode scalar values, as Python counts them).
*/
module Text {
  import opened Wrappers

  lemma {:induction false} ConcatAssoc<T>(a: seq<T>, b: seq<T>, c: seq<T>)
    ensures a + b + c == a + (b + c)
  {
  }

  // ---------------------------------------------------------------------------
  // Whitespace and strip()
  // ---------------------------------------------------------------------------

  /** The code points for which Python's str.isspace() holds; strip() removes exactly these. */
  predicate IsSpace(c: char) {
    c == ' ' || ('\t' <= c <= '\r') || ('\U{1C}' <= c <= '\U{1F}')
    || c == '\U{85}' || c == '\U{A0}' || c == '\U{1680}'
    || ('\U{2000}' <= c <= '\U{200A}') || c == '\U{2028}' || c == '\U{2029}'
    || c == '\U{202F}' || c == '\U{205F}' || c == '\U{3000}'
  }

  /** `not s.strip()`: empty or whitespace only. */
  predicate IsBlank(s: string) {
    forall i :: 0 <= i < |s| ==> IsSpace(s[i])
  }

  /** Number of leading whitespace characters. */
  function LeadingSpace(s: string): (n: nat)
    ensures n <= |s|
    ensures forall i :: 0 <= i < n ==> IsSpace(s[i])
    ensures n < |s| ==> !IsSpace(s[n])
  {
    if |s| > 0 && IsSpace(s[0]) then 1 + LeadingSpace(s[1..]) else 0
  }

  /** Index just past the last non-whitespace character (0 for a blank string). */
  function ContentEnd(s: string): (n: nat)
    ensures n <= |s|
    ensures forall i :: n <= i < |s| ==> IsSpace(s[i])
    ensures n > 0 ==> !IsSpace(s[n - 1])
  {
    if |s| > 0 && IsSpace(s[|s| - 1]) then ContentEnd(s[..|s| - 1]) else |s|
  }

  lemma {:induction false} BlankBounds(s: string)
    ensures IsBlank(s) <==> LeadingSpace(s) >= ContentEnd(s)
    ensures IsBlank(s) ==> LeadingSpace(s) == |s| && ContentEnd(s) == 0
  {
    var lo, hi := LeadingSpace(s), ContentEnd(s);
    if !IsBlank(s) {
      var k :| 0 <= k < |s| && !IsSpace(s[k]);
      assert lo <= k < hi;
    }
  }

  /** Non-empty, and neither starts nor ends with whitespace. */
  predicate Trimmed(t: string) {
    t != [] && !IsSpace(t[0]) && !IsSpace(t[|t| - 1])
  }

  /** Python's s.strip(): the text between the surrounding whitespace. */
  function Strip(s: string): (r: string)
    ensures |r| <= |s|
  {
    var lo, hi := LeadingSpace(s), ContentEnd(s);
    if lo < hi then s[lo..hi] else []
  }

  /**
    strip() leaves nothing of a blank text; of any other text it keeps exactly the part
    from the first to the last non-whitespace character, and only whitespace is cut.
  */
  lemma {:induction false} StripTrims(s: string)
    ensures IsBlank(s) <==> Strip(s) == []
    ensures Strip(s) != [] ==> Trimmed(Strip(s))
    ensures !IsBlank(s) ==> LeadingSpace(s) < ContentEnd(s) && Strip(s) == s[LeadingSpace(s)..ContentEnd(s)]
    ensures IsBlank(s[..LeadingSpace(s)]) && IsBlank(s[ContentEnd(s)..])
  {
    BlankBounds(s);
    StripEnds(s);
    CutsAreBlank(s);
  }

  /** What strip() keeps starts and ends with a non-whitespace character. */
  lemma {:induction false} StripEnds(s: string)
    ensures Strip(s) != [] ==> Trimmed(Strip(s))
  {
    var lo, hi := LeadingSpace(s), ContentEnd(s);
    if lo < hi {
      var r := s[lo..hi];
      assert r[0] == s[lo] && r[|r| - 1] == s[hi - 1];
    }
  }

  /** What strip() cuts off is whitespace. */
  lemma {:induction false} CutsAreBlank(s: string)
    ensures IsBlank(s[..LeadingSpace(s)]) && IsBlank(s[ContentEnd(s)..])
  {
    var lo, hi := LeadingSpace(s), ContentEnd(s);
    forall i | 0 <= i < lo
      ensures IsSpace(s[..lo][i])
    {
      assert s[..lo][i] == s[i];
    }
    forall i | 0 <= i < |s| - hi
      ensures IsSpace(s[hi..][i])
    {
      assert s[hi..][i] == s[hi + i];
    }
  }

  /** strip() is idempotent and never changes a string without surrounding whitespace. */
  lemma {:induction false} StripIdempotent(s: string)
    ensures Strip(Strip(s)) == Strip(s)
  {
    StripTrims(s);
    var r := Strip(s);
    if r != [] {
      assert !IsBlank(r);
      assert LeadingSpace(r) == 0;
      assert ContentEnd(r) == |r|;
    }
  }

  // ---------------------------------------------------------------------------
  // Searching: find / `in`
  // ---------------------------------------------------------------------------

  predicate OccursAt(s: string, pat: string, i: int) {
    0 <= i && i + |pat| <= |s| && s[i..i + |pat|] == pat
  }

  function FindFrom(s: string, pat: string, k: nat): (r: Option<nat>)
    requires pat != [] && k <= |s|
    ensures r.Some? ==> k <= r.value && OccursAt(s, pat, r.value)
    ensures forall i :: k <= i < (if r.Some? then r.value else |s| + 1) ==> !OccursAt(s, pat, i)
    decreases |s| - k
  {
    if k + |pat| > |s| then None
    else if s[k..k + |pat|] == pat then Some(k)
    else FindFrom(s, pat, k + 1)
  }

  /** The leftmost occurrence of a non-empty pattern (str.find, or re.search on a literal). */
  function Find(s: string, pat: string): (r: Option<nat>)
    requires pat != []
    ensures r.Some? ==> OccursAt(s, pat, r.value)
    ensures forall i :: 0 <= i < (if r.Some? then r.value else |s| + 1) ==> !OccursAt(s, pat, i)
  {
    FindFrom(s, pat, 0)
  }

  /** Python's `sub in s`. */
  predicate Contains(s: string, sub: string) {
    sub == [] || Find(s, sub).Some?
  }

  /** `sub in s` holds exactly when sub occurs somewhere in s. */
  lemma {:induction false} ContainsIff(s: string, sub: string)
    ensures Contains(s, sub) <==> exists i :: OccursAt(s, sub, i)
  {
    if sub == [] {
      assert OccursAt(s, sub, 0);
    } else if Find(s, sub).Some? {
      assert OccursAt(s, sub, Find(s, sub).value);
    }
  }

  /** Every text contains itself. */
  lemma {:induction false} ContainsSelf(s: string)
    ensures Contains(s, s)
  {
    assert OccursAt(s, s, 0);
    ContainsIff(s, s);
  }

  /** What a piece contains, any text built around that piece contains too. */
  lemma {:induction false} ContainsWithin(a: string, m: string, b: string, p: string)
    requires Contains(m, p)
    ensures Contains(a + m + b, p)
  {
    ContainsIff(m, p);
    var i :| OccursAt(m, p, i);
    assert (a + m + b)[|a| + i..|a| + i + |p|] == m[i..i + |p|];
    assert OccursAt(a + m + b, p, |a| + i);
    ContainsIff(a + m + b, p);
  }

  /** A text made of five pieces contains its second and fourth. */
  lemma {:induction false} FivePiecesContain(a: string, x: string, b: string, y: string, c: string)
    ensures Contains(a + x + b + y + c, x) && Contains(a + x + b + y + c, y)
  {
    ContainsSelf(x);
    ContainsSelf(y);
    ContainsWithin(a, x, b + y + c, x);
    assert a + x + b + y + c == a + x + (b + y + c);
    ContainsWithin(a + x + b, y, c, y);
  }

  /**
    A text made of seven pieces contains its second and sixth, and whatever its fourth
    contains.
  */
  lemma {:induction false} SevenPiecesContain(a: string, x: string, b: string, m: string, c: string, y: string, e: string)
    ensures var t := a + x + b + m + c + y + e;
      && Contains(t, x) && Contains(t, y)
      && forall p :: Contains(m, p) ==> Contains(t, p)
  {
    var t := a + x + b + m + c + y + e;
    FivePiecesContain(a, x, b + m + c, y, e);
    assert t == a + x + (b + m + c) + y + e;
    forall p | Contains(m, p)
      ensures Contains(t, p)
    {
      ContainsWithin(a + x + b, m, c + y + e, p);
      assert t == a + x + b + m + (c + y + e);
    }
  }

  // ---------------------------------------------------------------------------
  // split(sep), sep.join(parts), replace(old, new)
  // ---------------------------------------------------------------------------

  /** Python's s.split(sep) for a non-empty separator: cut at every leftmost occurrence. */
  function Split(s: string, sep: string): (r: seq<string>)
    requires sep != []
    ensures |r| >= 1
    decreases |s|
  {
    match Find(s, sep)
    case None => [s]
    case Some(i) => [s[..i]] + Split(s[i + |sep|..], sep)
  }

  /** Python's sep.join(parts). */
  function Join(parts: seq<string>, sep: string): string {
    if |parts| == 0 then []
    else if |parts| == 1 then parts[0]
    else parts[0] + sep + Join(parts[1..], sep)
  }

  lemma {:induction false} JoinCons(a: string, rest: seq<string>, sep: string)
    requires |rest| >= 1
    ensures Join([a] + rest, sep) == a + sep + Join(rest, sep)
  {
    assert ([a] + rest)[1..] == rest;
  }

  /** A joined text contains each of its parts. */
  lemma {:induction false} JoinContains(parts: seq<string>, sep: string, k: nat)
    requires k < |parts|
    ensures Contains(Join(parts, sep), parts[k])
    decreases |parts|
  {
    if |parts| == 1 {
      ContainsSelf(parts[0]);
    } else if k == 0 {
      ContainsSelf(parts[0]);
      ContainsWithin([], parts[0], sep + Join(parts[1..], sep), parts[0]);
      assert [] + parts[0] + (sep + Join(parts[1..], sep)) == Join(parts, sep);
    } else {
      JoinContains(parts[1..], sep, k - 1);
      ContainsWithin(parts[0] + sep, Join(parts[1..], sep), [], parts[k]);
      assert parts[0] + sep + Join(parts[1..], sep) + [] == Join(parts, sep);
    }
  }

  lemma {:induction false} SplitAt(s: string, sep: string, i: nat)
    requires sep != [] && Find(s, sep) == Some(i)
    ensures Split(s, sep) == [s[..i]] + Split(s[i + |sep|..], sep)
  {
  }

  /** Joining the pieces of a split with the same separator gives back the text. */
  lemma {:induction false} SplitJoin(s: string, sep: string)
    requires sep != []
    ensures Join(Split(s, sep), sep) == s
    decreases |s|
  {
    match Find(s, sep)
    case None =>
    case Some(i) =>
      var rest := s[i + |sep|..];
      SplitJoin(rest, sep);
      SplitAt(s, sep, i);
      JoinCons(s[..i], Split(rest, sep), sep);
      assert s == s[..i] + sep + rest;
  }

  /** No piece of a split contains the separator. */
  lemma {:induction false} SplitPiecesFree(s: string, sep: string)
    requires sep != []
    ensures forall k :: 0 <= k < |Split(s, sep)| ==> Find(Split(s, sep)[k], sep).None?
    decreases |s|
  {
    match Find(s, sep)
    case None =>
    case Some(i) =>
      var rest := s[i + |sep|..];
      SplitPiecesFree(rest, sep);
      var head := s[..i];
      match Find(head, sep)
      case None =>
      case Some(j) =>
        assert head[j..j + |sep|] == s[j..j + |sep|];
        assert OccursAt(s, sep, j);
        assert false;
  }

  /** Python's s.replace(pat, rep) for a non-empty pattern: left to right, non-overlapping. */
  function Replace(s: string, pat: string, rep: string): (r: string)
    requires pat != []
    ensures Find(s, pat).None? ==> r == s
    ensures |rep| <= |pat| ==> |r| <= |s|
    ensures |rep| < |pat| && Find(s, pat).Some? ==> |r| < |s|
    decreases |s|
  {
    match Find(s, pat)
    case None => s
    case Some(i) => s[..i] + rep + Replace(s[i + |pat|..], pat, rep)
  }

  lemma {:induction false} ReplaceAt(s: string, pat: string, rep: string, i: nat)
    requires pat != [] && Find(s, pat) == Some(i)
    ensures Replace(s, pat, rep) == s[..i] + rep + Replace(s[i + |pat|..], pat, rep)
  {
  }

  /** replace() agrees with an independent definition: rep.join(s.split(pat)). */
  lemma {:induction false} ReplaceIsJoinOfSplit(s: string, pat: string, rep: string)
    requires pat != []
    ensures Replace(s, pat, rep) == Join(Split(s, pat), rep)
    decreases |s|
  {
    var f := Find(s, pat);
    if f.Some? {
      var i := f.value;
      var rest := s[i + |pat|..];
      ReplaceIsJoinOfSplit(rest, pat, rep);
      ReplaceAt(s, pat, rep, i);
      SplitAt(s, pat, i);
      JoinCons(s[..i], Split(rest, pat), rep);
    }
  }

  // ---------------------------------------------------------------------------
  // lower()
  // ---------------------------------------------------------------------------

  /** Lower case for ASCII and Latin-1 capitals (the letters Spanish text uses). */
  function LowerChar(c: char): char {
    if 'A' <= c <= 'Z' || ('\U{C0}' <= c <= '\U{DE}' && c != '\U{D7}') then (c as int + 32) as char else c
  }

  function Lower(s: string): (r: string)
    ensures |r| == |s|
    ensures forall i :: 0 <= i < |s| ==> r[i] == LowerChar(s[i])
  {
    seq(|s|, i requires 0 <= i < |s| => LowerChar(s[i]))
  }

  // ---------------------------------------------------------------------------
  // Digits: isdigit(), int(...) and str(n)
  // ---------------------------------------------------------------------------

  predicate IsDigit(c: char) {
    '0' <= c <= '9'
  }

  /** `''.join(c for c in s if c.isdigit())`. */
  function DigitsOf(s: string): (r: string)
    ensures |r| <= |s|
    ensures forall i :: 0 <= i < |r| ==> IsDigit(r[i])
    ensures (forall i :: 0 <= i < |s| ==> IsDigit(s[i])) ==> r == s
  {
    if s == [] then []
    else (if IsDigit(s[0]) then [s[0]] else []) + DigitsOf(s[1..])
  }

  /** int(digits) for a string of ASCII digits (leading zeros allowed). */
  function DigitsValue(s: string): nat
    requires forall i :: 0 <= i < |s| ==> IsDigit(s[i])
  {
    if s == [] then 0
    else
      assert IsDigit(s[|s| - 1]);
      10 * DigitsValue(s[..|s| - 1]) + (s[|s| - 1] as int - '0' as int)
  }

  /** str(n) for a natural number. */
  function Decimal(n: nat): (r: string)
    ensures r != []
    ensures forall i :: 0 <= i < |r| ==> IsDigit(r[i])
  {
    if n < 10 then [('0' as int + n) as char]
    else Decimal(n / 10) + [('0' as int + n % 10) as char]
  }

  /** Reading back what str(n) wrote gives n. */
  lemma {:induction false} DecimalRoundTrip(n: nat)
    ensures DigitsValue(Decimal(n)) == n
  {
    if n >= 10 {
      DecimalRoundTrip(n / 10);
      var r := Decimal(n);
      assert r[..|r| - 1] == Decimal(n / 10);
    }
  }
}
