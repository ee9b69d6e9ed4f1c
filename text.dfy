/** String primitives the story agents rely on: substring search (as `re.search`
    and Python's `in` perform it), Python's `str.strip()`, `"\n".join(...)`,
    and the decimal rendering of an `int` inside an f-string. */
module Text {

  datatype Option<+T> = None | Some(value: T)

  /** `pat` occurs in `s` starting at index `i`. */
  predicate MatchAt(s: string, pat: string, i: nat)
  {
    i + |pat| <= |s| && s[i..i + |pat|] == pat
  }

  /** The first index at or after `from` where `pat` occurs in `s`. */
  function Find(s: string, pat: string, from: nat): (r: Option<nat>)
    decreases |s| - from
    ensures r.Some? ==> from <= r.value && MatchAt(s, pat, r.value)
    ensures r.Some? ==> forall j: nat :: from <= j < r.value ==> !MatchAt(s, pat, j)
    ensures r.None? ==> forall j: nat :: from <= j ==> !MatchAt(s, pat, j)
  {
    if from + |pat| > |s| then None
    else if s[from..from + |pat|] == pat then Some(from)
    else Find(s, pat, from + 1)
  }

  /** `Find` reports exactly the first occurrence at or after `from`. */
  lemma {:induction false} FindIs(s: string, pat: string, from: nat, i: nat)
    requires from <= i && MatchAt(s, pat, i)
    requires forall j: nat :: from <= j < i ==> !MatchAt(s, pat, j)
    ensures Find(s, pat, from) == Some(i)
    decreases i - from
  {
    if from < i {
      FindIs(s, pat, from + 1, i);
    }
  }

  /** One differing character rules an occurrence out. */
  lemma MismatchAt(s: string, pat: string, j: nat, t: nat)
    requires t < |pat| && j + t < |s| && s[j + t] != pat[t]
    ensures !MatchAt(s, pat, j)
  {
    if j + |pat| <= |s| {
      assert s[j..j + |pat|][t] == s[j + t];
    }
  }

  /** Python's `pat in s` for strings. */
  predicate Contains(s: string, pat: string)
    ensures Contains(s, pat) <==> exists i: nat :: MatchAt(s, pat, i)
  {
    Find(s, pat, 0).Some?
  }

  /** An occurrence inside a slice is an occurrence in the whole string. */
  lemma SliceMatchAt(s: string, pat: string, a: nat, b: nat, i: nat)
    requires a <= b <= |s|
    ensures MatchAt(s[a..b], pat, i) ==> MatchAt(s, pat, a + i)
  {
    if MatchAt(s[a..b], pat, i) {
      assert forall t :: 0 <= t < |pat| ==> s[a + i + t] == s[a..b][i + t] == pat[t];
      assert s[a + i..a + i + |pat|] == pat;
    }
  }

  /** Whatever occurs in a slice of a string occurs in the string. */
  lemma SliceContains(s: string, pat: string, a: nat, b: nat)
    requires a <= b <= |s|
    ensures Contains(s[a..b], pat) ==> Contains(s, pat)
  {
    if Contains(s[a..b], pat) {
      var i: nat :| MatchAt(s[a..b], pat, i);
      SliceMatchAt(s, pat, a, b, i);
    }
  }

  /** An occurrence lying wholly inside a part of `s` equal to `part` is an occurrence
      in `part`; so a pattern `part` lacks cannot occur there. */
  lemma NoMatchInside(s: string, pat: string, part: string, b: nat, j: nat)
    requires b + |part| <= |s| && s[b..b + |part|] == part
    requires b <= j && j + |pat| <= b + |part|
    requires !Contains(part, pat)
    ensures !MatchAt(s, pat, j)
  {
    var i := j - b;
    var x, y := part[i..i + |pat|], s[j..j + |pat|];
    forall k | 0 <= k < |x| ensures x[k] == y[k] {
      assert part[i + k] == s[b..b + |part|][i + k];
    }
    assert x == y;
    assert !MatchAt(part, pat, j - b);
  }

  /** A pattern whose only `<` is its first character, absent from `part`, cannot
      start inside `part` when `part` is directly followed by a `<` in `s`: wholly
      inside it is absent, and straddling its end the `<` falls on a later character
      of the pattern. */
  lemma NoMatchBeforeLt(s: string, pat: string, part: string, b: nat, j: nat)
    requires b + |part| < |s| && s[b..b + |part|] == part && s[b + |part|] == '<'
    requires pat != [] && forall k :: 1 <= k < |pat| ==> pat[k] != '<'
    requires !Contains(part, pat)
    requires b <= j < b + |part|
    ensures !MatchAt(s, pat, j)
  {
    if j + |pat| <= b + |part| {
      NoMatchInside(s, pat, part, b, j);
    } else {
      MismatchAt(s, pat, j, b + |part| - j);
    }
  }

  // ---------------------------------------------------------------------------
  // Python's str.strip()

  /** The characters for which Python's `str.isspace()` holds. */
  predicate IsSpace(c: char)
  {
    var n := c as int;
    (0x09 <= n <= 0x0D) || (0x1C <= n <= 0x20) || n == 0x85 || n == 0xA0 || n == 0x1680
    || (0x2000 <= n <= 0x200A) || n == 0x2028 || n == 0x2029 || n == 0x202F
    || n == 0x205F || n == 0x3000
  }

  /** Number of whitespace characters at the start of `s`. */
  function LeadingSpaces(s: string): (n: nat)
    ensures n <= |s|
    ensures forall i :: 0 <= i < n ==> IsSpace(s[i])
    ensures n < |s| ==> !IsSpace(s[n])
  {
    if s != [] && IsSpace(s[0]) then 1 + LeadingSpaces(s[1..]) else 0
  }

  /** Number of whitespace characters at the end of `s`. */
  function TrailingSpaces(s: string): (n: nat)
    ensures n <= |s|
    ensures forall i :: |s| - n <= i < |s| ==> IsSpace(s[i])
    ensures n < |s| ==> !IsSpace(s[|s| - n - 1])
  {
    if s != [] && IsSpace(s[|s| - 1]) then 1 + TrailingSpaces(s[..|s| - 1]) else 0
  }

  /** Python's `s.strip()`: drop leading and trailing whitespace. The result is the
      slice of `s` that starts at its first and ends at its last non-space character. */
  function Strip(s: string): (r: string)
    ensures r == [] || (!IsSpace(r[0]) && !IsSpace(r[|r| - 1]))
    ensures r == [] <==> forall i :: 0 <= i < |s| ==> IsSpace(s[i])
    ensures LeadingSpaces(s) + |r| <= |s| && r == s[LeadingSpaces(s)..LeadingSpaces(s) + |r|]
    ensures forall i :: 0 <= i < |s| && !(LeadingSpaces(s) <= i < LeadingSpaces(s) + |r|) ==> IsSpace(s[i])
  {
    var a := LeadingSpaces(s);
    if a == |s| then "" else s[a..|s| - TrailingSpaces(s)]
  }

  /** A string that neither starts nor ends with whitespace is its own strip. */
  lemma StripUnpadded(s: string)
    requires s == [] || (!IsSpace(s[0]) && !IsSpace(s[|s| - 1]))
    ensures Strip(s) == s
  {
    if s != [] {
      assert LeadingSpaces(s) == 0;
      assert TrailingSpaces(s) == 0;
    }
  }

  /** Whatever the stripped string contains, the original contains. */
  lemma StripContains(s: string, pat: string)
    ensures Contains(Strip(s), pat) ==> Contains(s, pat)
  {
    var t, a := Strip(s), LeadingSpaces(s);
    SliceContains(s, pat, a, a + |t|);
  }

  /** Stripping twice is stripping once. */
  lemma StripIdempotent(s: string)
    ensures Strip(Strip(s)) == Strip(s)
  {
    StripUnpadded(Strip(s));
  }

  // ---------------------------------------------------------------------------
  // "\n".join(...) and the lines of a rendering

  predicate NoNewline(s: string)
  {
    forall i :: 0 <= i < |s| ==> s[i] != '\n'
  }

  /** Python's `sep.join(parts)`. */
  function Join(parts: seq<string>, sep: string): string
  {
    if |parts| == 0 then ""
    else if |parts| == 1 then parts[0]
    else parts[0] + sep + Join(parts[1..], sep)
  }

  /** Joining a concatenation of two non-empty lists joins each and puts one separator between. */
  lemma {:induction false} JoinConcat(a: seq<string>, b: seq<string>, sep: string)
    requires a != [] && b != []
    ensures Join(a + b, sep) == Join(a, sep) + sep + Join(b, sep)
  {
    if |a| == 1 {
      assert (a + b)[1..] == b;
    } else {
      assert (a + b)[1..] == a[1..] + b;
      JoinConcat(a[1..], b, sep);
    }
  }

  /** Every part of a join appears in it, preceded by the join of the parts before it
      and followed by the join of the parts after it. */
  lemma JoinAt(parts: seq<string>, sep: string, k: nat)
    requires k < |parts|
    ensures Join(parts, sep) ==
      (if k == 0 then "" else Join(parts[..k], sep) + sep)
      + parts[k]
      + (if k == |parts| - 1 then "" else sep + Join(parts[k + 1..], sep))
  {
    var before, here, after := parts[..k], [parts[k]], parts[k + 1..];
    assert parts == before + here + after;
    if k > 0 && k < |parts| - 1 {
      JoinConcat(before, here + after, sep);
      assert before + here + after == before + (here + after);
      JoinConcat(here, after, sep);
    } else if k > 0 {
      assert after == [] && parts == before + here;
      JoinConcat(before, here, sep);
    } else if k < |parts| - 1 {
      JoinConcat(here, after, sep);
    }
  }

  /** `sep.join(f(x) for x in xs)`. */
  function JoinMap<T>(xs: seq<T>, f: T -> string, sep: string): string
  {
    Join(seq(|xs|, i requires 0 <= i < |xs| => f(xs[i])), sep)
  }

  /** `JoinMap` of a prefix or suffix followed or preceded by the separator; nothing
      for an empty list. */
  function JoinMapBefore<T>(xs: seq<T>, f: T -> string, sep: string): string
  {
    if xs == [] then "" else JoinMap(xs, f, sep) + sep
  }

  function JoinMapAfter<T>(xs: seq<T>, f: T -> string, sep: string): string
  {
    if xs == [] then "" else sep + JoinMap(xs, f, sep)
  }

  /** Every element is rendered, in order: the rendering of element `k` stands between
      the rendering of the elements before it and that of the elements after it. */
  lemma JoinMapAt<T>(xs: seq<T>, f: T -> string, sep: string, k: nat)
    requires k < |xs|
    ensures JoinMap(xs, f, sep) == JoinMapBefore(xs[..k], f, sep) + f(xs[k]) + JoinMapAfter(xs[k + 1..], f, sep)
  {
    var es := seq(|xs|, i requires 0 <= i < |xs| => f(xs[i]));
    JoinAt(es, sep, k);
    assert es[..k] == seq(k, i requires 0 <= i < k => f(xs[..k][i]));
    assert es[k + 1..] == seq(|xs| - k - 1, i requires 0 <= i < |xs| - k - 1 => f(xs[k + 1..][i]));
  }

  /** Rendering one more element appends its rendering. */
  lemma JoinMapSnoc<T>(xs: seq<T>, x: T, f: T -> string, sep: string)
    ensures JoinMap(xs + [x], f, sep) == JoinMapBefore(xs, f, sep) + f(x)
  {
    JoinMapAt(xs + [x], f, sep, |xs|);
    assert (xs + [x])[..|xs|] == xs;
  }

  /** Python's `s.split("\n")`: the lines of `s`. */
  function Lines(s: string): (r: seq<string>)
    ensures |r| >= 1
  {
    if s == [] then [""]
    else if s[0] == '\n' then [""] + Lines(s[1..])
    else
      var rest := Lines(s[1..]);
      [[s[0]] + rest[0]] + rest[1..]
  }

  /** A string without a newline is a single line. */
  lemma {:induction false} LinesOfLine(s: string)
    requires NoNewline(s)
    ensures Lines(s) == [s]
  {
    if s != [] {
      LinesOfLine(s[1..]);
      assert [s[0]] + s[1..] == s;
    }
  }

  /** Splitting at a newline splits the two sides independently. */
  lemma {:induction false} LinesConcat(x: string, y: string)
    ensures Lines(x + "\n" + y) == Lines(x) + Lines(y)
  {
    var xy := x + "\n" + y;
    if x == [] {
      assert xy[1..] == y;
    } else {
      assert xy[0] == x[0];
      assert xy[1..] == x[1..] + "\n" + y;
      LinesConcat(x[1..], y);
    }
  }

  /** Joining newline-free lines with "\n" and splitting again gives the lines back. */
  lemma {:induction false} LinesOfJoin(parts: seq<string>)
    requires parts != []
    requires forall i :: 0 <= i < |parts| ==> NoNewline(parts[i])
    ensures Lines(Join(parts, "\n")) == parts
  {
    LinesOfLine(parts[0]);
    if |parts| > 1 {
      LinesOfJoin(parts[1..]);
      LinesConcat(parts[0], Join(parts[1..], "\n"));
      assert [parts[0]] + parts[1..] == parts;
    }
  }

  // ---------------------------------------------------------------------------
  // Decimal rendering of integers, as an f-string shows an `int`

  function DigitChar(d: nat): (c: char)
    requires d < 10
    ensures '0' <= c <= '9' && c as int - '0' as int == d
  {
    ('0' as int + d) as char
  }

  predicate AllDigits(s: string)
  {
    forall i :: 0 <= i < |s| ==> '0' <= s[i] <= '9'
  }

  /** `str(n)` for a non-negative integer. */
  function NatToDecimal(n: nat): (r: string)
    ensures r != [] && AllDigits(r)
  {
    if n < 10 then [DigitChar(n)] else NatToDecimal(n / 10) + [DigitChar(n % 10)]
  }

  /** `str(i)` for any integer: a minus sign for negative values, then the digits. */
  function IntToDecimal(i: int): (r: string)
    ensures r != [] && NoNewline(r)
  {
    if i < 0 then "-" + NatToDecimal(-i) else NatToDecimal(i)
  }

  /** The value of a string of decimal digits. */
  function DecimalValue(s: string): nat
    requires AllDigits(s)
  {
    if s == [] then 0 else 10 * DecimalValue(s[..|s| - 1]) + (s[|s| - 1] as int - '0' as int)
  }

  /** Python's `int(s)` restricted to an optional minus sign followed by digits. */
  function ParseInt(s: string): Option<int>
  {
    if s != [] && s[0] == '-' && |s| > 1 && AllDigits(s[1..]) then Some(0 - DecimalValue(s[1..]) as int)
    else if s != [] && AllDigits(s) then Some(DecimalValue(s))
    else None
  }

  lemma {:induction false} NatToDecimalValue(n: nat)
    ensures DecimalValue(NatToDecimal(n)) == n
  {
    if n >= 10 {
      NatToDecimalValue(n / 10);
      var r := NatToDecimal(n);
      assert r[..|r| - 1] == NatToDecimal(n / 10);
    }
  }

  /** The rendering of a natural number has no leading zero, and zero is rendered as "0". */
  lemma {:induction false} NatToDecimalCanonical(n: nat)
    ensures n == 0 <==> NatToDecimal(n) == "0"
    ensures n != 0 ==> NatToDecimal(n)[0] != '0'
  {
    if n >= 10 {
      NatToDecimalCanonical(n / 10);
    }
  }

  /** `str(i)` is canonical: no "-0" and no leading zero after the optional sign, which is
      present exactly for negative values. */
  lemma IntToDecimalCanonical(i: int)
    ensures (IntToDecimal(i)[0] == '-') <==> i < 0
    ensures i == 0 <==> IntToDecimal(i) == "0"
    ensures i < 0 ==> |IntToDecimal(i)| > 1 && IntToDecimal(i)[1] != '0'
    ensures i > 0 ==> IntToDecimal(i)[0] != '0'
  {
    if i < 0 {
      NatToDecimalCanonical(-i);
    } else {
      NatToDecimalCanonical(i);
    }
  }

  /** The rendered age reads back as the same integer. */
  lemma IntToDecimalRoundTrip(i: int)
    ensures ParseInt(IntToDecimal(i)) == Some(i)
  {
    var r := IntToDecimal(i);
    if i < 0 {
      NatToDecimalValue(-i);
      assert r[1..] == NatToDecimal(-i);
    } else {
      NatToDecimalValue(i);
    }
  }
}
