/**
 * String helpers shared by the keyword editor, the download-name rule and the
 * exporters: the ECMAScript whitespace set (used by `String.prototype.trim`
 * and by the regular-expression class `\s`), trimming, ASCII lower-casing,
 * collapsing whitespace runs into `-`, joining, and decimal integers.
 */
module Text {
  import opened Wrappers

  /** The WhiteSpace and LineTerminator code points of ECMAScript: exactly
      the characters `trim` removes and `\s` matches. */
  predicate IsSpace(c: char)
    ensures c == ' ' || c == '\t' || c == '\n' || c == '\r' ==> IsSpace(c)
    ensures 'a' <= c <= 'z' || 'A' <= c <= 'Z' || '0' <= c <= '9' || c == '-' ==> !IsSpace(c)
  {
    || c == '\t' || c == '\n' || c == '\U{000B}' || c == '\U{000C}' || c == '\r'
    || c == ' ' || c == '\U{00A0}' || c == '\U{1680}'
    || ('\U{2000}' <= c <= '\U{200A}')
    || c == '\U{2028}' || c == '\U{2029}' || c == '\U{202F}' || c == '\U{205F}'
    || c == '\U{3000}' || c == '\U{FEFF}'
  }

  predicate AllSpace(s: string) {
    forall i :: 0 <= i < |s| ==> IsSpace(s[i])
  }

  predicate NoSpace(s: string) {
    forall i :: 0 <= i < |s| ==> !IsSpace(s[i])
  }

  /** A string that `trim` leaves as it is. */
  predicate IsTrimmed(s: string) {
    s == [] || (!IsSpace(s[0]) && !IsSpace(s[|s| - 1]))
  }

  /** Number of whitespace characters at the start of `s`. */
  function LeadCount(s: string): (n: nat)
    ensures n <= |s|
  {
    if s == [] || !IsSpace(s[0]) then 0 else 1 + LeadCount(s[1..])
  }

  lemma {:induction false} LeadCountSpec(s: string)
    ensures AllSpace(s[..LeadCount(s)])
    ensures LeadCount(s) == |s| || !IsSpace(s[LeadCount(s)])
  {
    if s != [] && IsSpace(s[0]) {
      LeadCountSpec(s[1..]);
      forall i | 0 <= i < LeadCount(s)
        ensures IsSpace(s[i])
      {
        if i > 0 {
          assert s[i] == s[1..][i - 1];
        }
      }
    }
  }

  /** Number of whitespace characters at the end of `s`. */
  function TrailCount(s: string): (n: nat)
    ensures n <= |s|
  {
    if s == [] || !IsSpace(s[|s| - 1]) then 0 else 1 + TrailCount(s[..|s| - 1])
  }

  lemma {:induction false} TrailCountSpec(s: string)
    ensures forall i :: |s| - TrailCount(s) <= i < |s| ==> IsSpace(s[i])
    ensures TrailCount(s) == |s| || !IsSpace(s[|s| - TrailCount(s) - 1])
  {
    if s != [] && IsSpace(s[|s| - 1]) {
      var s' := s[..|s| - 1];
      TrailCountSpec(s');
      forall i | |s| - TrailCount(s) <= i < |s|
        ensures IsSpace(s[i])
      {
        if i < |s| - 1 {
          assert s[i] == s'[i];
        }
      }
    }
  }

  /** `s` without its leading whitespace (`trimStart`). */
  function TrimStart(s: string): (r: string)
    ensures |r| <= |s|
    ensures r == s[|s| - |r|..]
    ensures r == [] || !IsSpace(r[0])
    ensures s != [] && IsSpace(s[0]) ==> |r| < |s|
  {
    LeadCountSpec(s);
    s[LeadCount(s)..]
  }

  /** `String.prototype.trim`. */
  function Trim(s: string): (r: string)
    ensures IsTrimmed(r)
    ensures |r| <= |s|
  {
    var k := LeadCount(s);
    if k == |s| then []
    else
      var j := |s| - TrailCount(s);
      LeadCountSpec(s);
      TrailCountSpec(s);
      assert k < j;
      s[k..j]
  }

  /** Trimming gives the empty string exactly when the input is whitespace
      only. */
  lemma TrimEmptyIffBlank(s: string)
    ensures Trim(s) == [] <==> AllSpace(s)
  {
    LeadCountSpec(s);
    TrailCountSpec(s);
    var k := LeadCount(s);
    if AllSpace(s) {
      assert k == |s|;
    }
    if k == |s| {
      assert s[..k] == s;
    }
  }

  /** Every string splits into leading whitespace, its trimmed core and
      trailing whitespace. */
  lemma TrimDecomposes(s: string)
    ensures LeadCount(s) + |Trim(s)| <= |s|
    ensures Trim(s) == s[LeadCount(s)..LeadCount(s) + |Trim(s)|]
    ensures AllSpace(s[..LeadCount(s)])
    ensures AllSpace(s[LeadCount(s) + |Trim(s)|..])
  {
    LeadCountSpec(s);
    var k := LeadCount(s);
    var r := Trim(s);
    if k < |s| {
      TrailCountSpec(s);
      var j := |s| - TrailCount(s);
      assert r == s[k..j];
      var tail := s[j..];
      forall i | 0 <= i < |tail|
        ensures IsSpace(tail[i])
      {
        assert tail[i] == s[j + i];
      }
    } else {
      assert r == [];
    }
  }

  /** Leading whitespace run followed by a character that is not whitespace. */
  lemma {:induction false} LeadCountOfRun(w: string, b: string)
    requires AllSpace(w)
    requires b == [] || !IsSpace(b[0])
    ensures LeadCount(w + b) == |w|
    decreases |w|
  {
    if w == [] {
      assert w + b == b;
    } else {
      var x := w + b;
      assert x[0] == w[0];
      assert x[1..] == w[1..] + b;
      LeadCountOfRun(w[1..], b);
    }
  }

  /** Trailing whitespace run preceded by a character that is not whitespace. */
  lemma {:induction false} TrailCountOfRun(a: string, w: string)
    requires AllSpace(w)
    requires a == [] || !IsSpace(a[|a| - 1])
    ensures TrailCount(a + w) == |w|
    decreases |w|
  {
    if w == [] {
      assert a + w == a;
    } else {
      var x := a + w;
      assert x[|x| - 1] == w[|w| - 1];
      assert x[..|x| - 1] == a + w[..|w| - 1];
      TrailCountOfRun(a, w[..|w| - 1]);
    }
  }

  /** `trim` removes exactly the surrounding whitespace: padding a trimmed
      string with whitespace on both sides and trimming gives it back. */
  lemma TrimPadded(a: string, t: string, b: string)
    requires AllSpace(a) && IsTrimmed(t) && AllSpace(b)
    ensures Trim(a + t + b) == t
  {
    var s := a + t + b;
    if t == [] {
      assert s == a + b;
      assert AllSpace(s);
      TrimEmptyIffBlank(s);
    } else {
      assert s == a + (t + b);
      LeadCountOfRun(a, t + b);
      assert s == (a + t) + b;
      TrailCountOfRun(a + t, b);
      assert s[|a|..|s| - |b|] == t;
    }
  }

  /** `trim` is idempotent. */
  lemma TrimIdempotent(s: string)
    ensures Trim(Trim(s)) == Trim(s)
  {
    TrimPadded([], Trim(s), []);
    assert [] + Trim(s) + [] == Trim(s);
  }

  /** ASCII part of `String.prototype.toLowerCase`. */
  function LowerChar(c: char): (d: char)
    ensures !('A' <= d <= 'Z')
    ensures IsSpace(d) <==> IsSpace(c)
    ensures d != c ==> 'A' <= c <= 'Z'
  {
    if 'A' <= c <= 'Z' then (c as int + 32) as char else c
  }

  function ToLower(s: string): (r: string)
    ensures |r| == |s|
    ensures forall i :: 0 <= i < |s| ==> r[i] == LowerChar(s[i])
  {
    if s == [] then [] else [LowerChar(s[0])] + ToLower(s[1..])
  }

  /** Lower-casing keeps whitespace where it was and leaves no capital letter. */
  lemma ToLowerKeepsSpaces(s: string)
    ensures forall i :: 0 <= i < |s| ==> (IsSpace(ToLower(s)[i]) <==> IsSpace(s[i]))
    ensures forall i :: 0 <= i < |s| ==> !('A' <= ToLower(s)[i] <= 'Z')
  {
  }

  /** `replace(/\s+/g, '-')`: every maximal run of whitespace becomes one `-`. */
  function DashSpaces(s: string): (r: string)
    ensures |r| <= |s|
    decreases |s|
  {
    if s == [] then []
    else if IsSpace(s[0]) then "-" + DashSpaces(TrimStart(s))
    else [s[0]] + DashSpaces(s[1..])
  }

  /** The result holds no whitespace. */
  lemma {:induction false} DashSpacesNoSpaceLeft(s: string)
    ensures NoSpace(DashSpaces(s))
    decreases |s|
  {
    if s != [] {
      var rest := if IsSpace(s[0]) then TrimStart(s) else s[1..];
      DashSpacesNoSpaceLeft(rest);
    }
  }

  /** Every character of the result is a `-` or a character of the input. */
  lemma {:induction false} DashSpacesChars(s: string)
    ensures forall i :: 0 <= i < |DashSpaces(s)| ==> DashSpaces(s)[i] == '-' || DashSpaces(s)[i] in s
    decreases |s|
  {
    if s != [] {
      var rest := if IsSpace(s[0]) then TrimStart(s) else s[1..];
      DashSpacesChars(rest);
      assert forall c :: c in rest ==> c in s;
    }
  }

  /** A string without whitespace is left unchanged. */
  lemma {:induction false} DashSpacesNoSpace(s: string)
    requires NoSpace(s)
    ensures DashSpaces(s) == s
    decreases |s|
  {
    if s != [] {
      DashSpacesNoSpace(s[1..]);
    }
  }

  /** Text that ends with a character that is not whitespace is treated on
      its own: what follows it cannot join one of its runs. */
  lemma {:induction false} DashSpacesAppend(a: string, x: string)
    requires a == [] || !IsSpace(a[|a| - 1])
    ensures DashSpaces(a + x) == DashSpaces(a) + DashSpaces(x)
    decreases |a|
  {
    var s := a + x;
    if a == [] {
      assert s == x;
    } else if IsSpace(a[0]) {
      assert s[0] == a[0];
      TrimStartAppend(a, x);
      DashSpacesAppend(TrimStart(a), x);
    } else {
      assert s[0] == a[0];
      assert s[1..] == a[1..] + x;
      DashSpacesAppend(a[1..], x);
    }
  }

  /** A whitespace run `w` between `a` and `b` turns into exactly one `-`,
      and the text on either side is treated on its own. */
  lemma DashSpacesRun(a: string, w: string, b: string)
    requires a == [] || !IsSpace(a[|a| - 1])
    requires w != [] && AllSpace(w)
    requires b == [] || !IsSpace(b[0])
    ensures DashSpaces(a + w + b) == DashSpaces(a) + ("-" + DashSpaces(b))
  {
    var t := w + b;
    DashSpacesLeadingRun(w, b);
    assert a + w + b == a + t;
    DashSpacesAppend(a, t);
  }

  lemma DashSpacesLeadingRun(w: string, b: string)
    requires w != [] && AllSpace(w)
    requires b == [] || !IsSpace(b[0])
    ensures DashSpaces(w + b) == "-" + DashSpaces(b)
  {
    LeadCountOfRun(w, b);
    assert TrimStart(w + b) == b;
  }

  /** Leading whitespace of `a + x` is that of `a` when `a` ends with a
      character that is not whitespace. */
  lemma {:induction false} LeadCountAppend(a: string, x: string)
    requires a != [] && !IsSpace(a[|a| - 1])
    ensures LeadCount(a + x) == LeadCount(a) < |a|
    decreases |a|
  {
    if IsSpace(a[0]) {
      assert (a + x)[1..] == a[1..] + x;
      LeadCountAppend(a[1..], x);
    } else {
      assert (a + x)[0] == a[0];
    }
  }

  lemma TrimStartAppend(a: string, x: string)
    requires a != [] && !IsSpace(a[|a| - 1])
    ensures TrimStart(a) != [] && TrimStart(a)[|TrimStart(a)| - 1] == a[|a| - 1]
    ensures TrimStart(a + x) == TrimStart(a) + x
  {
    LeadCountAppend(a, x);
    var k := LeadCount(a);
    assert (a + x)[k..] == a[k..] + x;
  }

  /** `Array.prototype.join` over strings: no parts give the empty text, one
      part is kept as it is, and joining with the empty separator is plain
      concatenation. */
  function Join(parts: seq<string>, sep: string): (r: string)
    ensures parts == [] ==> r == ""
    ensures |parts| == 1 ==> r == parts[0]
    ensures sep == "" ==> r == Concat(parts)
  {
    if |parts| == 0 then ""
    else if |parts| == 1 then parts[0]
    else
      var rest := Join(parts[1..], sep);
      assert sep == "" ==> parts[0] + sep + rest == parts[0] + rest;
      parts[0] + sep + rest
  }

  /** Joining keeps the parts in their order: appending a part appends the
      separator and that part. */
  lemma {:induction false} JoinAppend(parts: seq<string>, x: string, sep: string)
    requires |parts| > 0
    ensures Join(parts + [x], sep) == Join(parts, sep) + sep + x
  {
    if |parts| == 1 {
      assert (parts + [x])[1..] == [x];
    } else {
      assert (parts + [x])[1..] == parts[1..] + [x];
      JoinAppend(parts[1..], x, sep);
    }
  }

  /** Concatenation of all parts (`join('')`). */
  function Concat(parts: seq<string>): (r: string)
    ensures |parts| == 0 ==> r == ""
  {
    if |parts| == 0 then "" else parts[0] + Concat(parts[1..])
  }

  lemma {:induction false} ConcatAppend(a: seq<string>, b: seq<string>)
    ensures Concat(a + b) == Concat(a) + Concat(b)
  {
    if a == [] {
      assert a + b == b;
    } else {
      assert (a + b)[1..] == a[1..] + b;
      ConcatAppend(a[1..], b);
    }
  }

  /** A template: the fixed texts with the holes filled in between them,
      `fixed[0] + holes[0] + fixed[1] + ... + fixed[n]`. */
  function Fill(fixed: seq<string>, holes: seq<string>): string
    requires |fixed| == |holes| + 1
  {
    if holes == [] then fixed[0] else fixed[0] + holes[0] + Fill(fixed[1..], holes[1..])
  }

  ghost predicate OccursAt(s: string, t: string, i: int) {
    0 <= i && i + |t| <= |s| && s[i..i + |t|] == t
  }

  ghost predicate Contains(s: string, t: string) {
    exists i :: OccursAt(s, t, i)
  }

  predicate StartsWith(s: string, t: string) {
    |t| <= |s| && s[..|t|] == t
  }

  predicate EndsWith(s: string, t: string) {
    |t| <= |s| && s[|s| - |t|..] == t
  }

  /** Each part appears in the concatenation, right after the parts before it. */
  lemma {:induction false} ConcatContains(parts: seq<string>, k: nat)
    requires k < |parts|
    ensures OccursAt(Concat(parts), parts[k], |Concat(parts[..k])|)
    ensures Contains(Concat(parts), parts[k])
  {
    assert parts == parts[..k] + [parts[k]] + parts[k + 1..];
    ConcatAppend(parts[..k] + [parts[k]], parts[k + 1..]);
    ConcatAppend(parts[..k], [parts[k]]);
    var p := Concat(parts[..k]);
    assert Concat(parts) == p + parts[k] + Concat(parts[k + 1..]);
    assert Concat(parts)[|p|..|p| + |parts[k]|] == parts[k];
    assert OccursAt(Concat(parts), parts[k], |p|);
  }

  lemma ContainsLeft(a: string, b: string, t: string)
    requires Contains(a, t)
    ensures Contains(a + b, t)
  {
    var i :| OccursAt(a, t, i);
    assert (a + b)[i..i + |t|] == a[i..i + |t|];
    assert OccursAt(a + b, t, i);
  }

  lemma ContainsRight(a: string, b: string, t: string)
    requires Contains(b, t)
    ensures Contains(a + b, t)
  {
    var i :| OccursAt(b, t, i);
    assert (a + b)[|a| + i..|a| + i + |t|] == b[i..i + |t|];
    assert OccursAt(a + b, t, |a| + i);
  }

  /** Each part appears in the joined text. */
  lemma {:induction false} JoinContains(parts: seq<string>, sep: string, k: nat)
    requires k < |parts|
    ensures Contains(Join(parts, sep), parts[k])
  {
    if |parts| == 1 {
      assert OccursAt(Join(parts, sep), parts[k], 0);
    } else if k == 0 {
      assert OccursAt(parts[0], parts[0], 0);
      ContainsLeft(parts[0], sep + Join(parts[1..], sep), parts[0]);
      assert parts[0] + (sep + Join(parts[1..], sep)) == Join(parts, sep);
    } else {
      JoinContains(parts[1..], sep, k - 1);
      ContainsRight(parts[0] + sep, Join(parts[1..], sep), parts[k]);
    }
  }

  /** The first part is a prefix of the concatenation; it follows from one
      unfolding of `Concat`. */
  lemma ConcatStartsWith(parts: seq<string>)
    requires |parts| > 0
    ensures |parts[0]| <= |Concat(parts)| && Concat(parts)[..|parts[0]|] == parts[0]
  {
  }

  /** The last part is a suffix of the concatenation. */
  lemma ConcatEndsWith(parts: seq<string>)
    requires |parts| > 0
    ensures var c := Concat(parts); var l := parts[|parts| - 1];
            |l| <= |c| && c[|c| - |l|..] == l
  {
    var n := |parts|;
    assert parts == parts[..n - 1] + [parts[n - 1]];
    ConcatAppend(parts[..n - 1], [parts[n - 1]]);
  }

  /** Every hole of a filled template appears in it. */
  lemma {:induction false} FillContains(fixed: seq<string>, holes: seq<string>, k: nat)
    requires |fixed| == |holes| + 1 && k < |holes|
    ensures Contains(Fill(fixed, holes), holes[k])
  {
    var rest := Fill(fixed[1..], holes[1..]);
    var f := Fill(fixed, holes);
    assert f == fixed[0] + (holes[0] + rest);
    if k == 0 {
      assert OccursAt(holes[0], holes[0], 0);
      ContainsLeft(holes[0], rest, holes[0]);
    } else {
      FillContains(fixed[1..], holes[1..], k - 1);
      ContainsRight(holes[0], rest, holes[k]);
    }
    ContainsRight(fixed[0], holes[0] + rest, holes[k]);
  }

  /** A filled template starts with its first fixed text; it follows from
      one unfolding of `Fill`. */
  lemma FillStartsWith(fixed: seq<string>, holes: seq<string>)
    requires |fixed| == |holes| + 1
    ensures |fixed[0]| <= |Fill(fixed, holes)| && Fill(fixed, holes)[..|fixed[0]|] == fixed[0]
  {
  }

  /** A filled template ends with its last fixed text. */
  lemma {:induction false} FillEndsWith(fixed: seq<string>, holes: seq<string>)
    requires |fixed| == |holes| + 1
    ensures var f := Fill(fixed, holes); var l := fixed[|fixed| - 1];
            |l| <= |f| && f[|f| - |l|..] == l
  {
    if holes != [] {
      var rest := Fill(fixed[1..], holes[1..]);
      FillEndsWith(fixed[1..], holes[1..]);
      var f := Fill(fixed, holes);
      var p := fixed[0] + holes[0];
      assert f == p + rest;
      var l := fixed[|fixed| - 1];
      assert l == fixed[1..][|fixed[1..]| - 1];
      assert f[|f| - |l|..] == rest[|rest| - |l|..];
    }
  }

  /** A prefix of a prefix is a prefix. */
  lemma PrefixOfPrefix(s: string, a: string, b: string)
    requires |a + b| <= |s| && s[..|a + b|] == a + b
    ensures |a| <= |s| && s[..|a|] == a
  {
  }

  /** A suffix of a suffix is a suffix. */
  lemma SuffixOfSuffix(s: string, a: string, b: string)
    requires |a + b| <= |s| && s[|s| - |a + b|..] == a + b
    ensures |b| <= |s| && s[|s| - |b|..] == b
  {
  }

  /** Containment is transitive. */
  lemma ContainsTrans(s: string, t: string, u: string)
    requires Contains(s, t) && Contains(t, u)
    ensures Contains(s, u)
  {
    var i :| OccursAt(s, t, i);
    var j :| OccursAt(t, u, j);
    forall m | 0 <= m < |u|
      ensures s[i + j + m] == u[m]
    {
      assert t[j + m] == u[m];
      assert s[i + (j + m)] == t[j + m];
    }
    assert s[i + j..i + j + |u|] == u;
    assert OccursAt(s, u, i + j);
  }

  predicate IsDigit(c: char) {
    '0' <= c <= '9'
  }

  function DigitChar(d: nat): (c: char)
    requires d < 10
    ensures IsDigit(c)
  {
    ('0' as int + d) as char
  }

  /** Decimal digits of `n`, most significant first, without leading zeros. */
  function NatToText(n: nat): (r: string)
    ensures |r| > 0
    ensures forall i :: 0 <= i < |r| ==> IsDigit(r[i])
  {
    if n < 10 then [DigitChar(n)] else NatToText(n / 10) + [DigitChar(n % 10)]
  }

  /** Decimal text of an integer, with a leading `-` when negative. */
  function IntToText(n: int): (r: string)
    ensures |r| > 0
  {
    if n < 0 then "-" + NatToText(-n) else NatToText(n)
  }

  /** Value of a string of decimal digits. */
  function DigitsValue(s: string): (n: nat)
    requires forall i :: 0 <= i < |s| ==> IsDigit(s[i])
  {
    if s == [] then 0
    else
      assert IsDigit(s[|s| - 1]);
      10 * DigitsValue(s[..|s| - 1]) + (s[|s| - 1] as int - '0' as int)
  }

  /** Reads an optionally negative decimal integer; `None` for anything else. */
  function ParseInt(s: string): (r: Option<int>)
    ensures r.Some? ==> |s| > 0
  {
    if |s| > 1 && s[0] == '-' && (forall i :: 1 <= i < |s| ==> IsDigit(s[i])) then
      Some(0 - DigitsValue(s[1..]) as int)
    else if |s| > 0 && (forall i :: 0 <= i < |s| ==> IsDigit(s[i])) then
      Some(DigitsValue(s))
    else None
  }

  lemma {:induction false} DigitsRoundTrip(n: nat)
    ensures DigitsValue(NatToText(n)) == n
  {
    if n >= 10 {
      DigitsRoundTrip(n / 10);
      var r := NatToText(n);
      assert r[..|r| - 1] == NatToText(n / 10);
    }
  }

  /** Decimal text reads back as the integer it was written from. */
  lemma IntRoundTrip(n: int)
    ensures ParseInt(IntToText(n)) == Some(n)
  {
    if n < 0 {
      var d := NatToText(-n);
      var r := "-" + d;
      assert r[1..] == d;
      forall i | 1 <= i < |r|
        ensures IsDigit(r[i])
      {
        assert r[i] == d[i - 1];
      }
      DigitsRoundTrip(-n);
    } else {
      var d := NatToText(n);
      assert IsDigit(d[0]);
      DigitsRoundTrip(n);
    }
  }
}
