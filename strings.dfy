/**
 * The Foundation string operations the tool relies on, over `seq<char>`:
 * `hasPrefix`, `hasSuffix`, `contains`, `components(separatedBy:)`,
 * `joined(separator:)`, `replacingOccurrences(of:with: "")`,
 * `trimmingCharacters(in:)`, `Int(_:)` and integer interpolation.
 */
module Strings {
  import opened Wrappers

  predicate StartsWith(s: string, prefix: string) {
    |prefix| <= |s| && s[..|prefix|] == prefix
  }

  predicate EndsWith(s: string, suffix: string) {
    |suffix| <= |s| && s[|s| - |suffix|..] == suffix
  }

  /** Foundation's `contains`: an occurrence of a non-empty `sub` (an empty needle is never found). */
  predicate Contains(s: string, sub: string) {
    sub != [] && exists i | 0 <= i <= |s| :: StartsWith(s[i..], sub)
  }

  /** `components(separatedBy:)`: cut at every occurrence of `sep`, scanning left to right. */
  function Split(s: string, sep: string): (parts: seq<string>)
    requires sep != []
    ensures |parts| >= 1
    decreases |s|
  {
    if |s| < |sep| then [s]
    else if s[..|sep|] == sep then [""] + Split(s[|sep|..], sep)
    else
      var rest := Split(s[1..], sep);
      [[s[0]] + rest[0]] + rest[1..]
  }

  /** `joined(separator:)`. */
  function Join(parts: seq<string>, sep: string): string
    decreases |parts|
  {
    if parts == [] then ""
    else if |parts| == 1 then parts[0]
    else parts[0] + sep + Join(parts[1..], sep)
  }

  function Last<T>(s: seq<T>): T
    requires s != []
  {
    s[|s| - 1]
  }

  /** Concatenation is associative. */
  lemma Assoc<T>(a: seq<T>, b: seq<T>, c: seq<T>)
    ensures (a + b) + c == a + (b + c)
  {
  }

  /** Two elements appended one at a time. */
  lemma AppendTwo<T>(s: seq<T>, a: T, b: T)
    ensures s + [a] + [b] == s + [a, b]
  {
  }

  /** A non-empty sequence is its front followed by its last element. */
  lemma FrontLast<T>(s: seq<T>)
    requires s != []
    ensures s[..|s| - 1] + [Last(s)] == s
  {
  }

  /** `replacingOccurrences(of: pattern, with: "")`. */
  function RemoveAll(s: string, pattern: string): string
    requires pattern != []
  {
    Join(Split(s, pattern), "")
  }

  lemma JoinStartsWithHead(parts: seq<string>, sep: string)
    requires parts != []
    ensures StartsWith(Join(parts, sep), parts[0])
  {
    if |parts| > 1 {
      assert Join(parts, sep) == parts[0] + (sep + Join(parts[1..], sep));
    }
  }

  lemma JoinHead(x: string, parts: seq<string>, sep: string)
    requires parts != []
    ensures Join([x + parts[0]] + parts[1..], sep) == x + Join(parts, sep)
  {
    var q := [x + parts[0]] + parts[1..];
    assert q[1..] == parts[1..];
  }

  /** Splitting loses nothing: joining the parts with the separator gives the input back. */
  lemma {:induction false} JoinSplit(s: string, sep: string)
    requires sep != []
    ensures Join(Split(s, sep), sep) == s
    decreases |s|
  {
    if |s| < |sep| {
    } else if s[..|sep|] == sep {
      var rest := Split(s[|sep|..], sep);
      JoinSplit(s[|sep|..], sep);
      assert ([""] + rest)[1..] == rest;
      assert s == sep + s[|sep|..];
    } else {
      var rest := Split(s[1..], sep);
      JoinSplit(s[1..], sep);
      JoinHead([s[0]], rest, sep);
      assert s == [s[0]] + s[1..];
    }
  }

  /** No part of a split holds the separator. */
  lemma {:induction false} SplitPartsFree(s: string, sep: string)
    requires sep != []
    ensures forall k | 0 <= k < |Split(s, sep)| :: !Contains(Split(s, sep)[k], sep)
    decreases |s|
  {
    if |s| < |sep| {
      assert forall i | 0 <= i <= |s| :: !StartsWith(s[i..], sep);
    } else if s[..|sep|] == sep {
      SplitPartsFree(s[|sep|..], sep);
      var rest := Split(s[|sep|..], sep);
      assert forall i | 0 <= i <= 0 :: !StartsWith(""[i..], sep);
      assert forall k | 1 <= k < |Split(s, sep)| :: Split(s, sep)[k] == rest[k - 1];
    } else {
      SplitPartsFree(s[1..], sep);
      var rest := Split(s[1..], sep);
      HeadPartFree(s, sep, rest);
      assert forall k | 1 <= k < |Split(s, sep)| :: Split(s, sep)[k] == rest[k];
    }
  }

  /** The first part grown by a character that does not start a separator is still free of it. */
  lemma HeadPartFree(s: string, sep: string, rest: seq<string>)
    requires sep != [] && |s| >= |sep| && s[..|sep|] != sep
    requires rest == Split(s[1..], sep) && !Contains(rest[0], sep)
    ensures !Contains([s[0]] + rest[0], sep)
  {
    var head := [s[0]] + rest[0];
    JoinSplit(s[1..], sep);
    JoinStartsWithHead(rest, sep);
    assert StartsWith(s, head) by {
      assert s == [s[0]] + s[1..];
      assert s[1..][..|rest[0]|] == rest[0];
    }
    forall i | 0 <= i <= |head|
      ensures !StartsWith(head[i..], sep)
    {
      if i > 0 {
        assert head[i..] == rest[0][i - 1..];
      }
    }
  }

  /** A text in which the separator's first character never occurs is a single part. */
  lemma {:induction false} SplitWhole(s: string, sep: string)
    requires sep != [] && sep[0] !in s
    ensures Split(s, sep) == [s]
    decreases |s|
  {
    if |s| >= |sep| {
      assert s[..|sep|][0] == s[0];
      SplitWhole(s[1..], sep);
      assert [s[0]] + s[1..] == s;
    }
  }

  /** A separator with no earlier occurrence before it cuts exactly there. */
  lemma {:induction false} SplitAt(p: string, t: string, sep: string)
    requires sep != []
    requires forall i | 0 <= i < |p| :: !StartsWith((p + sep + t)[i..], sep)
    ensures Split(p + sep + t, sep) == [p] + Split(t, sep)
    decreases |p|
  {
    var s := p + sep + t;
    if p == [] {
      assert s == sep + t;
      assert s[..|sep|] == sep && s[|sep|..] == t;
    } else {
      assert s[0..] == s;
      assert s[1..] == p[1..] + sep + t;
      forall i | 0 <= i < |p| - 1
        ensures !StartsWith((p[1..] + sep + t)[i..], sep)
      {
        assert (p[1..] + sep + t)[i..] == s[i + 1..];
      }
      SplitAt(p[1..], t, sep);
      assert [p[0]] + p[1..] == p;
    }
  }

  /** A separator preceded by a part free of its first character cuts exactly there. */
  lemma SplitAfter(p: string, t: string, sep: string)
    requires sep != [] && sep[0] !in p
    ensures Split(p + sep + t, sep) == [p] + Split(t, sep)
  {
    forall i | 0 <= i < |p|
      ensures !StartsWith((p + sep + t)[i..], sep)
    {
      assert (p + sep + t)[i..][0] == p[i];
    }
    SplitAt(p, t, sep);
  }

  /** A text without the separator is a single part. */
  lemma {:induction false} SplitNoOccurrence(s: string, sep: string)
    requires sep != [] && !Contains(s, sep)
    ensures Split(s, sep) == [s]
    decreases |s|
  {
    if |s| >= |sep| {
      assert s[0..] == s;
      assert !Contains(s[1..], sep) by {
        forall i | 0 <= i <= |s| - 1
          ensures !StartsWith(s[1..][i..], sep)
        {
          assert s[1..][i..] == s[i + 1..];
        }
      }
      SplitNoOccurrence(s[1..], sep);
      assert [s[0]] + s[1..] == s;
    }
  }

  /** Joining parts free of a one-character separator and splitting again gives the parts back. */
  lemma {:induction false} SplitJoin(parts: seq<string>, c: char)
    requires parts != []
    requires forall k | 0 <= k < |parts| :: c !in parts[k]
    ensures Split(Join(parts, [c]), [c]) == parts
    decreases |parts|
  {
    if |parts| == 1 {
      SplitWhole(parts[0], [c]);
    } else {
      SplitJoin(parts[1..], c);
      SplitAfter(parts[0], Join(parts[1..], [c]), [c]);
      assert [parts[0]] + parts[1..] == parts;
    }
  }

  // ---------------------------------------------------------------------------
  // trimmingCharacters(in:)

  /** The character sets the tool trims with. */
  datatype CharClass = Whitespaces | Newlines | WhitespacesAndNewlines

  /** `CharacterSet.whitespaces`: tab and the Unicode space separators. */
  predicate IsBlank(c: char) {
    c == ' ' || c == '\t' || c == '\U{00A0}' || c == '\U{1680}'
    || ('\U{2000}' <= c <= '\U{200A}') || c == '\U{202F}' || c == '\U{205F}' || c == '\U{3000}'
  }

  /** `CharacterSet.newlines`. */
  predicate IsNewline(c: char) {
    c == '\n' || c == '\r' || c == '\U{000B}' || c == '\U{000C}' || c == '\U{0085}'
    || c == '\U{2028}' || c == '\U{2029}'
  }

  predicate InClass(c: char, k: CharClass) {
    match k
    case Whitespaces => IsBlank(c)
    case Newlines => IsNewline(c)
    case WhitespacesAndNewlines => IsBlank(c) || IsNewline(c)
  }

  /** Drops the longest leading run of characters of class `k`. */
  function TrimStart(s: string, k: CharClass): (r: string)
    ensures |r| <= |s| && r == s[|s| - |r|..]
    ensures forall i | 0 <= i < |s| - |r| :: InClass(s[i], k)
    ensures r == [] || !InClass(r[0], k)
    decreases |s|
  {
    if s != [] && InClass(s[0], k) then TrimStart(s[1..], k) else s
  }

  /** Drops the longest trailing run of characters of class `k`. */
  function TrimEnd(s: string, k: CharClass): (r: string)
    ensures |r| <= |s| && r == s[..|r|]
    ensures forall i | |r| <= i < |s| :: InClass(s[i], k)
    ensures r == [] || !InClass(r[|r| - 1], k)
    decreases |s|
  {
    if s != [] && InClass(s[|s| - 1], k) then TrimEnd(s[..|s| - 1], k) else s
  }

  /** `trimmingCharacters(in:)`: the middle of `s` left once both ends are stripped of class `k`. */
  function Trim(s: string, k: CharClass): (r: string)
    ensures |r| <= |s|
    ensures |r| <= |TrimStart(s, k)| && r == s[|s| - |TrimStart(s, k)|..][..|r|]
    ensures r == [] || (!InClass(r[0], k) && !InClass(r[|r| - 1], k))
    ensures (s == [] || (!InClass(s[0], k) && !InClass(s[|s| - 1], k))) ==> r == s
    ensures r == [] <==> forall i | 0 <= i < |s| :: InClass(s[i], k)
  {
    var t := TrimStart(s, k);
    var r := TrimEnd(t, k);
    TrimEndKeepsHead(t, k);
    TrimStartAllInClass(s, k);
    assert r != [] ==> r[0] == t[0];
    assert (s == [] || !InClass(s[0], k)) ==> t == s;
    r
  }

  lemma TrimEndKeepsHead(t: string, k: CharClass)
    requires t == [] || !InClass(t[0], k)
    ensures TrimEnd(t, k) == [] ==> t == []
  {
  }

  lemma TrimStartAllInClass(s: string, k: CharClass)
    ensures (forall i | 0 <= i < |s| :: InClass(s[i], k)) ==> TrimStart(s, k) == []
  {
    var t := TrimStart(s, k);
    if t != [] {
      assert t[0] == s[|s| - |t|];
    }
  }

  /** Trimming twice is trimming once. */
  lemma TrimIdempotent(s: string, k: CharClass)
    ensures Trim(Trim(s, k), k) == Trim(s, k)
  {
  }

  /** A slice of the right operand is a slice of the concatenation. */
  lemma SliceOfRight(pre: string, t: string, r: string, b: nat) returns (i: nat, j: nat)
    requires b + |r| <= |t| && r == t[b..b + |r|]
    ensures i <= j <= |pre + t| && r == (pre + t)[i..j]
  {
    i, j := |pre| + b, |pre| + b + |r|;
    assert (pre + t)[i..j] == t[b..b + |r|];
  }

  /** The trimmed text is one slice of the text. */
  lemma TrimIsSlice(s: string, k: CharClass) returns (b: nat)
    ensures b + |Trim(s, k)| <= |s| && Trim(s, k) == s[b..b + |Trim(s, k)|]
  {
    var r := Trim(s, k);
    b := |s| - |TrimStart(s, k)|;
    assert r == s[b..][..|r|];
    assert s[b..][..|r|] == s[b..b + |r|];
  }

  /** Characters of class `k` around a text whose ends are outside it are exactly what trimming drops. */
  lemma TrimPadding(lead: string, s: string, trail: string, k: CharClass)
    requires s != [] && !InClass(s[0], k) && !InClass(s[|s| - 1], k)
    requires forall i | 0 <= i < |lead| :: InClass(lead[i], k)
    requires forall i | 0 <= i < |trail| :: InClass(trail[i], k)
    ensures Trim(lead + s + trail, k) == s
  {
    TrimStartLead(lead, s + trail, k);
    assert lead + s + trail == lead + (s + trail);
    TrimEndTrail(s, trail, k);
  }

  lemma {:induction false} TrimStartLead(lead: string, u: string, k: CharClass)
    requires u != [] && !InClass(u[0], k)
    requires forall i | 0 <= i < |lead| :: InClass(lead[i], k)
    ensures TrimStart(lead + u, k) == u
    decreases |lead|
  {
    if lead != [] {
      assert (lead + u)[1..] == lead[1..] + u;
      TrimStartLead(lead[1..], u, k);
    }
  }

  lemma {:induction false} TrimEndTrail(u: string, trail: string, k: CharClass)
    requires u != [] && !InClass(u[|u| - 1], k)
    requires forall i | 0 <= i < |trail| :: InClass(trail[i], k)
    ensures TrimEnd(u + trail, k) == u
    decreases |trail|
  {
    if trail == [] {
      assert u + trail == u;
    } else {
      var t := trail[..|trail| - 1];
      assert (u + trail)[..|u + trail| - 1] == u + t;
      TrimEndTrail(u, t, k);
    }
  }

  // ---------------------------------------------------------------------------
  // Integers as text: `Int(_:)` and `"\(n)"`

  /** Swift's `Int` is 64 bits wide; `Int(_:)` rejects text outside this range. */
  const MinInt: int := -0x8000_0000_0000_0000
  const MaxInt: int := 0x7FFF_FFFF_FFFF_FFFF

  predicate IsDigit(c: char) {
    '0' <= c <= '9'
  }

  predicate AllDigits(s: string) {
    forall i | 0 <= i < |s| :: IsDigit(s[i])
  }

  function DigitChar(d: nat): (c: char)
    requires d < 10
    ensures IsDigit(c)
  {
    (('0' as int) + d) as char
  }

  function DigitsValue(ds: string): nat
    requires AllDigits(ds)
    decreases |ds|
  {
    if ds == [] then 0
    else 10 * DigitsValue(ds[..|ds| - 1]) + ((ds[|ds| - 1] as int) - ('0' as int))
  }

  /** Decimal digits of `n`, most significant first, with no leading zero. */
  function NatToString(n: nat): (r: string)
    ensures r != [] && AllDigits(r)
    decreases n
  {
    if n < 10 then [DigitChar(n)] else NatToString(n / 10) + [DigitChar(n % 10)]
  }

  /** `"\(n)"` for an `Int`. */
  function IntToString(n: int): (r: string)
    ensures r != [] && forall i | 0 <= i < |r| :: r[i] == '-' || IsDigit(r[i])
  {
    if n < 0 then "-" + NatToString(-n) else NatToString(n)
  }

  function InRange(v: int): Option<int> {
    if MinInt <= v <= MaxInt then Some(v) else None
  }

  /** `Int(_:)`: an optional sign followed by at least one decimal digit, within 64 bits. */
  function ParseInt(s: string): (r: Option<int>)
    ensures r.Some? ==> MinInt <= r.value <= MaxInt
  {
    if s == [] then None
    else if s[0] == '-' || s[0] == '+' then
      if |s| > 1 && AllDigits(s[1..]) then
        var v: int := DigitsValue(s[1..]);
        InRange(if s[0] == '-' then -v else v)
      else None
    else if AllDigits(s) then InRange(DigitsValue(s))
    else None
  }

  lemma {:induction false} NatToStringValue(n: nat)
    ensures DigitsValue(NatToString(n)) == n
    decreases n
  {
    if n >= 10 {
      NatToStringValue(n / 10);
      var ds := NatToString(n);
      assert ds[..|ds| - 1] == NatToString(n / 10);
    }
  }

  /** Printing an `Int` and parsing it back gives the same number. */
  lemma ParseIntToString(n: int)
    requires MinInt <= n <= MaxInt
    ensures ParseInt(IntToString(n)) == Some(n)
  {
    NatToStringValue(if n < 0 then -n else n);
    if n < 0 {
      assert IntToString(n)[1..] == NatToString(-n);
    }
  }
}
