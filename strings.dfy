/**
 * Stand-ins for the Go library calls the core uses on strings:
 * `strings.HasPrefix/HasSuffix/TrimPrefix/TrimSuffix/ReplaceAll`,
 * `net.SplitHostPort`, `strconv.Atoi`, `%d` formatting and Go's
 * ordering of strings.
 */
module Strings {
  import opened Wrappers

  const MinInt64: int := -0x8000_0000_0000_0000
  const MaxInt64: int := 0x7fff_ffff_ffff_ffff

  /** Go's `int` on a 64-bit platform. */
  predicate InInt64(n: int) {
    MinInt64 <= n <= MaxInt64
  }

  predicate HasPrefix(s: string, prefix: string) {
    |prefix| <= |s| && s[..|prefix|] == prefix
  }

  predicate HasSuffix(s: string, suffix: string) {
    |suffix| <= |s| && s[|s| - |suffix|..] == suffix
  }

  /** `piece` occurs in `text` (`strings.Contains`). */
  predicate Contains(text: string, piece: string) {
    exists i :: 0 <= i <= |text| && HasPrefix(text[i..], piece)
  }

  lemma ContainsMiddle(text: string, before: string, piece: string, after: string)
    requires text == before + piece + after
    ensures Contains(text, piece)
  {
    assert text[|before|..][..|piece|] == piece;
  }

  /** `strings.TrimPrefix`: drop `prefix` once if `s` starts with it. */
  function TrimPrefix(s: string, prefix: string): (r: string)
    ensures HasPrefix(s, prefix) ==> prefix + r == s
    ensures !HasPrefix(s, prefix) ==> r == s
  {
    if HasPrefix(s, prefix) then s[|prefix|..] else s
  }

  /** `strings.TrimSuffix`: drop `suffix` once if `s` ends with it. */
  function TrimSuffix(s: string, suffix: string): (r: string)
    ensures HasSuffix(s, suffix) ==> r + suffix == s
    ensures !HasSuffix(s, suffix) ==> r == s
  {
    if HasSuffix(s, suffix) then s[..|s| - |suffix|] else s
  }

  lemma TrimSuffixOfAppend(s: string, suffix: string)
    ensures HasSuffix(s + suffix, suffix)
    ensures TrimSuffix(s + suffix, suffix) == s
  {
    assert (s + suffix)[|s + suffix| - |suffix|..] == suffix;
    assert (s + suffix)[..|s|] == s;
  }

  /** `strings.ReplaceAll` with one-character old and new strings. */
  function ReplaceAll(s: string, from: char, to: char): (r: string)
    ensures |r| == |s|
    ensures forall i :: 0 <= i < |s| ==> r[i] == (if s[i] == from then to else s[i])
  {
    if s == [] then []
    else [if s[0] == from then to else s[0]] + ReplaceAll(s[1..], from, to)
  }

  /** Replacing `from` by `to` and back again is the identity when `to` did not occur. */
  lemma ReplaceAllInverse(s: string, from: char, to: char)
    requires to !in s
    ensures ReplaceAll(ReplaceAll(s, from, to), to, from) == s
  {
    var r := ReplaceAll(ReplaceAll(s, from, to), to, from);
    assert |r| == |s|;
    forall i | 0 <= i < |s| ensures r[i] == s[i] {
      assert s[i] != to;
    }
  }

  /** Index of the first `c` in `s`, or -1 (`strings.IndexByte`). */
  function IndexOf(s: string, c: char): (i: int)
    ensures -1 <= i < |s|
    ensures 0 <= i ==> s[i] == c && c !in s[..i]
    ensures i < 0 <==> c !in s
  {
    if s == [] then -1
    else if s[0] == c then 0
    else
      var k := IndexOf(s[1..], c);
      if k < 0 then
        assert s == [s[0]] + s[1..];
        -1
      else
        assert s[..k + 1] == [s[0]] + s[1..][..k];
        k + 1
  }

  /** Index of the last `c` in `s`, or -1 (`strings.LastIndexByte`). */
  function LastIndexOf(s: string, c: char): (i: int)
    ensures -1 <= i < |s|
    ensures 0 <= i ==> s[i] == c && c !in s[i + 1..]
    ensures i < 0 <==> c !in s
  {
    if s == [] then -1
    else if s[|s| - 1] == c then |s| - 1
    else
      var k := LastIndexOf(s[..|s| - 1], c);
      assert k >= 0 ==> s[k + 1..] == s[..|s| - 1][k + 1..] + [s[|s| - 1]];
      assert c !in s[..|s| - 1] ==> s == s[..|s| - 1] + [s[|s| - 1]];
      k
  }

  /**
   * `net.SplitHostPort`: the port starts after the last ':'. A host in
   * brackets ("[::1]:80") may hold colons; otherwise a second colon,
   * a missing colon or a stray bracket is an error.
   */
  function SplitHostPort(hostport: string): (r: Option<(string, string)>)
    ensures ':' !in hostport ==> r.None?
    ensures r.Some? ==> ':' !in r.value.1 && ']' !in r.value.1 && '[' !in r.value.1
    ensures r.Some? && hostport[0] != '[' ==> hostport == r.value.0 + ":" + r.value.1 && ':' !in r.value.0
    ensures r.Some? && hostport[0] == '[' ==> hostport == "[" + r.value.0 + "]:" + r.value.1
  {
    var i := LastIndexOf(hostport, ':');
    if i < 0 then None
    else if hostport[0] == '[' then
      var end := IndexOf(hostport, ']');
      if end < 0 || end + 1 != i then None
      else if '[' in hostport[1..] || ']' in hostport[end + 1..] then None
      else
        assert hostport == [hostport[0]] + hostport[1..end] + [hostport[end]] + [hostport[i]] + hostport[i + 1..];
        Some((hostport[1..end], hostport[i + 1..]))
    else
      var host := hostport[..i];
      if ':' in host || '[' in hostport || ']' in hostport then None
      else
        assert hostport == host + [hostport[i]] + hostport[i + 1..];
        assert forall k :: i + 1 <= k < |hostport| ==> hostport[k] in hostport[i + 1..] by {
          forall k | i + 1 <= k < |hostport| ensures hostport[k] in hostport[i + 1..] {
            assert hostport[i + 1..][k - i - 1] == hostport[k];
          }
        }
        Some((host, hostport[i + 1..]))
  }

  /** Joining a colon-free, bracket-free host and port with ':' splits back into the two. */
  lemma SplitHostPortJoin(host: string, port: string)
    requires ':' !in host && '[' !in host && ']' !in host
    requires ':' !in port && '[' !in port && ']' !in port
    ensures SplitHostPort(host + ":" + port) == Some((host, port))
  {
    var hp := host + ":" + port;
    assert hp[|host|] == ':';
    assert hp[|host| + 1..] == port;
    assert hp[..|host|] == host;
    assert LastIndexOf(hp, ':') == |host|;
    assert '[' !in hp && ']' !in hp by {
      forall k | 0 <= k < |hp| ensures hp[k] != '[' && hp[k] != ']' {
        if k < |host| { assert hp[k] == host[k]; }
        else if k > |host| { assert hp[k] == port[k - |host| - 1]; }
      }
    }
    if |host| > 0 { assert hp[0] == host[0]; }
  }

  predicate IsDigit(c: char) {
    '0' <= c <= '9'
  }

  predicate AllDigits(s: string) {
    forall i :: 0 <= i < |s| ==> IsDigit(s[i])
  }

  /** The value of a string of decimal digits. */
  function DigitsValue(s: string): (n: nat)
    requires AllDigits(s)
  {
    if s == [] then 0
    else 10 * DigitsValue(s[..|s| - 1]) + (s[|s| - 1] as int - '0' as int)
  }

  /** Go's `%d` for a non-negative number. */
  function FormatNat(n: nat): (s: string)
    ensures |s| > 0 && AllDigits(s)
    ensures DigitsValue(s) == n
  {
    var last := ('0' as int + n % 10) as char;
    if n < 10 then
      assert DigitsValue([last]) == 10 * DigitsValue([]) + n;
      [last]
    else
      var prefix := FormatNat(n / 10);
      var s := prefix + [last];
      assert s[..|s| - 1] == prefix;
      s
  }

  /** Go's `%d`. */
  function FormatInt(n: int): (s: string)
    ensures |s| > 0 && ':' !in s && '[' !in s && ']' !in s
    ensures s[0] == '-' || IsDigit(s[0])
  {
    if n < 0 then "-" + FormatNat(-n) else FormatNat(n)
  }

  /** The integer a sign and the digits after it denote, if in the range of Go's `int`. */
  function SignedValue(negative: bool, digits: string): Option<int>
  {
    if digits == [] || !AllDigits(digits) then None
    else
      var d: int := DigitsValue(digits);
      var v := if negative then -d else d;
      if InInt64(v) then Some(v) else None
  }

  /**
   * `strconv.Atoi` on a 64-bit platform: an optional '+' or '-', then one or
   * more decimal digits, denoting a value in the range of Go's `int`.
   */
  function Atoi(s: string): (r: Option<int>)
    ensures r.Some? ==> InInt64(r.value)
    ensures r.Some? ==> |s| > 0 && (IsDigit(s[0]) || s[0] == '+' || s[0] == '-')
  {
    if |s| > 0 && (s[0] == '+' || s[0] == '-') then SignedValue(s[0] == '-', s[1..])
    else SignedValue(false, s)
  }

  /** `%d` and `Atoi` are inverse on Go's `int`. */
  lemma AtoiFormatInt(n: int)
    requires InInt64(n)
    ensures Atoi(FormatInt(n)) == Some(n)
  {
    if n < 0 {
      var digits := FormatNat(-n);
      assert ("-" + digits)[1..] == digits;
    } else {
      var digits := FormatNat(n);
      assert IsDigit(digits[0]);
    }
  }

  /** Go's `<` on strings: lexicographic by character. */
  predicate Less(a: string, b: string) {
    if a == [] then b != []
    else if b == [] then false
    else a[0] < b[0] || (a[0] == b[0] && Less(a[1..], b[1..]))
  }

  lemma {:induction false} LessIrreflexive(a: string)
    ensures !Less(a, a)
  {
    if a != [] {
      LessIrreflexive(a[1..]);
    }
  }

  lemma {:induction false} LessTransitive(a: string, b: string, c: string)
    requires Less(a, b) && Less(b, c)
    ensures Less(a, c)
  {
    if a != [] && b != [] && c != [] && a[0] == b[0] == c[0] {
      LessTransitive(a[1..], b[1..], c[1..]);
    }
  }

  lemma {:induction false} LessTotal(a: string, b: string)
    ensures a == b || Less(a, b) || Less(b, a)
  {
    if a != [] && b != [] && a[0] == b[0] {
      LessTotal(a[1..], b[1..]);
      if a[1..] == b[1..] {
        assert a == [a[0]] + a[1..] && b == [b[0]] + b[1..];
      }
    }
  }

  /** "Not after": the order `sort.Slice` leaves adjacent names in. */
  predicate NotAfter(a: string, b: string) {
    !Less(b, a)
  }

  lemma NotAfterTransitive(a: string, b: string, c: string)
    requires NotAfter(a, b) && NotAfter(b, c)
    ensures NotAfter(a, c)
  {
    if Less(c, a) {
      LessTotal(a, b);
      if a == b {
      } else {
        LessTransitive(c, a, b);
      }
    }
  }

  lemma NotAfterFromLess(a: string, b: string)
    requires Less(a, b)
    ensures NotAfter(a, b)
  {
    if Less(b, a) {
      LessTransitive(a, b, a);
      LessIrreflexive(a);
    }
  }
}
