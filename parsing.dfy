/**
 * The pure text processing of MyIP/Network.swift: the validity test and the parser for
 * public-IP responses, the regular expressions they use, the per-service extractors of
 * the proxy-bypassing direct-IP probe, the acceptance test of the DNS answer, the
 * default-route parser and the interface classifier.
 *
 * Regular expressions are modelled by the match they produce. `\d`, `[0-9]` and the word
 * characters of `\b` are read as ASCII.
 */
module IPParsing {
  import opened Wrappers
  import opened Text
  import opened JsonFields

  // ---------------------------------------------------------------------------
  // Swift's Int(String) and isValidIP
  // ---------------------------------------------------------------------------

  predicate AllDigits(s: string) {
    forall k :: 0 <= k < |s| ==> IsDigit(s[k])
  }

  function DigitValue(c: char): nat
    requires IsDigit(c)
  {
    (c as int) - ('0' as int)
  }

  function DigitChar(d: nat): (c: char)
    requires d < 10
    ensures IsDigit(c) && DigitValue(c) == d
  {
    ('0' as int + d) as char
  }

  /** The value of a run of decimal digits, most significant first (leading zeros add nothing). */
  function DecimalValue(ds: string): nat
    requires AllDigits(ds)
  {
    if ds == [] then 0 else 10 * DecimalValue(ds[..|ds| - 1]) + DigitValue(ds[|ds| - 1])
  }

  /**
   * Swift's `Int(String)`: an optional `+` or `-` followed by at least one ASCII digit,
   * nothing else (no blanks). Values beyond 64 bits make Swift answer nil; every caller
   * here rejects them by its 0...255 range check anyway, so they are kept as integers.
   */
  function ParseInt(s: string): (r: Option<int>)
    ensures r.Some? ==> s != [] && (IsDigit(s[0]) || s[0] == '+' || s[0] == '-')
    ensures r.Some? ==> forall k :: 0 < k < |s| ==> IsDigit(s[k])
    ensures r.Some? && r.value < 0 ==> s[0] == '-'
  {
    if s != [] && (s[0] == '+' || s[0] == '-') then
      if |s| >= 2 && AllDigits(s[1..]) then
        var v: int := DecimalValue(s[1..]);
        Some(if s[0] == '-' then -v else v)
      else None
    else if s != [] && AllDigits(s) then Some(DecimalValue(s))
    else None
  }

  /** An unsigned run of digits reads as its decimal value. */
  lemma ParseDecimal(ds: string)
    requires ds != [] && AllDigits(ds)
    ensures ParseInt(ds) == Some(DecimalValue(ds))
  {
    assert IsDigit(ds[0]);
  }

  lemma DigitsHaveNoDot(ds: string)
    requires AllDigits(ds)
    ensures '.' !in ds
  {
  }

  predicate IsOctetText(p: string) {
    var n := ParseInt(p);
    n.Some? && 0 <= n.value <= 255
  }

  /**
   * `isValidIP` (Network.swift:75-83): exactly four dot-separated parts, each accepted by
   * `Int(...)` with a value in 0...255. Looser than the `dec-octet` rule of section 3.2.2 of
   * RFC 3986: leading zeros and a leading sign are accepted (see LenientOctets).
   */
  predicate IsValidIP(ip: string) {
    var parts := Split(ip, '.');
    |parts| == 4 && forall k :: 0 <= k < 4 ==> IsOctetText(parts[k])
  }

  /** Canonical decimal text of a natural number. */
  function DecimalText(n: nat): (s: string)
    ensures s != [] && AllDigits(s)
  {
    if n < 10 then [DigitChar(n)] else DecimalText(n / 10) + [DigitChar(n % 10)]
  }

  lemma {:induction false} DecimalRoundTrip(n: nat)
    ensures DecimalValue(DecimalText(n)) == n
    ensures n < 10 ==> |DecimalText(n)| == 1
    ensures 10 <= n < 100 ==> |DecimalText(n)| == 2
    ensures 100 <= n < 1000 ==> |DecimalText(n)| == 3
  {
    if n >= 10 {
      DecimalRoundTrip(n / 10);
      var s := DecimalText(n);
      assert s[..|s| - 1] == DecimalText(n / 10);
    }
  }

  /** The canonical text of an octet value is an octet text of one to three digits. */
  lemma OctetText(n: nat)
    requires n <= 255
    ensures var t := DecimalText(n);
            IsOctetText(t) && 1 <= |t| <= 3 && '.' !in t
  {
    DecimalRoundTrip(n);
    ParseDecimal(DecimalText(n));
    DigitsHaveNoDot(DecimalText(n));
  }

  /** The dotted-decimal text of four octets. */
  function DottedQuad(a: nat, b: nat, c: nat, d: nat): string {
    DecimalText(a) + "." + DecimalText(b) + "." + DecimalText(c) + "." + DecimalText(d)
  }

  /** Four dot-free parts joined by dots split back into those parts. */
  lemma SplitFour(a: string, b: string, c: string, d: string)
    requires '.' !in a && '.' !in b && '.' !in c && '.' !in d
    ensures Split(a + "." + b + "." + c + "." + d, '.') == [a, b, c, d]
  {
    JoinFour(a, b, c, d, '.');
    SplitJoin([a, b, c, d], '.');
  }

  lemma ValidFromParts(ip: string, a: string, b: string, c: string, d: string)
    requires Split(ip, '.') == [a, b, c, d]
    requires IsOctetText(a) && IsOctetText(b) && IsOctetText(c) && IsOctetText(d)
    ensures IsValidIP(ip)
  {
    var parts := [a, b, c, d];
    forall k | 0 <= k < 4 ensures IsOctetText(parts[k]) {
      if k == 0 {} else if k == 1 {} else if k == 2 {} else {}
    }
  }

  /** Every address written the usual way passes isValidIP and has the dotted shape. */
  lemma FormattedAddressIsValid(a: nat, b: nat, c: nat, d: nat)
    requires a <= 255 && b <= 255 && c <= 255 && d <= 255
    ensures IsValidIP(DottedQuad(a, b, c, d))
    ensures IsDottedShape(DottedQuad(a, b, c, d))
  {
    var parts := [DecimalText(a), DecimalText(b), DecimalText(c), DecimalText(d)];
    OctetText(a);
    OctetText(b);
    OctetText(c);
    OctetText(d);
    SplitFour(parts[0], parts[1], parts[2], parts[3]);
    ValidFromParts(DottedQuad(a, b, c, d), parts[0], parts[1], parts[2], parts[3]);
    forall k | 0 <= k < 4 ensures 1 <= |parts[k]| <= 3 && AllDigits(parts[k]) {
      if k == 0 {} else if k == 1 {} else if k == 2 {} else {}
    }
  }

  /** The value of a run of one to three digits, written out. */
  lemma ShortDecimal(s: string)
    requires 1 <= |s| <= 3 && forall k :: 0 <= k < |s| ==> IsDigit(s[k])
    ensures AllDigits(s)
    ensures |s| == 1 ==> DecimalValue(s) == DigitValue(s[0])
    ensures |s| == 2 ==> DecimalValue(s) == 10 * DigitValue(s[0]) + DigitValue(s[1])
    ensures |s| == 3 ==> DecimalValue(s) == 100 * DigitValue(s[0]) + 10 * DigitValue(s[1]) + DigitValue(s[2])
  {
    if |s| >= 2 {
      assert s[..|s| - 1][..|s| - 2] == s[..|s| - 2];
      if |s| == 3 {
        assert s[..2][..1] == [s[0]];
      }
    }
  }

  lemma SignedOne()
    ensures ParseInt("+1") == Some(1)
  {
    var t := "+1";
    assert t[1..] == "1";
    ShortDecimal(t[1..]);
  }

  lemma NegativeZero()
    ensures ParseInt("-0") == Some(0)
  {
    var t := "-0";
    assert t[1..] == "0";
    ShortDecimal(t[1..]);
  }

  lemma PaddedZero()
    ensures ParseInt("00") == Some(0)
  {
    var t := "00";
    assert t[0] == '0' && t[1] == '0';
    ShortDecimal(t);
  }

  lemma ReadsThreeDigits(t: string, v: int)
    requires |t| == 3 && IsDigit(t[0]) && IsDigit(t[1]) && IsDigit(t[2])
    requires v == 100 * DigitValue(t[0]) + 10 * DigitValue(t[1]) + DigitValue(t[2])
    ensures ParseInt(t) == Some(v)
  {
    ShortDecimal(t);
  }

  /** The leading-sign and leading-zero readings of Swift's Int(...) make this text valid. */
  lemma LenientOctets()
    ensures IsValidIP("+1.-0.00.255")
  {
    SplitFour("+1", "-0", "00", "255");
    assert "+1" + "." + "-0" + "." + "00" + "." + "255" == "+1.-0.00.255";
    SignedOne();
    NegativeZero();
    PaddedZero();
    var t := "255";
    ReadsThreeDigits(t, 255);
    ValidFromParts("+1.-0.00.255", "+1", "-0", "00", "255");
  }

  /** A part that reads as a number above 255 makes the text invalid, whatever the other parts are. */
  lemma OctetOutOfRange(ip: string, k: int)
    requires 0 <= k < |Split(ip, '.')|
    requires ParseInt(Split(ip, '.')[k]).Some? && ParseInt(Split(ip, '.')[k]).value > 255
    ensures !IsValidIP(ip)
  {
  }

  /** "256.1.1.1" is four well-formed numbers, the first of which is one above the octet range. */
  lemma OctetOutOfRangeExample()
    ensures |Split("256.1.1.1", '.')| == 4 && ParseInt(Split("256.1.1.1", '.')[0]) == Some(256)
    ensures !IsValidIP("256.1.1.1")
  {
    SplitFour("256", "1", "1", "1");
    assert "256" + "." + "1" + "." + "1" + "." + "1" == "256.1.1.1";
    var t := "256";
    ReadsThreeDigits(t, 256);
    OctetOutOfRange("256.1.1.1", 0);
  }

  lemma OctetCharacters(p: string)
    requires ParseInt(p).Some?
    ensures forall c :: c in p ==> IsDigit(c) || c == '+' || c == '-'
  {
    forall c | c in p ensures IsDigit(c) || c == '+' || c == '-' {
      var k :| 0 <= k < |p| && p[k] == c;
      if k > 0 && (p[0] == '+' || p[0] == '-') {
        assert p[1..][k - 1] == c;
      }
    }
  }

  /** The characters a valid address can contain: digits, signs and dots, so no blanks. */
  lemma ValidIPCharacters(ip: string)
    requires IsValidIP(ip)
    ensures ip != []
    ensures forall k :: 0 <= k < |ip| ==> IsDigit(ip[k]) || ip[k] == '+' || ip[k] == '-' || ip[k] == '.'
  {
    var parts := Split(ip, '.');
    forall k | 0 <= k < |ip| ensures IsDigit(ip[k]) || ip[k] == '+' || ip[k] == '-' || ip[k] == '.' {
      if ip[k] != '.' {
        SplitCovers(ip, '.', k);
        var m :| 0 <= m < |parts| && ip[k] in parts[m];
        OctetCharacters(parts[m]);
      }
    }
  }

  // ---------------------------------------------------------------------------
  // The dotted-quad regular expressions
  // ---------------------------------------------------------------------------

  /**
   * Four dot-separated groups of one to three ASCII digits: exactly the texts that fully
   * match `^\d{1,3}\.\d{1,3}\.\d{1,3}\.\d{1,3}$`. The octet range is not checked.
   */
  predicate IsDottedShape(t: string) {
    var parts := Split(t, '.');
    |parts| == 4 && forall k :: 0 <= k < 4 ==> 1 <= |parts[k]| <= 3 && AllDigits(parts[k])
  }

  /** Length of the run of digits starting at `i`. */
  function DigitRun(s: string, i: nat): (n: nat)
    requires i <= |s|
    ensures i + n <= |s|
    ensures forall k :: i <= k < i + n ==> IsDigit(s[k])
    ensures i + n == |s| || !IsDigit(s[i + n])
    decreases |s| - i
  {
    if i < |s| && IsDigit(s[i]) then 1 + DigitRun(s, i + 1) else 0
  }

  /** The group `\d{1,3}\.` at `i`: the position after its dot. */
  function GroupDot(s: string, i: nat): (r: Option<nat>)
    requires i <= |s|
    ensures r.Some? ==> i + 2 <= r.value <= i + 4 && r.value <= |s| && s[r.value - 1] == '.'
    ensures r.Some? ==> forall k :: i <= k < r.value - 1 ==> IsDigit(s[k])
  {
    var n := DigitRun(s, i);
    if 1 <= n <= 3 && i + n < |s| && s[i + n] == '.' then Some(i + n + 1) else None
  }

  /**
   * Where a match starting at `i` ends. With `bounded`, of the pattern
   * `\b(?:[0-9]{1,3}\.){3}[0-9]{1,3}\b` used by parseIP; otherwise of
   * `\d{1,3}\.\d{1,3}\.\d{1,3}\.\d{1,3}` used for myip.ipip.net, whose last group
   * greedily takes up to three digits.
   */
  function MatchEnd(s: string, i: nat, bounded: bool): (r: Option<nat>)
    requires i <= |s|
    ensures r.Some? ==> i < r.value <= |s|
  {
    if bounded && i > 0 && IsWordChar(s[i - 1]) then None
    else
      match GroupDot(s, i)
      case None => None
      case Some(p1) =>
        match GroupDot(s, p1)
        case None => None
        case Some(p2) =>
          match GroupDot(s, p2)
          case None => None
          case Some(p3) =>
            var n := DigitRun(s, p3);
            if bounded then
              if 1 <= n <= 3 && (p3 + n == |s| || !IsWordChar(s[p3 + n])) then Some(p3 + n) else None
            else if n >= 1 then Some(p3 + (if n < 3 then n else 3))
            else None
  }

  /** Where a match starting at each position ends, position by position. */
  function MatchEnds(s: string, bounded: bool): (ends: seq<Option<nat>>)
    ensures |ends| == |s| + 1
    ensures forall i :: 0 <= i <= |s| ==> ends[i] == MatchEnd(s, i, bounded)
  {
    seq(|s| + 1, i requires 0 <= i <= |s| => MatchEnd(s, i, bounded))
  }

  /** The first position from `i` on that holds an end, with that end. */
  function FirstEnd(ends: seq<Option<nat>>, i: nat): (r: Option<(nat, nat)>)
    requires i <= |ends|
    ensures r.Some? ==> i <= r.value.0 < |ends| && ends[r.value.0] == Some(r.value.1)
    ensures r.Some? ==> forall k :: i <= k < r.value.0 ==> ends[k].None?
    ensures r.None? ==> forall k :: i <= k < |ends| ==> ends[k].None?
    decreases |ends| - i
  {
    if i == |ends| then None
    else match ends[i]
      case Some(j) => Some((i, j))
      case None => FirstEnd(ends, i + 1)
  }

  /** `firstMatch`: the leftmost start at or after `i` where the pattern matches, with the match's end. */
  function FirstMatchFrom(s: string, i: nat, bounded: bool): (r: Option<(nat, nat)>)
    requires i <= |s|
    ensures r.Some? ==> i <= r.value.0 <= |s| && MatchEnd(s, r.value.0, bounded) == Some(r.value.1)
    ensures r.Some? ==> forall k :: i <= k < r.value.0 ==> MatchEnd(s, k, bounded).None?
    ensures r.None? ==> forall k :: i <= k <= |s| ==> MatchEnd(s, k, bounded).None?
  {
    var ends := MatchEnds(s, bounded);
    var r := FirstEnd(ends, i);
    assert r.Some? ==> ends[r.value.0] == MatchEnd(s, r.value.0, bounded);
    r
  }

  /** The positions `a` to `b` of `s` hold digits. */
  predicate DigitsIn(s: string, a: int, b: int)
    requires 0 <= a <= b <= |s|
  {
    forall k :: a <= k < b ==> IsDigit(s[k])
  }
  /** Four digit groups separated by dots, laid out in `s`, form a dotted-shape slice. */
  lemma GroupsToShape(s: string, i: nat, p1: nat, p2: nat, p3: nat, j: nat)
    requires i + 2 <= p1 <= i + 4 && p1 + 2 <= p2 <= p1 + 4 && p2 + 2 <= p3 <= p2 + 4 && p3 + 1 <= j <= p3 + 3 && j <= |s|
    requires s[p1 - 1] == '.' && s[p2 - 1] == '.' && s[p3 - 1] == '.'
    requires DigitsIn(s, i, p1 - 1) && DigitsIn(s, p1, p2 - 1) && DigitsIn(s, p2, p3 - 1) && DigitsIn(s, p3, j)
    ensures IsDottedShape(s[i..j])
  {
    var g0, g1, g2, g3 := s[i..p1 - 1], s[p1..p2 - 1], s[p2..p3 - 1], s[p3..j];
    assert AllDigits(g0) && AllDigits(g1) && AllDigits(g2) && AllDigits(g3);
    DigitsHaveNoDot(g0);
    DigitsHaveNoDot(g1);
    DigitsHaveNoDot(g2);
    DigitsHaveNoDot(g3);
    var groups := [g0, g1, g2, g3];
    assert s[i..j] == g0 + ['.'] + g1 + ['.'] + g2 + ['.'] + g3;
    JoinFour(g0, g1, g2, g3, '.');
    SplitJoin(groups, '.');
    forall k | 0 <= k < 4 ensures 1 <= |groups[k]| <= 3 && AllDigits(groups[k]) {
      if k == 0 {} else if k == 1 {} else if k == 2 {} else {}
    }
  }

  /** Every match of either pattern is a dotted-shape slice. */
  lemma {:induction false} MatchIsDotted(s: string, i: nat, bounded: bool)
    requires i <= |s| && MatchEnd(s, i, bounded).Some?
    ensures IsDottedShape(s[i..MatchEnd(s, i, bounded).value])
  {
    var p1 := GroupDot(s, i).value;
    var p2 := GroupDot(s, p1).value;
    var p3 := GroupDot(s, p2).value;
    var j := MatchEnd(s, i, bounded).value;
    assert DigitRun(s, p3) >= j - p3;
    GroupsToShape(s, i, p1, p2, p3, j);
  }

  /** Where the four groups and three dots of a dotted-shape text lie. */
  lemma {:induction false} DottedLayout(t: string)
    requires |Split(t, '.')| == 4
    ensures var g := Split(t, '.');
            var q1 := |g[0]|;
            var q2 := q1 + 1 + |g[1]|;
            var q3 := q2 + 1 + |g[2]|;
            && q3 + 1 + |g[3]| == |t|
            && t[q1] == '.' && t[q2] == '.' && t[q3] == '.'
            && t[..q1] == g[0] && t[q1 + 1..q2] == g[1] && t[q2 + 1..q3] == g[2] && t[q3 + 1..] == g[3]
  {
    JoinSplit(t, '.');
    JoinedLayout(t, Split(t, '.'), '.');
  }

  /** Where the four parts and three separators of a text joined from four parts lie. */
  lemma {:induction false} JoinedLayout(t: string, g: seq<string>, sep: char)
    requires |g| == 4 && Join(g, sep) == t
    ensures var q1 := |g[0]|;
            var q2 := q1 + 1 + |g[1]|;
            var q3 := q2 + 1 + |g[2]|;
            && q3 + 1 + |g[3]| == |t|
            && t[q1] == sep && t[q2] == sep && t[q3] == sep
            && t[..q1] == g[0] && t[q1 + 1..q2] == g[1] && t[q2 + 1..q3] == g[2] && t[q3 + 1..] == g[3]
  {
    assert g == [g[0], g[1], g[2], g[3]];
    JoinFour(g[0], g[1], g[2], g[3], sep);
  }

  /** A dotted-shape text has only digits and dots, and starts and ends with a digit. */
  lemma {:induction false} DottedCharacters(t: string)
    requires IsDottedShape(t)
    ensures |t| >= 7 && IsDigit(t[0]) && IsDigit(t[|t| - 1])
    ensures forall k :: 0 <= k < |t| ==> IsDigit(t[k]) || t[k] == '.'
  {
    var g := Split(t, '.');
    DottedLayout(t);
    forall k | 0 <= k < |t| ensures IsDigit(t[k]) || t[k] == '.' {
      if t[k] != '.' {
        SplitCovers(t, '.', k);
        var m :| 0 <= m < |g| && t[k] in g[m];
        var x :| 0 <= x < |g[m]| && g[m][x] == t[k];
        assert IsDigit(g[m][x]);
      }
    }
    assert t[0] == g[0][0];
    var q3 := |t| - |g[3]| - 1;
    assert t[|t| - 1] == t[q3 + 1..][|g[3]| - 1];
  }

  /** A run of `n` digits followed by a non-digit (or the end) is the digit run. */
  lemma RunIs(s: string, i: nat, n: nat)
    requires i + n <= |s|
    requires forall k :: i <= k < i + n ==> IsDigit(s[k])
    requires i + n == |s| || !IsDigit(s[i + n])
    ensures DigitRun(s, i) == n
  {
  }

  lemma MatchFromGroups(s: string, i: nat, p1: nat, p2: nat, p3: nat, j: nat)
    requires i + 2 <= p1 <= i + 4 && p1 + 2 <= p2 <= p1 + 4 && p2 + 2 <= p3 <= p2 + 4 && p3 + 1 <= j <= p3 + 3 && j <= |s|
    requires s[p1 - 1] == '.' && s[p2 - 1] == '.' && s[p3 - 1] == '.'
    requires DigitsIn(s, i, p1 - 1) && DigitsIn(s, p1, p2 - 1) && DigitsIn(s, p2, p3 - 1) && DigitsIn(s, p3, j)
    requires i == 0 || !IsWordChar(s[i - 1])
    requires j == |s| || !IsWordChar(s[j])
    ensures MatchEnd(s, i, true) == Some(j)
  {
    GroupDotAt(s, i, p1);
    GroupDotAt(s, p1, p2);
    GroupDotAt(s, p2, p3);
    RunIs(s, p3, j - p3);
  }
  /** A group of digits closed by a dot at `p - 1`. */
  lemma GroupDotAt(s: string, i: nat, p: nat)
    requires i + 2 <= p <= i + 4 && p <= |s| && s[p - 1] == '.' && DigitsIn(s, i, p - 1)
    ensures GroupDot(s, i) == Some(p)
  {
    RunIs(s, i, p - 1 - i);
  }
  /** A digit-only slice `t[a..b]` makes `t` hold digits from `a` to `b`. */
  lemma {:induction false} GroupDigits(t: string, a: nat, b: nat)
    requires a <= b <= |t| && AllDigits(t[a..b])
    ensures DigitsIn(t, a, b)
  {
    forall k | a <= k < b ensures IsDigit(t[k]) {
      assert t[a..b][k - a] == t[k];
    }
  }

  /** The group lengths, dots and digits of a dotted-shape text, by position. */
  lemma {:induction false} DottedGroups(t: string)
    requires IsDottedShape(t)
    ensures var g := Split(t, '.');
            var q1 := |g[0]|;
            var q2 := q1 + 1 + |g[1]|;
            var q3 := q2 + 1 + |g[2]|;
            && 1 <= |g[0]| <= 3 && 1 <= |g[1]| <= 3 && 1 <= |g[2]| <= 3 && q3 + 2 <= |t| <= q3 + 4
            && t[q1] == '.' && t[q2] == '.' && t[q3] == '.'
            && DigitsIn(t, 0, q1) && DigitsIn(t, q1 + 1, q2) && DigitsIn(t, q2 + 1, q3) && DigitsIn(t, q3 + 1, |t|)
  {
    var g := Split(t, '.');
    DottedLayout(t);
    var q1 := |g[0]|;
    var q2 := q1 + 1 + |g[1]|;
    var q3 := q2 + 1 + |g[2]|;
    assert t[0..q1] == g[0] && t[q3 + 1..|t|] == g[3];
    assert AllDigits(g[0]) && AllDigits(g[1]) && AllDigits(g[2]) && AllDigits(g[3]);
    GroupDigits(t, 0, q1);
    GroupDigits(t, q1 + 1, q2);
    GroupDigits(t, q2 + 1, q3);
    GroupDigits(t, q3 + 1, |t|);
  }

  /** Digits of the slice `s[i..j]` are digits of `s`, shifted by `i`. */
  lemma {:induction false} DigitsShift(s: string, i: nat, j: nat, a: nat, b: nat)
    requires i <= j <= |s| && a <= b <= j - i && DigitsIn(s[i..j], a, b)
    ensures DigitsIn(s, i + a, i + b)
  {
    forall k | i + a <= k < i + b ensures IsDigit(s[k]) {
      assert s[i..j][k - i] == s[k];
    }
  }

  /** Where the groups and dots of a dotted-shape slice `s[i..j]` lie within `s`. */
  lemma {:induction false} DottedGroupsIn(s: string, i: nat, j: nat)
    requires i <= j <= |s| && IsDottedShape(s[i..j])
    ensures var g := Split(s[i..j], '.');
            var q1 := i + |g[0]|;
            var q2 := q1 + 1 + |g[1]|;
            var q3 := q2 + 1 + |g[2]|;
            && 1 <= |g[0]| <= 3 && 1 <= |g[1]| <= 3 && 1 <= |g[2]| <= 3 && q3 + 2 <= j <= q3 + 4
            && s[q1] == '.' && s[q2] == '.' && s[q3] == '.'
            && DigitsIn(s, i, q1) && DigitsIn(s, q1 + 1, q2) && DigitsIn(s, q2 + 1, q3) && DigitsIn(s, q3 + 1, j)
  {
    var t := s[i..j];
    var g := Split(t, '.');
    DottedGroups(t);
    var q1 := |g[0]|;
    var q2 := q1 + 1 + |g[1]|;
    var q3 := q2 + 1 + |g[2]|;
    assert s[i + q1] == t[q1] && s[i + q2] == t[q2] && s[i + q3] == t[q3];
    DigitsShift(s, i, j, 0, q1);
    DigitsShift(s, i, j, q1 + 1, q2);
    DigitsShift(s, i, j, q2 + 1, q3);
    DigitsShift(s, i, j, q3 + 1, |t|);
  }

  /**
   * Completeness of the word-bounded pattern: a dotted-shape slice with a word boundary on
   * each side is exactly what the pattern matches at its start.
   */
  lemma {:induction false} DottedIsMatched(s: string, i: nat, j: nat)
    requires i <= j <= |s| && IsDottedShape(s[i..j])
    requires i == 0 || !IsWordChar(s[i - 1])
    requires j == |s| || !IsWordChar(s[j])
    ensures MatchEnd(s, i, true) == Some(j)
  {
    var g := Split(s[i..j], '.');
    var q1 := i + |g[0]|;
    var q2 := q1 + 1 + |g[1]|;
    var q3 := q2 + 1 + |g[2]|;
    DottedGroupsIn(s, i, j);
    MatchFromGroups(s, i, q1 + 1, q2 + 1, q3 + 1, j);
  }

  // ---------------------------------------------------------------------------
  // parseIP
  // ---------------------------------------------------------------------------

  /**
   * The Cloudflare-trace reading of parseIP (Network.swift:50-55): the first line starting
   * with `ip=`, its text after the last `=`, trimmed of spaces and tabs and not validated;
   * "" when no line starts with `ip=`.
   */
  function TraceLineValue(message: string): (r: string)
    ensures FirstWithPrefix(Split(message, '\n'), "ip=").None? ==> r == ""
    ensures '=' !in r && '\n' !in r
    ensures r == [] || (!IsSpace(r[0]) && !IsSpace(r[|r| - 1]))
  {
    var lines := Split(message, '\n');
    match FirstWithPrefix(lines, "ip=")
    case Some(k) => TrimmedTail(lines[k]); Trim(LastComponent(lines[k], "="), false)
    case None => ""
  }

  /**
   * The regular-expression reading of parseIP (Network.swift:56-70): the first match of
   * `\b(?:[0-9]{1,3}\.){3}[0-9]{1,3}\b`, octet range unchecked; "" if there is none.
   */
  function FirstDottedMatch(message: string): (r: string)
    ensures r != "" ==> IsDottedShape(r)
  {
    match FirstMatchFrom(message, 0, true)
    case Some((i, j)) => MatchIsDotted(message, i, true); message[i..j]
    case None => ""
  }

  /** The first and the third reading, when they apply, are one line with no blank at either end. */
  lemma {:induction false} ReadingsAreOneWord(message: string)
    ensures var t := Trim(message, true);
            IsValidIP(t) ==> t != [] && '\n' !in t && !IsSpace(t[0]) && !IsSpace(t[|t| - 1])
    ensures var m := FirstDottedMatch(message);
            m != [] ==> '\n' !in m && !IsSpace(m[0]) && !IsSpace(m[|m| - 1])
  {
    var t := Trim(message, true);
    if IsValidIP(t) {
      ValidIsOneWord(t);
    }
    var m := FirstDottedMatch(message);
    if m != [] {
      DottedIsOneWord(m);
    }
  }

  /** A valid address is one line with no blank at either end. */
  lemma {:induction false} ValidIsOneWord(ip: string)
    requires IsValidIP(ip)
    ensures ip != [] && '\n' !in ip && !IsSpace(ip[0]) && !IsSpace(ip[|ip| - 1])
  {
    ValidIPCharacters(ip);
    assert IsDigit(ip[0]) || ip[0] == '+' || ip[0] == '-' || ip[0] == '.';
  }

  /** A dotted-shape text is one line with no blank at either end. */
  lemma {:induction false} DottedIsOneWord(t: string)
    requires IsDottedShape(t)
    ensures t != [] && '\n' !in t && !IsSpace(t[0]) && !IsSpace(t[|t| - 1])
  {
    DottedCharacters(t);
  }

  /**
   * `parseIP` (Network.swift:41-73). Three readings, the first applicable wins: the whole
   * body trimmed of blanks and newlines when that passes isValidIP; the trace line when the
   * body contains `ip=` anywhere (the regular expression is then not tried); the first
   * dotted match.
   */
  function ParseIP(message: string): (r: string)
    ensures '\n' !in r
    ensures r == [] || (!IsSpace(r[0]) && !IsSpace(r[|r| - 1]))
  {
    ReadingsAreOneWord(message);
    var trimmed := Trim(message, true);
    if IsValidIP(trimmed) then trimmed
    else if Contains(message, "ip=") then TraceLineValue(message)
    else FirstDottedMatch(message)
  }

  /** Reading 1: a valid address with any blank padding parses to itself. */
  lemma ParsePaddedAddress(pre: string, ip: string, post: string)
    requires IsValidIP(ip) && AllBlank(pre, true) && AllBlank(post, true)
    ensures ParseIP(pre + ip + post) == ip
  {
    ValidIPCharacters(ip);
    TrimPadded(pre, ip, post, true);
  }

  /** The trimmed text after the last `=` of a line holds no `=` and only characters of the line. */
  lemma {:induction false} TrimmedTail(line: string)
    ensures var r := Trim(LastComponent(line, "="), false);
            && '=' !in r && ('\n' !in line ==> '\n' !in r) && (forall c :: c in r ==> c in line)
            && (r == [] || (!IsSpace(r[0]) && !IsSpace(r[|r| - 1])))
  {
    var tail := LastComponent(line, "=");
    TrimKeeps(tail, false);
    if '=' in tail {
      CharContained(tail, '=');
    }
    forall c | c in tail ensures c in line {
      var m :| 0 <= m < |tail| && tail[m] == c;
      assert line[|line| - |tail| + m] == c;
    }
  }

  /** Reading 2 applies exactly when the trimmed body is not a valid address and `ip=` occurs. */
  lemma ParseTraceLine(message: string)
    requires !IsValidIP(Trim(message, true)) && Contains(message, "ip=")
    ensures ParseIP(message) == TraceLineValue(message)
    ensures var r := ParseIP(message);
            && (FirstWithPrefix(Split(message, '\n'), "ip=").None? ==> r == "")
            && '=' !in r && '\n' !in r
            && (r == [] || (!IsSpace(r[0]) && !IsSpace(r[|r| - 1])))
  {
  }

  /** In the line `ip=v`, with no `=` inside `v`, the only `=` is the one after `ip`. */
  lemma {:induction false} TraceLineSeparator(v: string, p: int)
    requires '=' !in v && OccursAt("ip=" + v, "=", p)
    ensures p == 2
  {
    var line := "ip=" + v;
    assert line[p] == line[p..p + 1][0] == '=';
    assert line[3..] == v;
    AbsentCharNotContained(v, '=');
    NotInSuffix(line, "=", 3);
    assert line[0] == 'i' && line[1] == 'p';
  }

  /** The text after the last `=` of the line `ip=v` is `v` when `v` holds no `=`. */
  lemma {:induction false} TraceLineTail(v: string)
    requires '=' !in v
    ensures LastComponent("ip=" + v, "=") == v
  {
    var line := "ip=" + v;
    ContainsMiddle("ip", "=", v);
    assert "ip" + "=" + v == line;
    var r := AfterLastOccurrence(line, "=").value;
    var p := |line| - |r| - 1;
    assert OccursAt(line, "=", p);
    TraceLineSeparator(v, p);
    assert line[3..] == v;
  }

  /**
   * The value of reading 2: when the first line starting with `ip=` is `ip=v`, with `v`
   * free of `=` and of surrounding spaces and tabs, the body parses to `v`.
   */
  lemma ParseTraceValue(message: string, k: nat, v: string)
    requires !IsValidIP(Trim(message, true))
    requires k < |Split(message, '\n')| && Split(message, '\n')[k] == "ip=" + v
    requires forall j :: 0 <= j < k ==> !HasPrefix(Split(message, '\n')[j], "ip=")
    requires '=' !in v && (v == [] || (!IsSpace(v[0]) && !IsSpace(v[|v| - 1])))
    ensures ParseIP(message) == v
  {
    TraceMarkerOccurs(message, k);
    FirstWithPrefixAt(Split(message, '\n'), "ip=", k);
    TraceValueTrimmed(v);
  }

  /** A line starting with `ip=` puts `ip=` in the body. */
  lemma TraceMarkerOccurs(message: string, k: nat)
    requires k < |Split(message, '\n')| && HasPrefix(Split(message, '\n')[k], "ip=")
    ensures Contains(message, "ip=")
  {
    var lines := Split(message, '\n');
    JoinSplit(message, '\n');
    JoinHasPart(lines, '\n', k);
    var i :| OccursAt(message, lines[k], i);
    assert message[i..i + 3] == lines[k][..3];
    ContainsWitness(message, "ip=", i);
  }

  lemma TraceValueTrimmed(v: string)
    requires '=' !in v && (v == [] || (!IsSpace(v[0]) && !IsSpace(v[|v| - 1])))
    ensures Trim(LastComponent("ip=" + v, "="), false) == v
  {
    TraceLineTail(v);
    assert [] + v + [] == v;
    TrimPadded([], v, [], false);
  }

  /** The regular-expression reading is "" exactly when the pattern matches nowhere. */
  lemma FirstDottedMatchEmpty(message: string)
    ensures FirstDottedMatch(message) == "" <==> forall i :: 0 <= i <= |message| ==> MatchEnd(message, i, true).None?
  {
    match FirstMatchFrom(message, 0, true)
    case Some((i, j)) =>
    case None =>
  }

  /** `r` occurs at `i`, the word-bounded pattern matches exactly `r` there, and nowhere before. */
  predicate LeftmostMatchAt(s: string, r: string, i: int) {
    && OccursAt(s, r, i) && MatchEnd(s, i, true) == Some(i + |r|)
    && forall k :: 0 <= k < i ==> MatchEnd(s, k, true).None?
  }

  lemma FirstDottedMatchSlice(message: string)
    ensures var m := FirstMatchFrom(message, 0, true);
            m.Some? ==> FirstDottedMatch(message) == message[m.value.0..m.value.1]
  {
  }

  lemma NoMatchBeforeFirst(message: string)
    ensures var m := FirstMatchFrom(message, 0, true);
            m.Some? ==> forall k :: 0 <= k < m.value.0 ==> MatchEnd(message, k, true).None?
  {
  }

  lemma SliceOccurs(s: string, i: nat, j: nat)
    requires i <= j <= |s|
    ensures OccursAt(s, s[i..j], i)
  {
  }

  /** A non-empty result of the regular-expression reading is the leftmost match in the body. */
  lemma FirstDottedMatchLeftmost(message: string)
    ensures var r := FirstDottedMatch(message);
            r != "" ==> exists i :: LeftmostMatchAt(message, r, i)
  {
    var m := FirstMatchFrom(message, 0, true);
    if m.Some? {
      var i, j := m.value.0, m.value.1;
      FirstDottedMatchSlice(message);
      NoMatchBeforeFirst(message);
      SliceOccurs(message, i, j);
      assert LeftmostMatchAt(message, message[i..j], i);
    }
  }

  /**
   * Reading 3 applies when the trimmed body is not a valid address and `ip=` does not
   * occur: the result is then the regular-expression reading, a dotted-shape text or "".
   */
  lemma ParseFallback(message: string)
    requires !IsValidIP(Trim(message, true)) && !Contains(message, "ip=")
    ensures ParseIP(message) == FirstDottedMatch(message)
    ensures ParseIP(message) == "" || IsDottedShape(ParseIP(message))
  {
  }

  /** A dotted-shape text (octets in range or not) parses to itself. */
  lemma ParseDotted(t: string)
    requires IsDottedShape(t)
    ensures ParseIP(t) == t
  {
    DottedIsTrimmed(t);
    if !IsValidIP(t) {
      DottedHasNoTraceMarker(t);
      DottedMatchesWhole(t);
    }
  }

  lemma DottedIsTrimmed(t: string)
    requires IsDottedShape(t)
    ensures Trim(t, true) == t
  {
    DottedCharacters(t);
    TrimUnpadded(t, true);
  }

  lemma DottedHasNoTraceMarker(t: string)
    requires IsDottedShape(t)
    ensures !Contains(t, "ip=")
  {
    DottedCharacters(t);
    assert 'i' !in t;
    NotContainsFirstChar(t, "ip=");
  }

  /** The word-bounded pattern matches a whole dotted-shape text. */
  lemma DottedMatchesWhole(t: string)
    requires IsDottedShape(t)
    ensures FirstDottedMatch(t) == t
  {
    assert t[0..|t|] == t;
    DottedIsMatched(t, 0, |t|);
  }

  lemma ZipLineIsTrimmed()
    ensures Trim("zip=1.2.3.4", true) == "zip=1.2.3.4"
  {
    var m := "zip=1.2.3.4";
    assert [] + m + [] == m;
    TrimPadded([], m, [], true);
  }

  lemma ZipLineIsNotAnAddress()
    ensures !IsValidIP("zip=1.2.3.4")
  {
    var first := "zip=1";
    SplitFour(first, "2", "3", "4");
    assert first + "." + "2" + "." + "3" + "." + "4" == "zip=1.2.3.4";
    assert first[0] == 'z';
    InvalidFromFirstPart("zip=1.2.3.4", first);
  }

  lemma InvalidFromFirstPart(ip: string, first: string)
    requires first != [] && !IsDigit(first[0]) && first[0] != '+' && first[0] != '-'
    requires Split(ip, '.')[0] == first
    ensures !IsValidIP(ip)
  {
    assert !IsOctetText(first);
  }

  lemma ZipLineHasNoTraceLine()
    ensures Contains("zip=1.2.3.4", "ip=")
    ensures TraceLineValue("zip=1.2.3.4") == ""
  {
    ZipLineContainsMarker();
    ZipLineIsOneLine();
    ZipLineLacksPrefix();
  }

  lemma ZipLineContainsMarker()
    ensures Contains("zip=1.2.3.4", "ip=")
  {
    ContainsMiddle("z", "ip=", "1.2.3.4");
    assert "z" + "ip=" + "1.2.3.4" == "zip=1.2.3.4";
  }

  lemma ZipLineIsOneLine()
    ensures Split("zip=1.2.3.4", '\n') == ["zip=1.2.3.4"]
  {
    assert '\n' !in "zip=1.2.3.4";
    SplitNoSep("zip=1.2.3.4", '\n');
  }

  lemma ZipLineLacksPrefix()
    ensures !HasPrefix("zip=1.2.3.4", "ip=")
  {
    assert "zip=1.2.3.4"[0] != "ip="[0];
  }

  /** A body whose only candidate line is `zip=...` parses to "", though it holds an address. */
  lemma TraceBranchHidesAddress()
    ensures ParseIP("zip=1.2.3.4") == ""
  {
    ZipLineIsTrimmed();
    ZipLineIsNotAnAddress();
    ZipLineHasNoTraceLine();
  }

  // ---------------------------------------------------------------------------
  // The direct-IP extractors and the DNS answer
  // ---------------------------------------------------------------------------

  /** Response formats of the direct-IP services, chosen from the service URL. */
  datatype DirectFormat =
    | PlainAddress   // the 3322.org endpoint: the bare address
    | LabelledPage   // myip.ipip.net: "当前 IP：x.x.x.x 来自于：..."
    | IpLine         // cip.cc: a line "IP\t: x.x.x.x"

  /** The URL substrings that select the 3322.org and the ipip.net extractors. */
  const Host3322 := "118.184.169.48"
  const HostIpip := "myip.ipip.net"

  /** The extractor choice of tryDirectIPService (Network.swift:196-215), by URL substring. */
  function DirectFormatOf(service: string): DirectFormat {
    if Contains(service, Host3322) then PlainAddress
    else if Contains(service, HostIpip) then LabelledPage
    else IpLine
  }

  /** The three extractors of tryDirectIPService (Network.swift:196-215); None when nothing is extracted. */
  function ExtractDirectIP(format: DirectFormat, output: string): Option<string> {
    match format
    case PlainAddress =>
      (var trimmed := Trim(output, true);
       if IsDottedShape(trimmed) then Some(trimmed) else None)
    case LabelledPage =>
      (match FirstMatchFrom(output, 0, false)
       case Some((i, j)) => Some(output[i..j])
       case None => None)
    case IpLine =>
      var lines := Split(output, '\n');
      match FirstWithPrefix(lines, "IP")
      case Some(k) => Some(Trim(LastComponent(lines[k], ": "), false))
      case None => None
  }

  /**
   * The plain-address and the labelled-page extractors only ever yield dotted-shape text;
   * the first takes the whole trimmed output, the second the slice matched at the leftmost
   * position where the pattern matches. The cip.cc extractor validates nothing.
   */
  lemma {:induction false} ExtractedShapes(format: DirectFormat, output: string)
    requires format != IpLine && ExtractDirectIP(format, output).Some?
    ensures IsDottedShape(ExtractDirectIP(format, output).value)
    ensures format == PlainAddress ==> ExtractDirectIP(format, output).value == Trim(output, true)
    ensures format == LabelledPage ==>
              exists i :: && OccursAt(output, ExtractDirectIP(format, output).value, i)
                          && FirstMatchFrom(output, 0, false) == Some((i, i + |ExtractDirectIP(format, output).value|))
  {
    if format == LabelledPage {
      LabelledPageMatch(output);
    }
  }

  /** The labelled-page extractor's answer is the dotted slice at the leftmost match of its pattern. */
  lemma {:induction false} LabelledPageMatch(output: string)
    requires ExtractDirectIP(LabelledPage, output).Some?
    ensures var m := FirstMatchFrom(output, 0, false).value;
            && FirstMatchFrom(output, 0, false).Some? && m.0 <= m.1 <= |output|
            && ExtractDirectIP(LabelledPage, output).value == output[m.0..m.1]
            && IsDottedShape(output[m.0..m.1])
            && OccursAt(output, output[m.0..m.1], m.0)
  {
    var m := FirstMatchFrom(output, 0, false).value;
    MatchIsDotted(output, m.0, false);
  }

  /** A plain-address service answering with the address and a newline is read exactly. */
  lemma PlainAddressRoundTrip(t: string)
    requires IsDottedShape(t)
    ensures ExtractDirectIP(PlainAddress, t + "\n") == Some(t)
  {
    DottedCharacters(t);
    assert AllBlank("\n", true);
    assert [] + t + "\n" == t + "\n";
    TrimPadded([], t, "\n", true);
  }

  /** In the cip.cc line `IP\t: v`, with no ": " inside `v`, the only ": " is the one after the tab. */
  lemma {:induction false} IpLineSeparator(v: string, p: int)
    requires !Contains(v, ": ") && OccursAt("IP\t: " + v, ": ", p)
    ensures p == 3
  {
    var line := "IP\t: " + v;
    assert line[p] == line[p..p + 2][0] == ':';
    assert line[5..] == v;
    NotInSuffix(line, ": ", 5);
    assert line[0] == 'I' && line[1] == 'P' && line[2] == '\t' && line[4] == ' ';
  }

  /** The text after the last ": " of the cip.cc line `IP\t: v` is `v` when `v` holds no ": ". */
  lemma {:induction false} IpLineTail(v: string)
    requires !Contains(v, ": ")
    ensures LastComponent("IP\t: " + v, ": ") == v
  {
    var line := "IP\t: " + v;
    ContainsMiddle("IP\t", ": ", v);
    assert "IP\t" + ": " + v == line;
    var r := AfterLastOccurrence(line, ": ").value;
    var p := |line| - |r| - 2;
    assert OccursAt(line, ": ", p);
    IpLineSeparator(v, p);
    assert line[5..] == v;
  }

  /**
   * The cip.cc extractor reads the value of its `IP\t: v` line: when that is the first line
   * starting with "IP", and `v` holds no ": " and no surrounding spaces or tabs, the result is `v`.
   */
  lemma IpLineRoundTrip(output: string, k: nat, v: string)
    requires k < |Split(output, '\n')| && Split(output, '\n')[k] == "IP\t: " + v
    requires forall j :: 0 <= j < k ==> !HasPrefix(Split(output, '\n')[j], "IP")
    requires !Contains(v, ": ") && (v == [] || (!IsSpace(v[0]) && !IsSpace(v[|v| - 1])))
    ensures ExtractDirectIP(IpLine, output) == Some(v)
  {
    var lines := Split(output, '\n');
    assert lines[k][..2] == "IP";
    FirstWithPrefixAt(lines, "IP", k);
    IpLineTail(v);
    assert [] + v + [] == v;
    TrimPadded([], v, [], false);
  }

  /**
   * The acceptance test of getIPViaOpenDNS (Network.swift:552-559): the trimmed output of
   * `dig +short`, when it is non-empty and fully matches the dotted pattern. None when the
   * process could not run or its output was not text.
   */
  function OpenDnsAnswer(output: Option<string>): (r: Option<string>)
    ensures r.Some? ==> IsDottedShape(r.value) && output.Some? && r.value == Trim(output.value, true)
    ensures output.Some? && Trim(output.value, true) != "" && IsDottedShape(Trim(output.value, true)) ==> r.Some?
  {
    match output
    case None => None
    case Some(text) =>
      var trimmed := Trim(text, true);
      if trimmed != "" && IsDottedShape(trimmed) then Some(trimmed) else None
  }

  /** `dig +short` printing the address on a line of its own is accepted; blank output is not. */
  lemma OpenDnsRoundTrip(t: string, pad: string)
    requires IsDottedShape(t) && AllBlank(pad, true)
    ensures OpenDnsAnswer(Some(t + "\n")) == Some(t)
    ensures OpenDnsAnswer(Some(pad)) == None
  {
    DottedCharacters(t);
    PlainAddressRoundTrip(t);
    assert pad + [] + [] == pad;
    TrimPadded(pad, [], [], true);
  }

  // ---------------------------------------------------------------------------
  // getGateway's line parser
  // ---------------------------------------------------------------------------

  /**
   * A `netstat -nr -f inet` line naming the gateway of `iface`: it starts with `default`,
   * has at least four whitespace-separated fields, the fourth is the interface and the
   * second has the dotted shape (so `link#N` gateways are skipped).
   */
  predicate IsDefaultRouteVia(line: string, iface: string) {
    HasPrefix(line, "default")
    && var fields := Fields(line);
       |fields| >= 4 && fields[3] == iface && IsDottedShape(fields[1])
  }

  predicate NoDefaultRoute(lines: seq<string>, iface: string) {
    forall k :: 0 <= k < |lines| ==> !IsDefaultRouteVia(lines[k], iface)
  }

  /** Line `k` is the first default route of `iface`. */
  predicate FirstDefaultRouteAt(lines: seq<string>, iface: string, k: int) {
    0 <= k < |lines| && IsDefaultRouteVia(lines[k], iface)
    && forall j :: 0 <= j < k ==> !IsDefaultRouteVia(lines[j], iface)
  }

  /**
   * getGateway after the subprocess (Network.swift:499-520): the gateway field of the first
   * default route of `iface`, "" when there is none. `output` is None when netstat could
   * not run, did not finish within its second, or printed something that is not text.
   */
  method GetGateway(output: Option<string>, iface: string) returns (gateway: string)
    ensures output.None? ==> gateway == ""
    ensures output.Some? ==> (gateway == "" <==> NoDefaultRoute(Split(output.value, '\n'), iface))
    ensures output.Some? && gateway != "" ==>
              exists k :: FirstDefaultRouteAt(Split(output.value, '\n'), iface, k) && gateway == Fields(Split(output.value, '\n')[k])[1]
    ensures gateway != "" ==> IsDottedShape(gateway)
  {
    gateway := "";
    if output.None? {
      return;
    }
    var lines := Split(output.value, '\n');
    var i := 0;
    while i < |lines|
      invariant 0 <= i <= |lines|
      invariant forall k :: 0 <= k < i ==> !IsDefaultRouteVia(lines[k], iface)
    {
      var line := lines[i];
      if HasPrefix(line, "default") {
        var components := Fields(line);
        if |components| >= 4 && components[3] == iface {
          var candidate := components[1];
          if IsDottedShape(candidate) {
            DottedCharacters(candidate);
            assert IsDefaultRouteVia(lines[i], iface);
            assert FirstDefaultRouteAt(lines, iface, i);
            gateway := candidate;
            assert gateway != "";
            return;
          }
        }
      }
      i := i + 1;
    }
  }

  // ---------------------------------------------------------------------------
  // getInterfaceApp
  // ---------------------------------------------------------------------------

  /** What `ps aux` gave the bridge check: it failed to launch, or printed (possibly non-text) output. */
  datatype ProcessListing = LaunchFailed | Listing(text: Option<string>)

  /**
   * getInterfaceApp (Network.swift:337-401): the application behind a virtual interface,
   * None for physical ones. For `bridge*` the file-system checks and the process listing
   * are inputs: Parallels when its app is installed and `ps` fails to launch or lists
   * `prl_disp_service` or `Parallels`; then VMware Fusion when that app is installed;
   * otherwise a plain virtual bridge.
   */
  function InterfaceApp(name: string, parallelsInstalled: bool, ps: ProcessListing, vmwareInstalled: bool): Option<string> {
    if HasPrefix(name, "bridge") then
      if parallelsInstalled && (ps.LaunchFailed? || (ps.text.Some? && (Contains(ps.text.value, "prl_disp_service") || Contains(ps.text.value, "Parallels")))) then
        Some("Parallels Desktop")
      else if vmwareInstalled then Some("VMware Fusion")
      else Some("Virtual Bridge")
    else if HasPrefix(name, "vmnet") then Some("VMware Fusion")
    else if HasPrefix(name, "tun") || HasPrefix(name, "utun") then Some("VPN")
    else if HasPrefix(name, "tap") then Some("Virtual TAP")
    else if HasPrefix(name, "awdl") then Some("AirDrop/AirPlay")
    else if HasPrefix(name, "vboxnet") then Some("VirtualBox")
    else None
  }

  predicate HasVirtualPrefix(name: string) {
    HasPrefix(name, "bridge") || HasPrefix(name, "vmnet") || HasPrefix(name, "tun") || HasPrefix(name, "utun")
    || HasPrefix(name, "tap") || HasPrefix(name, "awdl") || HasPrefix(name, "vboxnet")
  }

  /**
   * Only the virtual prefixes name an application (so `en*` and `lo*` never do), and an
   * interface is reported as a VPN exactly when it is a `tun`/`utun` tunnel.
   */
  lemma InterfaceAppCases(name: string, parallelsInstalled: bool, ps: ProcessListing, vmwareInstalled: bool)
    ensures InterfaceApp(name, parallelsInstalled, ps, vmwareInstalled).Some? <==> HasVirtualPrefix(name)
    ensures InterfaceApp(name, parallelsInstalled, ps, vmwareInstalled) == Some("VPN")
            <==> HasPrefix(name, "tun") || HasPrefix(name, "utun")
    ensures HasPrefix(name, "en") || HasPrefix(name, "lo") ==> InterfaceApp(name, parallelsInstalled, ps, vmwareInstalled).None?
  {
    if HasPrefix(name, "tun") || HasPrefix(name, "utun") {
      assert !HasPrefix(name, "bridge") by { assert name[0] != 'b'; }
      assert !HasPrefix(name, "vmnet") by { assert name[0] != 'v'; }
    }
    if HasPrefix(name, "en") || HasPrefix(name, "lo") {
      assert name[0] == 'e' || name[0] == 'l';
      assert !HasVirtualPrefix(name);
    }
  }

  // ---------------------------------------------------------------------------
  // fetchDirectIPLocation's label
  // ---------------------------------------------------------------------------

  /**
   * The location label of fetchDirectIPLocation (Network.swift:589-594): province and city
   * run together when the province is known and differs from the city, else the city.
   */
  function DirectLocation(province: string, city: string): (r: string)
    ensures r == "" <==> province == "" && city == ""
    ensures |city| <= |r| && r[|r| - |city|..] == city
    ensures province != "" && province != city ==> |r| == |province| + |city| && r[..|province|] == province
    ensures province == "" || province == city ==> r == city
  {
    if province != "" && province != city then province + city
    else if city != "" then city
    else ""
  }

  /**
   * The accepted answer of the AMap lookup (Network.swift:584-598): a JSON object whose
   * `status` is the string "1" and whose `province` and `city` are strings. None when the
   * body is not such an object.
   */
  function AmapLocation(json: Option<JsonObject>): (r: Option<string>)
    ensures r.Some? <==> json.Some? && StringField(json.value, "status") == Some("1")
                         && StringField(json.value, "province").Some? && StringField(json.value, "city").Some?
    ensures r.Some? ==> r.value == DirectLocation(StringField(json.value, "province").value, StringField(json.value, "city").value)
  {
    match json
    case None => None
    case Some(obj) =>
      var status := StringField(obj, "status");
      var province := StringField(obj, "province");
      var city := StringField(obj, "city");
      if status == Some("1") && province.Some? && city.Some? then Some(DirectLocation(province.value, city.value))
      else None
  }
}
