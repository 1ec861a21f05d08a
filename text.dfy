/**
 * The Foundation string operations the MyIP parsers are built from, on strings as
 * sequences of Unicode code points: trimming by a character set, splitting on a
 * separator, prefix and substring tests, and whitespace-separated fields.
 */
module Text {
  import opened Wrappers

  /** ASCII decimal digit. The regular-expression classes `[0-9]` and `\d` are both read as this. */
  predicate IsDigit(c: char) {
    '0' <= c <= '9'
  }

  /** A character of the regular-expression class `\w`, as used by the `\b` word boundary (ASCII reading). */
  predicate IsWordChar(c: char) {
    IsDigit(c) || 'a' <= c <= 'z' || 'A' <= c <= 'Z' || c == '_'
  }

  /** Foundation's `CharacterSet.whitespaces`: tab and the Unicode space separators. */
  predicate IsSpace(c: char) {
    c == ' ' || c == '\t' || c == '\U{00A0}' || c == '\U{1680}' || ('\U{2000}' <= c <= '\U{200A}')
    || c == '\U{202F}' || c == '\U{205F}' || c == '\U{3000}'
  }

  /** Foundation's `CharacterSet.whitespacesAndNewlines`: the spaces above plus the line terminators. */
  predicate IsSpaceOrNewline(c: char) {
    IsSpace(c) || c == '\n' || c == '\U{000B}' || c == '\U{000C}' || c == '\r'
    || c == '\U{0085}' || c == '\U{2028}' || c == '\U{2029}'
  }

  /** The set a trim removes: `.whitespacesAndNewlines` when `newlines`, else `.whitespaces`. */
  predicate Blank(c: char, newlines: bool) {
    if newlines then IsSpaceOrNewline(c) else IsSpace(c)
  }

  /** The first position from `i` on that does not hold a blank (`|s|` when there is none). */
  function LeadingEnd(s: string, newlines: bool, i: nat): (a: nat)
    requires i <= |s|
    ensures i <= a <= |s|
    ensures forall k :: i <= k < a ==> Blank(s[k], newlines)
    ensures a == |s| || !Blank(s[a], newlines)
    decreases |s| - i
  {
    if i < |s| && Blank(s[i], newlines) then LeadingEnd(s, newlines, i + 1) else i
  }

  /** Going back from `j` no further than `a`, the end of the last position that does not hold a blank. */
  function TrailingStart(s: string, newlines: bool, a: nat, j: nat): (b: nat)
    requires a <= j <= |s|
    ensures a <= b <= j
    ensures forall k :: b <= k < j ==> Blank(s[k], newlines)
    ensures b == a || !Blank(s[b - 1], newlines)
    decreases j - a
  {
    if a < j && Blank(s[j - 1], newlines) then TrailingStart(s, newlines, a, j - 1) else j
  }

  /**
   * `trimmingCharacters(in:)`: the text between the leading and the trailing run of blanks.
   * The result is a slice of `s` that neither starts nor ends with a blank, and every
   * character cut away is a blank.
   */
  function Trim(s: string, newlines: bool): (r: string)
    ensures r == [] || (!Blank(r[0], newlines) && !Blank(r[|r| - 1], newlines))
    ensures exists i :: TrimmedAt(s, r, i, newlines)
  {
    var a := LeadingEnd(s, newlines, 0);
    var b := TrailingStart(s, newlines, a, |s|);
    assert TrimmedAt(s, s[a..b], a, newlines);
    s[a..b]
  }

  /** `r` is the slice of `s` at `i`, and everything of `s` around it is blank. */
  predicate TrimmedAt(s: string, r: string, i: int, newlines: bool) {
    && 0 <= i <= |s| - |r| && r == s[i..i + |r|]
    && (forall k :: 0 <= k < i ==> Blank(s[k], newlines))
    && (forall k :: i + |r| <= k < |s| ==> Blank(s[k], newlines))
  }

  predicate AllBlank(s: string, newlines: bool) {
    forall k :: 0 <= k < |s| ==> Blank(s[k], newlines)
  }

  /** Trimming recovers the text between any blank padding, whatever the padding is. */
  lemma TrimPadded(pre: string, a: string, post: string, newlines: bool)
    requires AllBlank(pre, newlines) && AllBlank(post, newlines)
    requires a == [] || (!Blank(a[0], newlines) && !Blank(a[|a| - 1], newlines))
    requires a != [] || post == []
    ensures Trim(pre + a + post, newlines) == a
  {
    var x := pre + a + post;
    var i, j := |pre|, |pre| + |a|;
    assert forall k :: 0 <= k < i ==> x[k] == pre[k];
    assert forall k :: j <= k < |x| ==> x[k] == post[k - j];
    assert a != [] ==> x[i] == a[0] && x[j - 1] == a[|a| - 1];
    LeadingEndIs(x, newlines, 0, i);
    TrailingStartIs(x, newlines, i, |x|, j);
    assert x[i..j] == a;
  }

  /** The ensures of LeadingEnd determine its value. */
  lemma LeadingEndIs(s: string, newlines: bool, i: nat, a: nat)
    requires i <= a <= |s|
    requires forall k :: i <= k < a ==> Blank(s[k], newlines)
    requires a == |s| || !Blank(s[a], newlines)
    ensures LeadingEnd(s, newlines, i) == a
  {
  }

  /** The ensures of TrailingStart determine its value. */
  lemma TrailingStartIs(s: string, newlines: bool, a: nat, j: nat, b: nat)
    requires a <= b <= j <= |s|
    requires forall k :: b <= k < j ==> Blank(s[k], newlines)
    requires b == a || !Blank(s[b - 1], newlines)
    ensures TrailingStart(s, newlines, a, j) == b
  {
  }

  /** A string with no blank character is left alone by trimming. */
  lemma TrimUnpadded(s: string, newlines: bool)
    requires forall k :: 0 <= k < |s| ==> !Blank(s[k], newlines)
    ensures Trim(s, newlines) == s
  {
    assert [] + s + [] == s;
    TrimPadded([], s, [], newlines);
  }

  /** Trimming keeps only characters of the original. */
  lemma TrimKeeps(s: string, newlines: bool)
    ensures forall c :: c in Trim(s, newlines) ==> c in s
  {
    var a := LeadingEnd(s, newlines, 0);
    var b := TrailingStart(s, newlines, a, |s|);
    forall c | c in s[a..b] ensures c in s {
      var k :| 0 <= k < b - a && s[a..b][k] == c;
      assert s[a + k] == c;
    }
  }

  /** `hasPrefix` (on code points). */
  predicate HasPrefix(s: string, p: string) {
    |p| <= |s| && s[..|p|] == p
  }

  /** `contains`: some slice of `s` equals `t` (see ContainsIff). */
  predicate Contains(s: string, t: string)
    decreases |s|
  {
    |t| <= |s| && (s[..|t|] == t || Contains(s[1..], t))
  }

  predicate OccursAt(s: string, t: string, i: int) {
    0 <= i <= |s| - |t| && s[i..i + |t|] == t
  }

  /** A slice of the tail is the slice of the text one position further on. */
  lemma {:induction false} TailSlice(s: string, a: nat, b: nat)
    requires a <= b < |s|
    ensures s[1..][a..b] == s[a + 1..b + 1]
  {
    forall m | 0 <= m < b - a ensures s[1..][a..b][m] == s[a + 1..b + 1][m] {
    }
  }

  lemma {:induction false} ContainsIff(s: string, t: string)
    ensures Contains(s, t) <==> exists i :: OccursAt(s, t, i)
    decreases |s|
  {
    if |t| <= |s| {
      if s[..|t|] == t {
        assert OccursAt(s, t, 0);
      } else {
        ContainsIff(s[1..], t);
        if Contains(s[1..], t) {
          var i :| OccursAt(s[1..], t, i);
          TailSlice(s, i, i + |t|);
          assert OccursAt(s, t, i + 1);
        } else {
          forall i | 1 <= i <= |s| - |t| ensures !OccursAt(s, t, i) {
            TailSlice(s, i - 1, i - 1 + |t|);
            assert !OccursAt(s[1..], t, i - 1);
          }
        }
      }
    }
  }

  /** A text whose first character does not occur in `s` is not contained in `s`. */
  lemma {:induction false} NotContainsFirstChar(s: string, t: string)
    requires t != [] && t[0] !in s
    ensures !Contains(s, t)
    decreases |s|
  {
    if |t| <= |s| {
      assert s[0] in s;
      assert s[..|t|][0] == s[0];
      assert forall c :: c in s[1..] ==> c in s;
      NotContainsFirstChar(s[1..], t);
    }
  }

  /** A character of `s` is contained in `s` as a one-character text. */
  lemma CharContained(s: string, c: char)
    requires c in s
    ensures Contains(s, [c])
  {
    var m :| 0 <= m < |s| && s[m] == c;
    assert s[m..m + 1] == [c];
    ContainsWitness(s, [c], m);
  }

  /** A text that occurs at some position is contained. */
  lemma ContainsWitness(s: string, t: string, i: int)
    requires OccursAt(s, t, i)
    ensures Contains(s, t)
  {
    ContainsIff(s, t);
  }

  /** When a suffix does not contain `t`, no occurrence of `t` starts inside that suffix. */
  lemma {:induction false} NotInSuffix(s: string, t: string, k: nat)
    requires k <= |s| && !Contains(s[k..], t)
    ensures forall q :: k <= q ==> !OccursAt(s, t, q)
  {
    ContainsIff(s[k..], t);
    forall q | k <= q ensures !OccursAt(s, t, q) {
      if 0 <= q <= |s| - |t| {
        assert s[q..q + |t|] == s[k..][q - k..q - k + |t|];
        assert !OccursAt(s[k..], t, q - k);
      }
    }
  }

  /** A text without the character `c` does not contain the one-character text `[c]`. */
  lemma {:induction false} AbsentCharNotContained(s: string, c: char)
    requires c !in s
    ensures !Contains(s, [c])
  {
    ContainsIff(s, [c]);
    forall i | 0 <= i < |s| ensures !OccursAt(s, [c], i) {
      assert s[i..i + 1][0] == s[i];
    }
  }

  /** The middle of a concatenation is contained in it. */
  lemma ContainsMiddle(a: string, t: string, b: string)
    ensures Contains(a + t + b, t)
  {
    assert (a + t + b)[|a|..|a| + |t|] == t;
    ContainsWitness(a + t + b, t, |a|);
  }

  /** `components(separatedBy:)` with a one-character separator. */
  function Split(s: string, sep: char): (parts: seq<string>)
    ensures |parts| >= 1
    ensures forall k :: 0 <= k < |parts| ==> sep !in parts[k]
  {
    if s == [] then [""]
    else
      var rest := Split(s[1..], sep);
      if s[0] == sep then [""] + rest
      else [[s[0]] + rest[0]] + rest[1..]
  }

  /** `joined(separator:)`, the inverse of Split. */
  function Join(parts: seq<string>, sep: char): string
  {
    if parts == [] then ""
    else if |parts| == 1 then parts[0]
    else parts[0] + [sep] + Join(parts[1..], sep)
  }

  /** Joining the parts of a split gives back the original text. */
  lemma {:induction false} JoinSplit(s: string, sep: char)
    ensures Join(Split(s, sep), sep) == s
  {
    if s != [] {
      var rest := Split(s[1..], sep);
      JoinSplit(s[1..], sep);
      if s[0] == sep {
        assert Split(s, sep)[1..] == rest;
      } else if |rest| == 1 {
        assert Split(s, sep) == [[s[0]] + rest[0]];
      } else {
        assert Split(s, sep)[1..] == rest[1..];
        assert Join(rest, sep) == rest[0] + [sep] + Join(rest[1..], sep);
      }
    }
  }

  /** Splitting text joined from separator-free parts gives back those parts. */
  lemma {:induction false} SplitJoin(parts: seq<string>, sep: char)
    requires |parts| >= 1
    requires forall k :: 0 <= k < |parts| ==> sep !in parts[k]
    ensures Split(Join(parts, sep), sep) == parts
  {
    if |parts| == 1 {
      SplitNoSep(parts[0], sep);
    } else {
      SplitJoin(parts[1..], sep);
      SplitAtSep(parts[0], Join(parts[1..], sep), sep);
      assert [parts[0]] + parts[1..] == parts;
    }
  }

  lemma {:induction false} SplitNoSep(a: string, sep: char)
    requires sep !in a
    ensures Split(a, sep) == [a]
  {
    if a != [] {
      assert forall c :: c in a[1..] ==> c in a;
      SplitNoSep(a[1..], sep);
      assert [a[0]] + a[1..] == a;
    }
  }

  /** Each part of a join occurs in the joined text. */
  lemma {:induction false} JoinHasPart(parts: seq<string>, sep: char, k: nat)
    requires k < |parts|
    ensures exists i :: OccursAt(Join(parts, sep), parts[k], i)
    decreases |parts|
  {
    var joined := Join(parts, sep);
    if |parts| == 1 {
      assert joined[0..|parts[0]|] == parts[0];
      assert OccursAt(joined, parts[0], 0);
    } else {
      var rest := Join(parts[1..], sep);
      assert joined == parts[0] + [sep] + rest;
      if k == 0 {
        assert joined[0..|parts[0]|] == parts[0];
        assert OccursAt(joined, parts[0], 0);
      } else {
        JoinHasPart(parts[1..], sep, k - 1);
        var i :| OccursAt(rest, parts[1..][k - 1], i);
        var off := |parts[0]| + 1;
        assert joined[off + i..off + i + |parts[k]|] == rest[i..i + |parts[k]|];
        assert OccursAt(joined, parts[k], off + i);
      }
    }
  }

  /** The first separator ends the first part. */
  lemma {:induction false} SplitAtSep(a: string, b: string, sep: char)
    requires sep !in a
    ensures Split(a + [sep] + b, sep) == [a] + Split(b, sep)
  {
    var s := a + [sep] + b;
    if a == [] {
      assert s[1..] == b;
    } else {
      assert s[1..] == a[1..] + [sep] + b;
      assert forall c :: c in a[1..] ==> c in a;
      SplitAtSep(a[1..], b, sep);
      assert [a[0]] + a[1..] == a;
    }
  }

  /** Every character of `s` other than the separator lies in one of the parts. */
  lemma {:induction false} SplitCovers(s: string, sep: char, i: int)
    requires 0 <= i < |s| && s[i] != sep
    ensures exists k :: 0 <= k < |Split(s, sep)| && s[i] in Split(s, sep)[k]
  {
    var parts := Split(s, sep);
    var rest := Split(s[1..], sep);
    if i == 0 {
      assert s[0] in parts[0];
    } else {
      SplitCovers(s[1..], sep, i - 1);
      var k :| 0 <= k < |rest| && s[1..][i - 1] in rest[k];
      if s[0] == sep {
        assert parts[k + 1] == rest[k];
      } else if k == 0 {
        assert parts[0] == [s[0]] + rest[0];
      } else {
        assert parts[k] == rest[k];
      }
    }
  }

  /** Four parts joined, written out. */
  lemma JoinFour(a: string, b: string, c: string, d: string, sep: char)
    ensures Join([a, b, c, d], sep) == a + [sep] + b + [sep] + c + [sep] + d
  {
    var p := [a, b, c, d];
    assert p[1..] == [b, c, d] && p[1..][1..] == [c, d] && p[1..][1..][1..] == [d];
    assert Join([c, d], sep) == c + [sep] + d;
    assert Join([b, c, d], sep) == b + [sep] + (c + [sep] + d);
    assert Join(p, sep) == a + [sep] + (b + [sep] + (c + [sep] + d));
  }

  /** Index of the first element of `lines` with prefix `p` (`first(where: { $0.hasPrefix(p) })`). */
  function FirstWithPrefix(lines: seq<string>, p: string): (r: Option<nat>)
    ensures r.Some? ==> r.value < |lines| && HasPrefix(lines[r.value], p)
    ensures r.Some? ==> forall k :: 0 <= k < r.value ==> !HasPrefix(lines[k], p)
    ensures r.None? ==> forall k :: 0 <= k < |lines| ==> !HasPrefix(lines[k], p)
  {
    if lines == [] then None
    else if HasPrefix(lines[0], p) then Some(0)
    else match FirstWithPrefix(lines[1..], p)
      case Some(k) => Some(k + 1)
      case None => None
  }

  /** The first line with the prefix is at `k` when line `k` has it and no line before does. */
  lemma FirstWithPrefixAt(lines: seq<string>, p: string, k: nat)
    requires k < |lines| && HasPrefix(lines[k], p)
    requires forall j :: 0 <= j < k ==> !HasPrefix(lines[j], p)
    ensures FirstWithPrefix(lines, p) == Some(k)
  {
  }

  /**
   * Scanning from `i` left to right without overlap, as `components(separatedBy:)` does:
   * the end of the last occurrence of `sep`, None when `sep` does not occur from `i` on.
   */
  function LastOccurrenceEnd(s: string, sep: string, i: nat): (j: Option<nat>)
    requires sep != [] && i <= |s|
    ensures j.Some? ==> i + |sep| <= j.value <= |s| && OccursAt(s, sep, j.value - |sep|)
    ensures j.Some? ==> forall k :: j.value <= k ==> !OccursAt(s, sep, k)
    ensures j.None? ==> forall k :: i <= k ==> !OccursAt(s, sep, k)
    decreases |s| - i
  {
    if |s| - i < |sep| then None
    else if s[i..i + |sep|] == sep then
      match LastOccurrenceEnd(s, sep, i + |sep|)
      case Some(j) => Some(j)
      case None => Some(i + |sep|)
    else
      LastOccurrenceEnd(s, sep, i + 1)
  }

  /** The text after the last occurrence of `sep`; None when `sep` does not occur. */
  function AfterLastOccurrence(s: string, sep: string): (r: Option<string>)
    requires sep != []
    ensures r.None? <==> !Contains(s, sep)
    ensures r.Some? ==> |r.value| <= |s| - |sep| && r.value == s[|s| - |r.value|..]
    ensures r.Some? ==> s[|s| - |r.value| - |sep|..|s| - |r.value|] == sep
    ensures r.Some? ==> !Contains(r.value, sep)
  {
    ContainsIff(s, sep);
    match LastOccurrenceEnd(s, sep, 0)
    case Some(j) => NoLaterOccurrence(s, sep, j); Some(s[j..])
    case None => None
  }

  /** No occurrence of `sep` from `j` on means `sep` is not contained in the text after `j`. */
  lemma NoLaterOccurrence(s: string, sep: string, j: nat)
    requires j <= |s|
    requires forall k :: j <= k ==> !OccursAt(s, sep, k)
    ensures !Contains(s[j..], sep)
  {
    ContainsIff(s[j..], sep);
    forall k | OccursAt(s[j..], sep, k)
      ensures OccursAt(s, sep, j + k)
    {
      assert s[j..][k..k + |sep|] == s[j + k..j + k + |sep|];
    }
  }

  /** `components(separatedBy: sep).last`: the last part, the whole text when `sep` does not occur. */
  function LastComponent(s: string, sep: string): (r: string)
    requires sep != []
    ensures |r| <= |s| && r == s[|s| - |r|..]
    ensures !Contains(r, sep)
    ensures !Contains(s, sep) ==> r == s
    ensures Contains(s, sep) ==> AfterLastOccurrence(s, sep) == Some(r)
  {
    match AfterLastOccurrence(s, sep)
    case Some(t) => t
    case None => s
  }

  /** Length of the leading run of non-space characters. */
  function WordLength(s: string): (n: nat)
    ensures n <= |s|
    ensures forall k :: 0 <= k < n ==> !IsSpace(s[k])
    ensures n == |s| || IsSpace(s[n])
  {
    if s == [] || IsSpace(s[0]) then 0 else 1 + WordLength(s[1..])
  }

  /**
   * `components(separatedBy: .whitespaces).filter { !$0.isEmpty }`: the maximal runs of
   * non-space characters, in order.
   */
  function Fields(s: string): (fs: seq<string>)
    ensures forall k :: 0 <= k < |fs| ==> fs[k] != [] && forall c :: c in fs[k] ==> !IsSpace(c)
    decreases |s|
  {
    if s == [] then []
    else if IsSpace(s[0]) then Fields(s[1..])
    else
      var n := WordLength(s);
      [s[..n]] + Fields(s[n..])
  }

  /** Words laid out one after another, each followed by its own gap. */
  function Spaced(words: seq<string>, gaps: seq<string>): string
    requires |gaps| == |words|
  {
    if words == [] then [] else words[0] + gaps[0] + Spaced(words[1..], gaps[1..])
  }

  /** Non-empty space-free words, separated by non-empty runs of spaces; the last gap may be empty. */
  predicate WellSpaced(words: seq<string>, gaps: seq<string>) {
    && |gaps| == |words|
    && (forall k :: 0 <= k < |words| ==> words[k] != [] && forall c :: c in words[k] ==> !IsSpace(c))
    && (forall k :: 0 <= k < |gaps| ==> AllBlank(gaps[k], false))
    && (forall k :: 0 <= k < |gaps| - 1 ==> gaps[k] != [])
  }

  /** Leading spaces contribute no field. */
  lemma {:induction false} FieldsSkipSpaces(lead: string, t: string)
    requires AllBlank(lead, false)
    ensures Fields(lead + t) == Fields(t)
    decreases |lead|
  {
    if lead == [] {
      assert lead + t == t;
    } else {
      assert (lead + t)[0] == lead[0];
      assert (lead + t)[1..] == lead[1..] + t;
      FieldsSkipSpaces(lead[1..], t);
    }
  }

  /** A space-free word followed by a space or by nothing is read as one whole field. */
  lemma {:induction false} FieldsWord(w: string, rest: string)
    requires w != [] && forall c :: c in w ==> !IsSpace(c)
    requires rest == [] || IsSpace(rest[0])
    ensures Fields(w + rest) == [w] + Fields(rest)
  {
    var s := w + rest;
    var n := WordLength(s);
    assert s[0] == w[0] && !IsSpace(s[0]);
    assert forall k :: 0 <= k < |w| ==> s[k] == w[k] && w[k] in w;
    assert |w| < |s| ==> s[|w|] == rest[0];
    assert n == |w|;
    assert s[..n] == w && s[n..] == rest;
  }

  /** `s` is the layout of `words` after the spaces `lead`, with the gaps `gaps`. */
  predicate LaidOut(s: string, lead: string, words: seq<string>, gaps: seq<string>) {
    AllBlank(lead, false) && WellSpaced(words, gaps) && s == lead + Spaced(words, gaps)
  }

  /**
   * Every text is its own fields laid out between runs of spaces: nothing but spaces is
   * dropped, and no two fields are adjacent.
   */
  lemma {:induction false} FieldsCover(s: string)
    ensures exists lead, gaps :: LaidOut(s, lead, Fields(s), gaps)
    decreases |s|
  {
    if s == [] {
      assert Fields(s) == [] && Spaced([], []) == [];
      assert LaidOut(s, [], Fields(s), []);
    } else if IsSpace(s[0]) {
      FieldsCover(s[1..]);
      var lead, gaps :| LaidOut(s[1..], lead, Fields(s[1..]), gaps);
      LaidOutAfterSpace(s, lead, gaps);
    } else {
      var n := WordLength(s);
      FieldsCover(s[n..]);
      var lead, gaps :| LaidOut(s[n..], lead, Fields(s[n..]), gaps);
      LaidOutAfterWord(s, lead, gaps);
    }
  }

  /** A leading space joins the spaces in front of the rest's layout. */
  lemma {:induction false} LaidOutAfterSpace(s: string, lead: string, gaps: seq<string>)
    requires s != [] && IsSpace(s[0]) && LaidOut(s[1..], lead, Fields(s[1..]), gaps)
    ensures LaidOut(s, [s[0]] + lead, Fields(s), gaps)
  {
    assert Fields(s) == Fields(s[1..]);
    BlankCons(s[0], lead);
    var t := Spaced(Fields(s), gaps);
    calc {
      s;
      [s[0]] + s[1..];
      [s[0]] + (lead + t);
      ([s[0]] + lead) + t;
    }
  }

  /** A space in front of blanks keeps the text blank. */
  lemma {:induction false} BlankCons(c: char, lead: string)
    requires IsSpace(c) && AllBlank(lead, false)
    ensures AllBlank([c] + lead, false)
  {
    forall k | 0 <= k < |lead| + 1 ensures Blank(([c] + lead)[k], false) {
      assert k > 0 ==> ([c] + lead)[k] == lead[k - 1];
    }
  }

  /** A leading field goes in front of the rest's layout, and the rest's leading spaces become its gap. */
  lemma {:induction false} LaidOutAfterWord(s: string, lead: string, gaps: seq<string>)
    requires s != [] && !IsSpace(s[0])
    requires LaidOut(s[WordLength(s)..], lead, Fields(s[WordLength(s)..]), gaps)
    ensures LaidOut(s, [], Fields(s), [lead] + gaps)
  {
    var n := WordLength(s);
    var w, t := s[..n], s[n..];
    var words := Fields(t);
    assert Fields(s) == [w] + words;
    assert words != [] ==> lead != [] by {
      if words != [] {
        SpacedStartsWithWord(t, lead, words, gaps);
      }
    }
    WellSpacedCons(w, words, lead, gaps);
    SpacedCons(w, words, lead, gaps);
    assert s == [] + (w + lead + Spaced(words, gaps));
  }

  /** The first character after the leading spaces of a layout is the start of its first word. */
  lemma {:induction false} SpacedStartsWithWord(t: string, lead: string, words: seq<string>, gaps: seq<string>)
    requires LaidOut(t, lead, words, gaps) && words != []
    ensures |lead| < |t| && t[|lead|] == words[0][0] && !IsSpace(t[|lead|])
  {
    assert t == lead + (words[0] + gaps[0] + Spaced(words[1..], gaps[1..]));
    assert words[0][0] in words[0];
  }

  lemma SpacedCons(w: string, words: seq<string>, g: string, gaps: seq<string>)
    requires |gaps| == |words|
    ensures Spaced([w] + words, [g] + gaps) == w + g + Spaced(words, gaps)
  {
    assert ([w] + words)[1..] == words && ([g] + gaps)[1..] == gaps;
  }

  lemma WellSpacedCons(w: string, words: seq<string>, g: string, gaps: seq<string>)
    requires WellSpaced(words, gaps) && AllBlank(g, false)
    requires w != [] && (forall c :: c in w ==> !IsSpace(c)) && (words != [] ==> g != [])
    ensures WellSpaced([w] + words, [g] + gaps)
  {
    assert forall k :: 1 <= k < |words| + 1 ==> ([w] + words)[k] == words[k - 1] && ([g] + gaps)[k] == gaps[k - 1];
  }

  /**
   * The fields are the words: laying out non-empty space-free words between runs of spaces
   * and splitting the text again gives back exactly those words, in order.
   */
  lemma {:induction false} FieldsOfSpaced(lead: string, words: seq<string>, gaps: seq<string>)
    requires AllBlank(lead, false) && WellSpaced(words, gaps)
    ensures Fields(lead + Spaced(words, gaps)) == words
  {
    FieldsSkipSpaces(lead, Spaced(words, gaps));
    FieldsOfLayout(words, gaps);
  }

  /** The same without leading spaces, by induction on the words. */
  lemma {:induction false} FieldsOfLayout(words: seq<string>, gaps: seq<string>)
    requires WellSpaced(words, gaps)
    ensures Fields(Spaced(words, gaps)) == words
    decreases |words|
  {
    if words != [] {
      var tail := Spaced(words[1..], gaps[1..]);
      assert Spaced(words, gaps) == words[0] + (gaps[0] + tail);
      GapStartsWithSpace(words, gaps);
      FieldsWord(words[0], gaps[0] + tail);
      FieldsSkipSpaces(gaps[0], tail);
      FieldsOfLayout(words[1..], gaps[1..]);
      assert [words[0]] + words[1..] == words;
    }
  }

  /** What follows the first word of a layout is empty or starts with a space; the rest is a layout too. */
  lemma {:induction false} GapStartsWithSpace(words: seq<string>, gaps: seq<string>)
    requires WellSpaced(words, gaps) && words != []
    ensures var rest := gaps[0] + Spaced(words[1..], gaps[1..]); rest == [] || IsSpace(rest[0])
    ensures WellSpaced(words[1..], gaps[1..])
  {
    var tail := Spaced(words[1..], gaps[1..]);
    assert words[1..] == [] ==> tail == [];
    assert gaps[0] != [] ==> (gaps[0] + tail)[0] == gaps[0][0];
  }
}
