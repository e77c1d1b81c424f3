/** Values shared by every component: the optional and failure-carrying
    wrappers, and the handful of .NET string and path operations (Trim, Split,
    StartsWith, IndexOf, Join, Path.Combine, integer formatting) that the core
    relies on, written out with the semantics the .NET base library gives them. */
module Common {

  datatype Option<+T> = None | Some(value: T)

  /** A value, or the exception that an operation would have raised instead. */
  datatype Result<+T, +E> = Ok(value: T) | Err(error: E)

  /** Char.IsWhiteSpace: the Unicode space separators, line and paragraph
      separators, and the control characters U+0009-U+000D, U+0085. */
  predicate IsWhiteSpace(c: char)
  {
    ('\t' <= c <= '\r') || c == ' ' || c == '\U{0085}' || c == '\U{00A0}' || c == '\U{1680}'
    || ('\U{2000}' <= c <= '\U{200A}') || c == '\U{2028}' || c == '\U{2029}'
    || c == '\U{202F}' || c == '\U{205F}' || c == '\U{3000}'
  }

  /** String.IsNullOrWhiteSpace; None stands for a null reference. */
  predicate IsNullOrWhiteSpace(s: Option<string>)
  {
    s.None? || forall i :: 0 <= i < |s.value| ==> IsWhiteSpace(s.value[i])
  }

  /** The character sets handed to String.Trim(params char[]) in the core. */
  predicate IsSpaceOrQuote(c: char) { c == ' ' || c == '\'' }
  predicate IsSpaceQuoteOrBracket(c: char) { c == ' ' || c == '\'' || c == '[' || c == ']' }
  predicate IsSpaceOrLineBreak(c: char) { c == ' ' || c == '\r' || c == '\n' }

  /** Leading characters satisfying strip removed. */
  function TrimStart(s: string, strip: char -> bool): (r: string)
    ensures |r| <= |s| && r == s[|s| - |r|..]
    ensures forall i :: 0 <= i < |s| - |r| ==> strip(s[i])
    ensures |r| > 0 ==> !strip(r[0])
    decreases |s|
  {
    if |s| > 0 && strip(s[0]) then TrimStart(s[1..], strip) else s
  }

  /** Trailing characters satisfying strip removed. */
  function TrimEnd(s: string, strip: char -> bool): (r: string)
    ensures |r| <= |s| && r == s[..|r|]
    ensures forall i :: |r| <= i < |s| ==> strip(s[i])
    ensures |r| > 0 ==> !strip(r[|r| - 1])
    decreases |s|
  {
    if |s| > 0 && strip(s[|s| - 1]) then TrimEnd(s[..|s| - 1], strip) else s
  }

  /** String.Trim with the given character set: both ends stripped, the
      middle kept as it is. */
  function Trim(s: string, strip: char -> bool): (r: string)
    ensures |r| <= |s|
    ensures |r| > 0 ==> !strip(r[0]) && !strip(r[|r| - 1])
  {
    TrimEnd(TrimStart(s, strip), strip)
  }

  /** Trimming a string with nothing to strip keeps it whole. */
  lemma TrimKeepsUnstripped(s: string, strip: char -> bool)
    requires forall i :: 0 <= i < |s| ==> !strip(s[i])
    ensures TrimStart(s, strip) == s && TrimEnd(s, strip) == s && Trim(s, strip) == s
  {
    if |s| > 0 {
      assert !strip(s[0]) && !strip(s[|s| - 1]);
    }
  }

  /** Trimming one stripped character off a string with nothing else to
      strip leaves that string. */
  lemma TrimOneStripped(c: char, tail: string, strip: char -> bool)
    requires strip(c)
    requires forall i :: 0 <= i < |tail| ==> !strip(tail[i])
    ensures Trim([c] + tail, strip) == tail
  {
    assert ([c] + tail)[1..] == tail;
    TrimKeepsUnstripped(tail, strip);
  }

  lemma {:induction false} TrimEmptyIffAllStripped(s: string, strip: char -> bool)
    ensures Trim(s, strip) == [] <==> forall i :: 0 <= i < |s| ==> strip(s[i])
  {
    var t := TrimStart(s, strip);
    if Trim(s, strip) == [] {
      if |t| > 0 {
        assert false;
      }
    } else {
      var r := Trim(s, strip);
      assert !strip(r[0]);
    }
  }

  /** Whether text begins with prefix. */
  predicate StartsWith(text: string, prefix: string)
  {
    |prefix| <= |text| && text[..|prefix|] == prefix
  }

  /** Whether text ends with suffix (ordinal comparison). */
  predicate EndsWith(text: string, suffix: string)
  {
    |suffix| <= |text| && text[|text| - |suffix|..] == suffix
  }

  /** Char.ToUpperInvariant on the ASCII letters, the only letters the core
      compares case-insensitively. */
  function AsciiUpper(c: char): char
  {
    if 'a' <= c <= 'z' then (c as int - 32) as char else c
  }

  /** String comparison under StringComparison.OrdinalIgnoreCase (ASCII folding). */
  predicate EqualsIgnoreCase(a: string, b: string)
  {
    |a| == |b| && forall i :: 0 <= i < |a| ==> AsciiUpper(a[i]) == AsciiUpper(b[i])
  }

  lemma EqualsIgnoreCaseReflexive(a: string)
    ensures EqualsIgnoreCase(a, a)
  {
  }

  predicate StartsWithIgnoreCase(text: string, prefix: string)
  {
    |prefix| <= |text| && EqualsIgnoreCase(text[..|prefix|], prefix)
  }

  /** Whether pattern occurs in text at position i. */
  predicate OccursAt(text: string, pattern: string, i: int)
  {
    0 <= i && i + |pattern| <= |text| && text[i..i + |pattern|] == pattern
  }

  /** String.IndexOf(string): the first position of pattern, or -1. */
  function IndexOf(text: string, pattern: string): (r: int)
    ensures -1 <= r <= |text|
    ensures r >= 0 ==> OccursAt(text, pattern, r)
    ensures forall j :: 0 <= j < r || (r == -1 && 0 <= j) ==> !OccursAt(text, pattern, j)
  {
    IndexOfFrom(text, pattern, 0)
  }

  function IndexOfFrom(text: string, pattern: string, from: nat): (r: int)
    requires from <= |text|
    ensures r == -1 || from <= r <= |text|
    ensures r >= 0 ==> OccursAt(text, pattern, r)
    ensures forall j :: from <= j && (j < r || r == -1) ==> !OccursAt(text, pattern, j)
    decreases |text| - from
  {
    if OccursAt(text, pattern, from) then from
    else if from == |text| then -1
    else IndexOfFrom(text, pattern, from + 1)
  }

  /** String.LastIndexOf(char): the last position of c, or -1. */
  function LastIndexOf(s: string, c: char): (r: int)
    ensures -1 <= r < |s|
    ensures r >= 0 ==> s[r] == c
    ensures forall j :: r < j < |s| ==> s[j] != c
    decreases |s|
  {
    if |s| == 0 then -1
    else if s[|s| - 1] == c then |s| - 1
    else LastIndexOf(s[..|s| - 1], c)
  }

  /** String.Replace(string, string) for a one-character pattern: every
      occurrence of c replaced by the text with. */
  function ReplaceChar(s: string, c: char, with: string): (r: string)
    ensures c !in with ==> c !in r
    ensures c !in s ==> r == s
  {
    if |s| == 0 then []
    else (if s[0] == c then with else [s[0]]) + ReplaceChar(s[1..], c, with)
  }

  /** String.Join(separator, parts). */
  function Join(parts: seq<string>, sep: string): string
  {
    if |parts| == 0 then []
    else if |parts| == 1 then parts[0]
    else parts[0] + sep + Join(parts[1..], sep)
  }

  /** String.Split(char[]) without options: every piece, empty ones included. */
  function SplitAll(s: string, delims: set<char>): (r: seq<string>)
    ensures |r| >= 1
    decreases |s|
  {
    if |s| == 0 then [[]]
    else
      var rest := SplitAll(s[1..], delims);
      if s[0] in delims then [[]] + rest
      else [[s[0]] + rest[0]] + rest[1..]
  }

  /** Joining the pieces of a split on one separator gives back the text. */
  lemma {:induction false} SplitAllJoin(s: string, d: char)
    ensures Join(SplitAll(s, {d}), [d]) == s
    decreases |s|
  {
    if |s| > 0 {
      var rest := SplitAll(s[1..], {d});
      SplitAllJoin(s[1..], d);
      if s[0] == d {
        assert SplitAll(s, {d}) == [[]] + rest;
        assert s == [d] + s[1..];
      } else {
        if |rest| == 1 {
          assert SplitAll(s, {d}) == [[s[0]] + rest[0]];
        } else {
          assert SplitAll(s, {d})[1..] == rest[1..];
        }
      }
    }
  }

  /** The pieces of s between separators 'd', when none of them holds d. */
  lemma {:induction false} SplitAllOfJoin(parts: seq<string>, d: char)
    requires |parts| >= 1
    requires forall k :: 0 <= k < |parts| ==> d !in parts[k]
    ensures SplitAll(Join(parts, [d]), {d}) == parts
    decreases |parts|, |parts[0]|
  {
    if |parts[0]| > 0 {
      var p0 := parts[0][1..];
      var parts' := [p0] + parts[1..];
      SplitAllOfJoin(parts', d);
      if |parts| == 1 {
        var j := Join(parts, [d]);
        assert j == parts[0] && Join(parts', [d]) == p0;
        assert j[0] == parts[0][0] && j[1..] == p0;
        assert SplitAll(j, {d}) == [[parts[0][0]] + parts'[0]] + parts'[1..];
        assert [parts[0][0]] + p0 == parts[0];
      } else {
        var j := Join(parts, [d]);
        assert parts'[1..] == parts[1..];
        assert Join(parts', [d]) == p0 + [d] + Join(parts[1..], [d]);
        assert j == [parts[0][0]] + Join(parts', [d]);
        assert j[0] == parts[0][0] && j[1..] == Join(parts', [d]);
        assert SplitAll(j, {d}) == [[parts[0][0]] + parts'[0]] + parts'[1..];
        assert [parts[0][0]] + p0 == parts[0];
      }
    } else if |parts| > 1 {
      SplitAllOfJoin(parts[1..], d);
      var j := Join(parts, [d]);
      assert j == [d] + Join(parts[1..], [d]);
      assert j[1..] == Join(parts[1..], [d]);
    }
  }

  /** A text holding none of the delimiters splits into itself alone. */
  lemma {:induction false} SplitAllWithoutDelimiters(s: string, delims: set<char>)
    requires forall i :: 0 <= i < |s| ==> s[i] !in delims
    ensures SplitAll(s, delims) == [s]
    decreases |s|
  {
    if |s| > 0 {
      SplitAllWithoutDelimiters(s[1..], delims);
      assert [s[0]] + s[1..] == s;
    }
  }

  /** ... and so does a non-empty one when empty pieces are removed. */
  lemma SplitNonEmptyWithoutDelimiters(s: string, delims: set<char>)
    requires |s| > 0
    requires forall i :: 0 <= i < |s| ==> s[i] !in delims
    ensures SplitNonEmpty(s, delims) == [s]
  {
    SplitAllWithoutDelimiters(s, delims);
    assert [s][1..] == [];
    assert NonEmpty([s]) == [s] + NonEmpty([]);
  }

  /** String.Split(char[], StringSplitOptions.RemoveEmptyEntries). */
  function SplitNonEmpty(s: string, delims: set<char>): (r: seq<string>)
    ensures forall k :: 0 <= k < |r| ==> |r[k]| > 0
  {
    NonEmpty(SplitAll(s, delims))
  }

  function NonEmpty(pieces: seq<string>): (r: seq<string>)
    ensures forall k :: 0 <= k < |r| ==> |r[k]| > 0
  {
    if |pieces| == 0 then []
    else if |pieces[0]| == 0 then NonEmpty(pieces[1..])
    else [pieces[0]] + NonEmpty(pieces[1..])
  }

  /** Enumerable.Distinct: the first occurrence of every element, in order. */
  function Distinct<T(==,!new)>(s: seq<T>): (r: seq<T>)
    ensures forall x :: x in r <==> x in s
    ensures forall i, j :: 0 <= i < j < |r| ==> r[i] != r[j]
  {
    DistinctAfter(s, {})
  }

  function DistinctAfter<T(==,!new)>(s: seq<T>, seen: set<T>): (r: seq<T>)
    ensures forall x :: x in r <==> x in s && x !in seen
    ensures forall i, j :: 0 <= i < j < |r| ==> r[i] != r[j]
    decreases |s|
  {
    if |s| == 0 then []
    else if s[0] in seen then DistinctAfter(s[1..], seen)
    else [s[0]] + DistinctAfter(s[1..], seen + {s[0]})
  }

  predicate IsDigit(c: char) { '0' <= c <= '9' }

  predicate AllDigits(s: string)
  {
    forall i :: 0 <= i < |s| ==> IsDigit(s[i])
  }

  /** A non-empty run of decimal digits. */
  predicate IsDigits(s: string)
  {
    |s| > 0 && AllDigits(s)
  }

  /** The value of a string of decimal digits. */
  function DecimalValue(s: string): nat
    requires AllDigits(s)
    decreases |s|
  {
    if |s| == 0 then 0
    else
      var last := s[|s| - 1];
      assert IsDigit(last);
      DecimalValue(s[..|s| - 1]) * 10 + (last as int - '0' as int)
  }

  /** Int32.ToString() of a non-negative value: its decimal digits, without
      leading zeros. */
  function NatToDecimal(n: nat): (r: string)
    ensures IsDigits(r)
    ensures DecimalValue(r) == n
    ensures |r| > 1 ==> r[0] != '0'
    decreases n
  {
    var d := [('0' as int + n % 10) as char];
    if n < 10 then d
    else
      var p := NatToDecimal(n / 10);
      assert (p + d)[..|p + d| - 1] == p;
      p + d
  }

  /** Int32.ToString() under the invariant culture. */
  function IntToDecimal(n: int): (r: string)
    ensures 0 <= n ==> r == NatToDecimal(n)
    ensures n < 0 ==> r == "-" + NatToDecimal(-n)
  {
    if n < 0 then "-" + NatToDecimal(-n) else NatToDecimal(n)
  }

  /** A text between double quotes, as the command lines are written. */
  function Quoted(s: string): (r: string)
    ensures |r| == |s| + 2 && r[0] == '"' && r[|r| - 1] == '"' && r[1..|r| - 1] == s
  {
    "\"" + s + "\""
  }

  /** Path.Combine(path1, path2) for a relative path2 (every second argument
      in the core is a fixed relative name): a backslash is inserted unless
      path1 is empty or already ends in a separator. */
  function PathCombine(path1: string, path2: string): (r: string)
    ensures path1 == [] ==> r == path2
    ensures EndsWith(r, path2) && StartsWith(r, path1)
  {
    if |path1| == 0 then path2
    else if path1[|path1| - 1] in {'\\', '/', ':'} then path1 + path2
    else path1 + "\\" + path2
  }
}
