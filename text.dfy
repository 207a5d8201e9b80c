/** String operations of Python's `str` that the system relies on, over
    `seq<char>`: ASCII case mapping, substring search, whitespace stripping,
    splitting on one character and literal replacement. */
module Text {

  predicate IsAsciiUpper(c: char) { 'A' <= c <= 'Z' }

  predicate IsAsciiLower(c: char) { 'a' <= c <= 'z' }

  function LowerChar(c: char): char
  {
    if IsAsciiUpper(c) then (c as int + 32) as char else c
  }

  function UpperChar(c: char): char
  {
    if IsAsciiLower(c) then (c as int - 32) as char else c
  }

  /** `s.lower()`, restricted to ASCII letters. */
  function Lower(s: string): (r: string)
    ensures |r| == |s|
    ensures forall i :: 0 <= i < |s| ==> r[i] == LowerChar(s[i])
  {
    seq(|s|, i requires 0 <= i < |s| => LowerChar(s[i]))
  }

  /** `s.upper()`, restricted to ASCII letters. */
  function Upper(s: string): (r: string)
    ensures |r| == |s|
    ensures forall i :: 0 <= i < |s| ==> r[i] == UpperChar(s[i])
  {
    seq(|s|, i requires 0 <= i < |s| => UpperChar(s[i]))
  }

  lemma UpperHasNoAsciiLower(s: string)
    ensures forall i :: 0 <= i < |Upper(s)| ==> !IsAsciiLower(Upper(s)[i])
  {
  }

  predicate IsAsciiLetter(c: char) { IsAsciiUpper(c) || IsAsciiLower(c) }

  /** One character of `str.title()`: upper-cased at the start of a word
      (after anything but a letter), lower-cased inside one. */
  function TitleChar(startsWord: bool, c: char): char
  {
    if startsWord then UpperChar(c) else LowerChar(c)
  }

  /** Position `i` of `s` starts a word. */
  predicate StartsWord(s: string, i: int)
    requires 0 <= i <= |s|
  {
    i == 0 || !IsAsciiLetter(s[i - 1])
  }

  /** `s.title()`, restricted to ASCII. */
  function Title(s: string): (r: string)
    ensures |r| == |s|
    ensures forall i :: 0 <= i < |s| ==> r[i] == TitleChar(StartsWord(s, i), s[i])
  {
    seq(|s|, i requires 0 <= i < |s| => TitleChar(StartsWord(s, i), s[i]))
  }

  /** Changing case keeps letters letters, leaves other characters alone and
      is idempotent. */
  lemma TitleCharFacts(b: bool, c: char)
    ensures IsAsciiLetter(TitleChar(b, c)) == IsAsciiLetter(c)
    ensures !IsAsciiLetter(c) ==> TitleChar(b, c) == c
    ensures TitleChar(b, TitleChar(b, c)) == TitleChar(b, c)
  {
  }

  /** Title-casing twice is title-casing once, and it leaves every
      character that is not a letter in place. */
  lemma TitleIdempotent(s: string)
    ensures Title(Title(s)) == Title(s)
    ensures forall i :: 0 <= i < |s| && !IsAsciiLetter(s[i]) ==> Title(s)[i] == s[i]
  {
    var t := Title(s);
    forall i | 0 <= i < |s| ensures Title(t)[i] == t[i] && (!IsAsciiLetter(s[i]) ==> t[i] == s[i]) {
      TitleCharFacts(StartsWord(s, i), s[i]);
      if i > 0 {
        TitleCharFacts(StartsWord(s, i - 1), s[i - 1]);
        assert IsAsciiLetter(t[i - 1]) == IsAsciiLetter(s[i - 1]);
      }
    }
  }

  predicate IsPrefix(p: string, s: string)
  {
    |p| <= |s| && s[..|p|] == p
  }

  predicate IsSuffix(p: string, s: string)
  {
    |p| <= |s| && s[|s| - |p|..] == p
  }

  /** `sub` occurs in `s` starting at index `i`. */
  predicate OccursAt(s: string, sub: string, i: int)
  {
    0 <= i && i + |sub| <= |s| && s[i..i + |sub|] == sub
  }

  /** Python's `sub in s`. */
  function Contains(s: string, sub: string): (r: bool)
    ensures r <==> exists i :: OccursAt(s, sub, i)
    decreases |s|
  {
    if IsPrefix(sub, s) then
      assert OccursAt(s, sub, 0);
      true
    else if |s| == 0 then
      assert forall i :: !OccursAt(s, sub, i);
      false
    else
      var t := s[1..];
      var r := Contains(t, sub);
      assert forall i :: OccursAt(t, sub, i) <==> OccursAt(s, sub, i + 1) by {
        forall i ensures OccursAt(t, sub, i) <==> OccursAt(s, sub, i + 1) {
          if 0 <= i && i + |sub| <= |t| {
            assert t[i..i + |sub|] == s[i + 1..i + 1 + |sub|];
          }
        }
      }
      assert !OccursAt(s, sub, 0);
      assert r ==> OccursAt(s, sub, Witness(t, sub) + 1);
      assert (exists i :: OccursAt(s, sub, i)) ==> r by {
        if exists i :: OccursAt(s, sub, i) {
          var i :| OccursAt(s, sub, i);
          assert i != 0;
          assert OccursAt(t, sub, i - 1);
        }
      }
      r
  }

  /** An index at which `sub` occurs, for use in proofs. */
  ghost function Witness(s: string, sub: string): (i: int)
    ensures (exists j :: OccursAt(s, sub, j)) ==> OccursAt(s, sub, i)
  {
    if exists j :: OccursAt(s, sub, j) then var j :| OccursAt(s, sub, j); j else 0
  }

  /** Python's whitespace (`str.isspace`): the ASCII separators and the
      Unicode space characters. */
  predicate IsSpace(c: char)
  {
    c == ' ' || ('\t' <= c <= '\r') || ('\U{1C}' <= c <= '\U{1F}') ||
    c == '\U{85}' || c == '\U{A0}' || c == '\U{1680}' || ('\U{2000}' <= c <= '\U{200A}') ||
    c == '\U{2028}' || c == '\U{2029}' || c == '\U{202F}' || c == '\U{205F}' || c == '\U{3000}'
  }

  predicate AllSpace(s: string)
  {
    forall i :: 0 <= i < |s| ==> IsSpace(s[i])
  }

  function TrimLeft(s: string): (r: string)
    ensures IsSuffix(r, s) && AllSpace(s[..|s| - |r|])
    ensures r == [] || !IsSpace(r[0])
    decreases |s|
  {
    if |s| > 0 && IsSpace(s[0]) then
      var r := TrimLeft(s[1..]);
      assert s[..|s| - |r|] == [s[0]] + s[1..][..|s[1..]| - |r|];
      r
    else s
  }

  function TrimRight(s: string): (r: string)
    ensures IsPrefix(r, s) && AllSpace(s[|r|..])
    ensures r == [] || !IsSpace(r[|r| - 1])
    decreases |s|
  {
    if |s| > 0 && IsSpace(s[|s| - 1]) then
      var r := TrimRight(s[..|s| - 1]);
      assert s[|r|..] == s[..|s| - 1][|r|..] + [s[|s| - 1]];
      r
    else s
  }

  /** `s.strip()`: the contiguous middle of `s` left after removing leading
      and trailing whitespace. */
  function Strip(s: string): (r: string)
    ensures exists i, j :: 0 <= i <= j <= |s| && r == s[i..j] && AllSpace(s[..i]) && AllSpace(s[j..])
    ensures r == [] || (!IsSpace(r[0]) && !IsSpace(r[|r| - 1]))
    ensures r == [] <==> AllSpace(s)
  {
    var l := TrimLeft(s);
    var r := TrimRight(l);
    StripIsMiddle(s, l, r);
    r
  }

  /** A prefix `r` of a suffix `l` of `s` is the slice of `s` from
      `|s| - |l|`; what surrounds it is whitespace when what `l` drops
      and what `r` drops are. */
  lemma StripIsSlice(s: string, l: string, r: string)
    requires IsSuffix(l, s) && AllSpace(s[..|s| - |l|])
    requires IsPrefix(r, l) && AllSpace(l[|r|..])
    ensures |s| - |l| + |r| <= |s|
    ensures r == s[|s| - |l|..|s| - |l| + |r|]
    ensures AllSpace(s[..|s| - |l|]) && AllSpace(s[|s| - |l| + |r|..])
  {
    var i := |s| - |l|;
    var j := i + |r|;
    assert s[i..j] == l[..|r|];
    assert s[j..] == l[|r|..];
  }

  /** The stripped middle is empty exactly when `s` is all whitespace. */
  lemma StripIsMiddle(s: string, l: string, r: string)
    requires IsSuffix(l, s) && AllSpace(s[..|s| - |l|]) && (l == [] || !IsSpace(l[0]))
    requires IsPrefix(r, l) && AllSpace(l[|r|..])
    ensures exists i, j :: 0 <= i <= j <= |s| && r == s[i..j] && AllSpace(s[..i]) && AllSpace(s[j..])
    ensures r == [] <==> AllSpace(s)
  {
    StripIsSlice(s, l, r);
    var i := |s| - |l|;
    var j := i + |r|;
    if r == [] {
      assert AllSpace(l[|r|..]);
      assert l == [];
      assert s[..i] == s;
    } else {
      assert s[i] == s[i..j][0] == r[0];
      assert !AllSpace(s);
    }
  }

  /** Concatenate `parts` with `sep` between consecutive parts. */
  function Join(parts: seq<string>, sep: char): string
    decreases |parts|
  {
    if |parts| == 0 then ""
    else if |parts| == 1 then parts[0]
    else parts[0] + [sep] + Join(parts[1..], sep)
  }

  /** `s.split(sep)` for a one-character separator: the maximal runs
      between separators, including empty ones; never an empty list. */
  function Split(s: string, sep: char): (r: seq<string>)
    ensures |r| >= 1
    ensures Join(r, sep) == s
    ensures forall k :: 0 <= k < |r| ==> sep !in r[k]
    decreases |s|
  {
    if |s| == 0 then [""]
    else
      var rest := Split(s[1..], sep);
      if s[0] == sep then
        assert s == "" + [sep] + s[1..];
        [""] + rest
      else
        var r := [[s[0]] + rest[0]] + rest[1..];
        assert r[1..] == rest[1..];
        assert Join(r, sep) == s by {
          if |rest| == 1 {
          } else {
            assert Join(rest, sep) == rest[0] + [sep] + Join(rest[1..], sep);
          }
        }
        r
  }

  /** Splitting at the first separator: the part before it comes first. */
  lemma {:induction false} SplitAtFirst(a: string, sep: char, b: string)
    requires sep !in a
    ensures Split(a + [sep] + b, sep) == [a] + Split(b, sep)
    decreases |a|
  {
    if |a| == 0 {
      assert a + [sep] + b == [sep] + b;
      assert ([sep] + b)[1..] == b;
    } else {
      assert (a + [sep] + b)[1..] == a[1..] + [sep] + b;
      SplitAtFirst(a[1..], sep, b);
      assert [a[0]] + a[1..] == a;
    }
  }

  /** A string without the separator splits into itself alone. */
  lemma {:induction false} SplitNoSeparator(a: string, sep: char)
    requires sep !in a
    ensures Split(a, sep) == [a]
    decreases |a|
  {
    if |a| > 0 {
      SplitNoSeparator(a[1..], sep);
      assert [a[0]] + a[1..] == a;
    }
  }

  /** `re.sub(re.escape(pat), rep, s)`: every non-overlapping occurrence of
      `pat`, scanned left to right, replaced by `rep`. */
  function Replace(s: string, pat: string, rep: string): string
    requires |pat| > 0
    decreases |s|
  {
    if |s| < |pat| then s
    else if s[..|pat|] == pat then rep + Replace(s[|pat|..], pat, rep)
    else [s[0]] + Replace(s[1..], pat, rep)
  }

  /** The number of replacements `Replace` makes. */
  function Occurrences(s: string, pat: string): nat
    requires |pat| > 0
    decreases |s|
  {
    if |s| < |pat| then 0
    else if s[..|pat|] == pat then 1 + Occurrences(s[|pat|..], pat)
    else Occurrences(s[1..], pat)
  }

  /** Each replacement changes the length by `|rep| - |pat|`. */
  lemma {:induction false} ReplaceLength(s: string, pat: string, rep: string)
    requires |pat| > 0
    ensures |Replace(s, pat, rep)| == |s| + Occurrences(s, pat) * (|rep| - |pat|)
    decreases |s|
  {
    var d := |rep| - |pat|;
    if |s| < |pat| {
    } else if s[..|pat|] == pat {
      var t := s[|pat|..];
      ReplaceLength(t, pat, rep);
      assert |Replace(s, pat, rep)| == |rep| + |Replace(t, pat, rep)|;
      assert Occurrences(s, pat) == 1 + Occurrences(t, pat);
      SuccTimes(Occurrences(t, pat), d);
    } else {
      ReplaceLength(s[1..], pat, rep);
      assert |Replace(s, pat, rep)| == 1 + |Replace(s[1..], pat, rep)|;
      assert Occurrences(s, pat) == Occurrences(s[1..], pat);
    }
  }

  lemma SuccTimes(n: int, d: int)
    ensures (1 + n) * d == d + n * d
  {
  }

  /** The scan finds an occurrence exactly when `pat` occurs in `s`. */
  lemma {:induction false} OccurrencesPositive(s: string, pat: string)
    requires |pat| > 0
    ensures Occurrences(s, pat) > 0 <==> Contains(s, pat)
    decreases |s|
  {
    if |s| < |pat| {
      assert !IsPrefix(pat, s);
      assert |s| > 0 ==> !Contains(s[1..], pat);
    } else if s[..|pat|] == pat {
      assert IsPrefix(pat, s);
    } else {
      OccurrencesPositive(s[1..], pat);
    }
  }

  /** Without an occurrence of `pat`, replacing changes nothing. */
  lemma {:induction false} ReplaceAbsent(s: string, pat: string, rep: string)
    requires |pat| > 0
    requires !Contains(s, pat)
    ensures Replace(s, pat, rep) == s
    decreases |s|
  {
    if |s| >= |pat| {
      assert !IsPrefix(pat, s);
      ReplaceAbsent(s[1..], pat, rep);
      assert [s[0]] + s[1..] == s;
    }
  }

  /** A replacement that is longer than the pattern changes the string
      exactly when the pattern occurs. */
  lemma ReplaceChanges(s: string, pat: string, rep: string)
    requires 0 < |pat| < |rep|
    ensures Replace(s, pat, rep) != s <==> Contains(s, pat)
  {
    OccurrencesPositive(s, pat);
    if Contains(s, pat) {
      ReplaceLength(s, pat, rep);
      var n, d := Occurrences(s, pat), |rep| - |pat|;
      MulAtLeast(n, d);
      assert |Replace(s, pat, rep)| > |s|;
    } else {
      ReplaceAbsent(s, pat, rep);
    }
  }

  lemma MulAtLeast(n: int, d: int)
    requires n >= 1 && d > 0
    ensures n * d > 0
  {
  }

  /** Lexicographic order on strings by character code (SQLite's BINARY
      collation). */
  predicate LexLe(a: string, b: string)
    decreases |a|
  {
    if |a| == 0 then true
    else if |b| == 0 then false
    else if a[0] != b[0] then a[0] < b[0]
    else LexLe(a[1..], b[1..])
  }

  lemma {:induction false} LexLeTotal(a: string, b: string)
    ensures LexLe(a, b) || LexLe(b, a)
    decreases |a|
  {
    if |a| > 0 && |b| > 0 && a[0] == b[0] { LexLeTotal(a[1..], b[1..]); }
  }

  lemma {:induction false} LexLeTransitive(a: string, b: string, c: string)
    requires LexLe(a, b) && LexLe(b, c)
    ensures LexLe(a, c)
    decreases |a|
  {
    if |a| > 0 && |b| > 0 && |c| > 0 && a[0] == b[0] && b[0] == c[0] {
      LexLeTransitive(a[1..], b[1..], c[1..]);
    }
  }
}
