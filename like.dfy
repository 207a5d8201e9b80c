/** SQL `LIKE` matching and SQLAlchemy's `ilike`, which SQLite receives as
    `lower(column) LIKE lower(pattern)`: `%` matches any run of characters,
    `_` any single character, every other character itself.  The service
    filters wrap the search text as `%text%`, so a search free of wildcards
    is a case-insensitive substring test. */
module Like {
  import opened Text

  predicate IsWildcard(c: char) { c == '%' || c == '_' }

  predicate NoWildcards(t: string)
  {
    forall k :: 0 <= k < |t| ==> !IsWildcard(t[k])
  }

  /** `s LIKE p`. */
  predicate Like(s: string, p: string)
    decreases |s| + |p|
  {
    if |p| == 0 then |s| == 0
    else if p[0] == '%' then Like(s, p[1..]) || (|s| > 0 && Like(s[1..], p))
    else |s| > 0 && (p[0] == '_' || p[0] == s[0]) && Like(s[1..], p[1..])
  }

  /** `column.ilike(f"%{t}%")`. */
  predicate ILikeContains(s: string, t: string)
  {
    Like(Lower(s), Lower("%" + t + "%"))
  }

  /** A trailing `%` matches whatever is left. */
  lemma {:induction false} LikeAnyRest(s: string)
    ensures Like(s, "%")
    decreases |s|
  {
    if |s| > 0 {
      LikeAnyRest(s[1..]);
    }
  }

  /** A wildcard-free `t` followed by `%` matches exactly the strings that
      start with `t`. */
  lemma {:induction false} LikeLiteralPrefix(s: string, t: string)
    requires NoWildcards(t)
    ensures Like(s, t + "%") <==> IsPrefix(t, s)
    decreases |t|
  {
    if |t| == 0 {
      assert t + "%" == "%";
      LikeAnyRest(s);
    } else {
      assert (t + "%")[1..] == t[1..] + "%";
      assert !IsWildcard(t[0]);
      if |s| > 0 {
        LikeLiteralPrefix(s[1..], t[1..]);
        if IsPrefix(t, s) {
          assert s[1..][..|t| - 1] == s[..|t|][1..];
        }
        if s[0] == t[0] && IsPrefix(t[1..], s[1..]) {
          assert s[..|t|] == [s[0]] + s[1..][..|t| - 1];
        }
      }
    }
  }

  /** A leading `%` lets the rest match at any position. */
  lemma {:induction false} LikeLeadingPercent(s: string, q: string)
    ensures Like(s, "%" + q) <==> exists i :: 0 <= i <= |s| && Like(s[i..], q)
    decreases |s|
  {
    assert ("%" + q)[1..] == q;
    if Like(s, q) {
      assert s[0..] == s;
    }
    if |s| > 0 {
      LikeLeadingPercent(s[1..], q);
      forall i | 1 <= i <= |s| ensures s[1..][i - 1..] == s[i..] { }
      if exists i :: 0 <= i <= |s| && Like(s[i..], q) {
        var i :| 0 <= i <= |s| && Like(s[i..], q);
        if i > 0 {
          assert Like(s[1..][i - 1..], q);
        } else {
          assert s[0..] == s;
        }
      }
      if Like(s[1..], "%" + q) {
        var i :| 0 <= i <= |s[1..]| && Like(s[1..][i..], q);
        assert s[1..][i..] == s[i + 1..];
      }
    } else {
      if exists i :: 0 <= i <= |s| && Like(s[i..], q) {
        var i :| 0 <= i <= |s| && Like(s[i..], q);
        assert s[i..] == s;
      }
    }
  }

  /** Lower-casing leaves `%` and `_` alone and makes no new ones. */
  lemma LowerWildcards(t: string)
    ensures NoWildcards(t) <==> NoWildcards(Lower(t))
    ensures Lower("%" + t + "%") == "%" + Lower(t) + "%"
  {
    forall k | 0 <= k < |t| ensures IsWildcard(t[k]) <==> IsWildcard(Lower(t)[k]) { }
    assert Lower("%" + t + "%") == "%" + Lower(t) + "%";
  }

  /** The `ilike` filters are a case-insensitive substring test when the
      search has no wildcard in it. */
  lemma ILikeIsContains(s: string, t: string)
    requires NoWildcards(t)
    ensures ILikeContains(s, t) <==> Contains(Lower(s), Lower(t))
  {
    var ls, lt := Lower(s), Lower(t);
    LowerWildcards(t);
    assert "%" + lt + "%" == "%" + (lt + "%");
    LikeLeadingPercent(ls, lt + "%");
    if ILikeContains(s, t) {
      var i :| 0 <= i <= |ls| && Like(ls[i..], lt + "%");
      LikeLiteralPrefix(ls[i..], lt);
      assert ls[i..][..|lt|] == ls[i..i + |lt|];
      assert OccursAt(ls, lt, i);
    }
    if Contains(ls, lt) {
      var i :| OccursAt(ls, lt, i);
      LikeLiteralPrefix(ls[i..], lt);
      assert ls[i..][..|lt|] == ls[i..i + |lt|];
    }
  }

  /** `%` inside the search text is a wildcard: searching for `"a%c"` finds
      `"abc"`, which does not contain `"a%c"`. */
  lemma PercentInSearchIsWildcard()
    ensures ILikeContains("abc", "a%c")
    ensures !Contains("abc", "a%c")
  {
    assert Lower("%a%c%") == "%a%c%";
    assert Lower("abc") == "abc";
    assert "%" + "a%c" + "%" == "%a%c%";
    assert Like("", "");
    assert Like("", "%");
    assert Like("c", "c%") by { assert "c%"[1..] == "%"; assert "c"[1..] == ""; }
    assert Like("c", "%c%") by { assert "%c%"[1..] == "c%"; }
    assert Like("bc", "%c%") by { assert "bc"[1..] == "c"; }
    assert Like("abc", "a%c%") by { assert "a%c%"[1..] == "%c%"; assert "abc"[1..] == "bc"; }
    assert Like("abc", "%a%c%") by { assert "%a%c%"[1..] == "a%c%"; }
    assert !OccursAt("abc", "a%c", 0);
    assert forall i :: !OccursAt("abc", "a%c", i);
  }
}
