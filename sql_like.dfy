/**
 * PostgreSQL's LIKE and ILIKE, as used by the storage's search.
 *
 * In a LIKE pattern `%` matches any run of characters, `_` matches exactly one
 * character, and the default escape character `\` makes the next pattern
 * character literal. ILIKE folds both sides to lower case first.
 */
module SqlLike {
  import opened Text

  const Escape: char := '\\'

  /** `s LIKE p`. PostgreSQL rejects a pattern that ends in a lone escape
      character; here such a trailing `\` is read as a literal. The patterns the
      storage builds always end in `%`, so they never end in a lone escape. */
  predicate Like(s: string, p: string)
    decreases |s| + |p|
  {
    if p == [] then s == []
    else if p[0] == '%' then Like(s, p[1..]) || (s != [] && Like(s[1..], p))
    else if p[0] == '_' then s != [] && Like(s[1..], p[1..])
    else if p[0] == Escape && |p| >= 2 then s != [] && s[0] == p[1] && Like(s[1..], p[2..])
    else s != [] && s[0] == p[0] && Like(s[1..], p[1..])
  }

  /** `s ILIKE p`. */
  predicate ILike(s: string, p: string)
  {
    Like(Lower(s), Lower(p))
  }

  /** A pattern without wildcard or escape characters: LIKE reads it literally. */
  predicate IsPlain(p: string)
  {
    forall i :: 0 <= i < |p| ==> p[i] != '%' && p[i] != '_' && p[i] != Escape
  }

  /** A lone `%` matches every string. */
  lemma {:induction false} PercentMatchesAll(s: string)
    ensures Like(s, "%")
  {
    if s != [] {
      PercentMatchesAll(s[1..]);
    }
  }

  /** A plain pattern followed by `%` matches exactly the strings it is a prefix of. */
  lemma {:induction false} PlainPrefix(s: string, p: string)
    requires IsPlain(p)
    ensures Like(s, p + "%") <==> |p| <= |s| && s[..|p|] == p
  {
    if p == [] {
      PercentMatchesAll(s);
      assert p + "%" == "%";
    } else {
      assert (p + "%")[1..] == p[1..] + "%";
      if s != [] {
        PlainPrefix(s[1..], p[1..]);
        if |p| <= |s| && s[..|p|] == p {
          assert s[1..][..|p| - 1] == s[..|p|][1..];
        }
        if |p| <= |s| && s[0] == p[0] && s[1..][..|p| - 1] == p[1..] {
          assert s[..|p|] == [s[0]] + s[1..][..|p| - 1];
        }
      }
    }
  }

  /** A leading `%` lets the rest of the pattern match any suffix. */
  lemma {:induction false} LeadingPercent(s: string, r: string)
    ensures Like(s, "%" + r) <==> exists i :: 0 <= i <= |s| && Like(s[i..], r)
  {
    assert ("%" + r)[1..] == r;
    if s == [] {
      assert s[0..] == s;
    } else {
      LeadingPercent(s[1..], r);
      if exists i :: 0 <= i <= |s| && Like(s[i..], r) {
        var i :| 0 <= i <= |s| && Like(s[i..], r);
        if i > 0 {
          assert s[1..][i - 1..] == s[i..];
        } else {
          assert s[0..] == s;
        }
      }
      if exists j :: 0 <= j <= |s[1..]| && Like(s[1..][j..], r) {
        var j :| 0 <= j <= |s[1..]| && Like(s[1..][j..], r);
        assert s[1..][j..] == s[j + 1..];
      }
    }
  }

  /** `s LIKE '%' || p || '%'` is plain substring containment when `p` is plain. */
  lemma LikeInfixIsContains(s: string, p: string)
    requires IsPlain(p)
    ensures Like(s, "%" + p + "%") <==> Contains(s, p)
  {
    assert "%" + p + "%" == "%" + (p + "%");
    LeadingPercent(s, p + "%");
    if Contains(s, p) {
      var i :| 0 <= i <= |s| && OccursAt(s, p, i);
      PlainPrefix(s[i..], p);
      assert s[i..][..|p|] == s[i..i + |p|];
    }
    if exists i :: 0 <= i <= |s| && Like(s[i..], p + "%") {
      var i :| 0 <= i <= |s| && Like(s[i..], p + "%");
      PlainPrefix(s[i..], p);
      assert s[i..][..|p|] == s[i..i + |p|];
      assert OccursAt(s, p, i);
    }
  }
}
