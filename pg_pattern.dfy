/** The `ilike` filter the review script sends through the Supabase client:
    PostgreSQL's ILIKE (section 9.7.1 of the PostgreSQL manual), where `%`
    matches any run of characters, `_` any one character and a backslash
    makes the next character literal, compared without regard to case.
    The REST layer in between also accepts `*` for `%`. Case is folded for
    ASCII letters only. */
module PgPattern {

  function FoldCase(c: char): char
  {
    if 'A' <= c <= 'Z' then (c as int + 32) as char else c
  }

  predicate IsWildcard(c: char)
  {
    c == '%' || c == '*'
  }

  /** Whether `s` matches the pattern `p`. */
  predicate ILike(s: string, p: string)
    decreases |s| + |p|
  {
    if p == [] then s == []
    else if IsWildcard(p[0]) then ILike(s, p[1..]) || (s != [] && ILike(s[1..], p))
    else if p[0] == '_' then s != [] && ILike(s[1..], p[1..])
    else if p[0] == '\\' && |p| >= 2 then s != [] && FoldCase(s[0]) == FoldCase(p[1]) && ILike(s[1..], p[2..])
    else s != [] && FoldCase(s[0]) == FoldCase(p[0]) && ILike(s[1..], p[1..])
  }

  /** A character that means nothing special in a pattern. */
  predicate Plain(c: char)
  {
    !IsWildcard(c) && c != '_' && c != '\\'
  }

  /** The two strings agree on their first `n` characters, ignoring case. */
  predicate SameStartIgnoringCase(s: string, q: string)
  {
    |q| <= |s| && forall i :: 0 <= i < |q| ==> FoldCase(s[i]) == FoldCase(q[i])
  }

  lemma {:induction false} EverythingMatchesWildcard(s: string)
    ensures ILike(s, "%")
  {
    if s != [] {
      EverythingMatchesWildcard(s[1..]);
    }
  }

  /** `ilike('id', prefix + '%')` with a prefix free of special characters
      selects exactly the strings that start with the prefix, ignoring case. */
  lemma {:induction false} PrefixPatternMatchesPrefixes(s: string, q: string)
    requires forall i :: 0 <= i < |q| ==> Plain(q[i])
    ensures ILike(s, q + "%") <==> SameStartIgnoringCase(s, q)
  {
    if q == [] {
      assert q + "%" == "%";
      EverythingMatchesWildcard(s);
    } else {
      assert (q + "%")[1..] == q[1..] + "%";
      if s != [] {
        PrefixPatternMatchesPrefixes(s[1..], q[1..]);
        if SameStartIgnoringCase(s, q) {
          assert SameStartIgnoringCase(s[1..], q[1..]) by {
            forall i | 0 <= i < |q[1..]| ensures FoldCase(s[1..][i]) == FoldCase(q[1..][i]) {
              assert s[1..][i] == s[i + 1];
            }
          }
        }
        if ILike(s, q + "%") {
          assert SameStartIgnoringCase(s, q) by {
            forall i | 0 <= i < |q| ensures FoldCase(s[i]) == FoldCase(q[i]) {
              if i > 0 { assert s[1..][i - 1] == s[i]; }
            }
          }
        }
      }
    }
  }
}
