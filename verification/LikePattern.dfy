// SQL LIKE patterns, matched by translating them to path globs.
module LikePattern {
  import opened Basics

  // ------------------------------------------------------------------------- globs

  datatype Term = AnyRun | AnyOne | Literal(c: char)

  /** A glob's terms. A pattern that ends in the middle of an escape is malformed; one with a
      character class is outside this model, and the translation below writes none. */
  function ParseGlob(g: string): Option<seq<Term>>
  {
    if g == "" then Some([])
    else if g[0] == '[' || g == "\\" then None
    else
      var escaped := g[0] == '\\';
      var rest := ParseGlob(if escaped then g[2..] else g[1..]);
      var plain := if g[0] == '*' then AnyRun else if g[0] == '?' then AnyOne else Literal(g[0]);
      var term := if escaped then Literal(g[1]) else plain;
      if rest.None? then None else Some([term] + rest.value)
  }

  /** Path matching: a star is any run of characters other than '/', a question mark any one. */
  predicate MatchTerms(ts: seq<Term>, v: string)
    decreases |ts| + |v|
  {
    if ts == [] then v == ""
    else
      match ts[0]
      case AnyRun => MatchTerms(ts[1..], v) || (v != "" && v[0] != '/' && MatchTerms(ts, v[1..]))
      case AnyOne => v != "" && v[0] != '/' && MatchTerms(ts[1..], v[1..])
      case Literal(c) => v != "" && v[0] == c && MatchTerms(ts[1..], v[1..])
  }

  /** None for a malformed glob. */
  function GlobMatch(g: string, v: string): Option<bool>
  {
    var ts := ParseGlob(g);
    if ts.None? then None else Some(MatchTerms(ts.value, v))
  }

  // ------------------------------------------------------------------------- LIKE

  /** SQL LIKE without an escape character: % is any run, _ any one character. */
  predicate Like(p: string, v: string)
    decreases |p| + |v|
  {
    if p == "" then v == ""
    else if p[0] == '%' then Like(p[1..], v) || (v != "" && Like(p, v[1..]))
    else v != "" && (p[0] == '_' || p[0] == v[0]) && Like(p[1..], v[1..])
  }

  function Joined(parts: seq<string>): string { if parts == [] then "" else parts[0] + Joined(parts[1..]) }

  /** The value in as many parts as the pattern has characters: one for a %, whatever it is; a single character
      for a _; and any other character itself. */
  ghost predicate Parted(p: string, v: string, parts: seq<string>)
  {
    && |parts| == |p| && Joined(parts) == v
    && forall i | 0 <= i < |p| :: p[i] == '%' || (if p[i] == '_' then |parts[i]| == 1 else parts[i] == [p[i]])
  }

  lemma {:induction false} PartsFound(p: string, v: string) returns (parts: seq<string>)
    requires Like(p, v)
    ensures Parted(p, v, parts)
    decreases |p| + |v|
  {
    if p == "" {
      parts := [];
    } else if p[0] == '%' && !Like(p[1..], v) {
      var rest := PartsFound(p, v[1..]);
      parts := rest[0 := [v[0]] + rest[0]];
      assert parts[1..] == rest[1..];
      assert Joined(parts) == [v[0]] + rest[0] + Joined(rest[1..]) == [v[0]] + Joined(rest) == v;
    } else {
      var head := if p[0] == '%' then "" else [v[0]];
      var rest := PartsFound(p[1..], v[|head|..]);
      parts := [head] + rest;
      assert parts[1..] == rest;
      assert v == head + v[|head|..];
    }
  }

  lemma {:induction false} PartsMatch(p: string, v: string, parts: seq<string>)
    requires Parted(p, v, parts)
    ensures Like(p, v)
    decreases |p| + |v|
  {
    if p != "" {
      var rest := parts[1..];
      if p[0] == '%' && parts[0] != "" {
        var fewer := parts[0 := parts[0][1..]];
        assert fewer[1..] == rest && v == [v[0]] + Joined(fewer);
        assert v[1..] == Joined(fewer);
        PartsMatch(p, v[1..], fewer);
      } else {
        assert v == parts[0] + Joined(rest);
        assert v[|parts[0]|..] == Joined(rest);
        PartsMatch(p[1..], Joined(rest), rest);
      }
    }
  }

  /** What LIKE means: the value can be so parted. */
  lemma {:induction false} LikeIff(p: string, v: string)
    ensures Like(p, v) <==> exists parts :: Parted(p, v, parts)
  {
    if Like(p, v) {
      var parts := PartsFound(p, v);
      assert Parted(p, v, parts);
    }
    if parts :| Parted(p, v, parts) {
      PartsMatch(p, v, parts);
    }
  }

  /** The same, but no wildcard may stand for a '/'. */
  predicate LikeWithinSegments(p: string, v: string)
    decreases |p| + |v|
  {
    if p == "" then v == ""
    else if p[0] == '%' then LikeWithinSegments(p[1..], v) || (v != "" && v[0] != '/' && LikeWithinSegments(p, v[1..]))
    else v != "" && (if p[0] == '_' then v[0] != '/' else v[0] == p[0]) && LikeWithinSegments(p[1..], v[1..])
  }

  function GlobOf(c: char): string
  {
    if c == '%' then "*"
    else if c == '_' then "?"
    else if c in "*?[\\" then ['\\', c]
    else [c]
  }

  function Translated(p: string): string
  {
    if p == "" then "" else GlobOf(p[0]) + Translated(p[1..])
  }

  lemma {:induction false} TranslatedAppend(p: string, c: char)
    ensures Translated(p + [c]) == Translated(p) + GlobOf(c)
  {
    if p == "" {
      assert p + [c] == [c] && [c][1..] == "";
    } else {
      TranslatedAppend(p[1..], c);
      assert (p + [c])[1..] == p[1..] + [c];
    }
  }

  method LikeToGlob(pattern: string) returns (glob: string)
    ensures glob == Translated(pattern)
  {
    glob := "";
    for i := 0 to |pattern|
      invariant glob == Translated(pattern[..i])
    {
      TranslatedAppend(pattern[..i], pattern[i]);
      assert pattern[..i + 1] == pattern[..i] + [pattern[i]];
      match pattern[i]
      case '%' => glob := glob + "*";
      case '_' => glob := glob + "?";
      case '*' => glob := glob + ['\\', pattern[i]];
      case '?' => glob := glob + ['\\', pattern[i]];
      case '[' => glob := glob + ['\\', pattern[i]];
      case '\\' => glob := glob + ['\\', pattern[i]];
      case _ => glob := glob + [pattern[i]];
    }
    assert pattern[..|pattern|] == pattern;
  }

  // ------------------------------------------------------------ the translation's meaning

  function TermOf(c: char): Term
  {
    if c == '%' then AnyRun else if c == '_' then AnyOne else Literal(c)
  }

  function TermsOf(p: string): seq<Term>
  {
    if p == "" then [] else [TermOf(p[0])] + TermsOf(p[1..])
  }

  /** Every pattern becomes a well-formed glob, term for character. */
  lemma {:induction false} TranslationIsWellFormed(p: string)
    ensures ParseGlob(Translated(p)) == Some(TermsOf(p))
  {
    if p != "" {
      TranslationIsWellFormed(p[1..]);
      var g, rest := Translated(p), Translated(p[1..]);
      if |GlobOf(p[0])| == 2 {
        assert g[0] == '\\' && g[1] == p[0] && g[2..] == rest;
      } else {
        assert g[0] == GlobOf(p[0])[0] && g[1..] == rest;
      }
    }
  }

  lemma {:induction false} TermsMatchLikeLike(p: string, v: string)
    ensures MatchTerms(TermsOf(p), v) == LikeWithinSegments(p, v)
    decreases |p| + |v|
  {
    if p != "" {
      assert TermsOf(p)[1..] == TermsOf(p[1..]);
      if p[0] == '%' {
        TermsMatchLikeLike(p[1..], v);
        if v != "" { TermsMatchLikeLike(p, v[1..]); }
      } else if v != "" {
        TermsMatchLikeLike(p[1..], v[1..]);
      }
    }
  }

  lemma {:induction false} SlashFreeIsLike(p: string, v: string)
    requires '/' !in v
    ensures LikeWithinSegments(p, v) == Like(p, v)
    decreases |p| + |v|
  {
    if p != "" {
      if p[0] == '%' {
        SlashFreeIsLike(p[1..], v);
        if v != "" { SlashFreeIsLike(p, v[1..]); }
      } else if v != "" {
        SlashFreeIsLike(p[1..], v[1..]);
      }
    }
  }

  /** The translation preserves meaning: on every value without '/', the glob matches exactly
      when LIKE does; on any value, exactly when LIKE does without wildcards crossing a '/'. */
  lemma {:induction false} TranslationPreservesMeaning(p: string, v: string)
    ensures GlobMatch(Translated(p), v) == Some(LikeWithinSegments(p, v))
    ensures '/' !in v ==> GlobMatch(Translated(p), v) == Some(Like(p, v))
  {
    TranslationIsWellFormed(p);
    TermsMatchLikeLike(p, v);
    if '/' !in v {
      SlashFreeIsLike(p, v);
    }
  }

  // -------------------------------------------------------------------- the matcher

  /** The matcher metadata calls use; no pattern, like %, matches everything. */
  method LikeMatch(value: string, pattern: string) returns (ok: bool)
    ensures ok == Matches(value, pattern)
  {
    if pattern == "" || pattern == "%" {
      return true;
    }
    var glob := LikeToGlob(pattern);
    var r := GlobMatch(glob, value);
    TranslationPreservesMeaning(pattern, value);
    ok := r == Some(true);
  }

  /** What it decides. */
  predicate Matches(value: string, pattern: string)
  {
    pattern == "" || pattern == "%" || LikeWithinSegments(pattern, value)
  }

  predicate HasWildcard(p: string) { '%' in p || '_' in p }

  lemma {:induction false} PlainPatternIsEquality(p: string, v: string)
    requires !HasWildcard(p)
    ensures LikeWithinSegments(p, v) == Like(p, v) == (v == p)
  {
    if p != "" && v != "" {
      PlainPatternIsEquality(p[1..], v[1..]);
      assert v == [v[0]] + v[1..] && p == [p[0]] + p[1..];
    }
  }

  lemma {:induction false} PercentIsEverything(v: string)
    ensures Like("%", v)
  {
    assert "%"[1..] == "";
    if v != "" {
      PercentIsEverything(v[1..]);
    }
  }

  function Slashes(v: string): nat { if v == "" then 0 else (if v[0] == '/' then 1 else 0) + Slashes(v[1..]) }

  /** Within segments, every '/' of the value is one the pattern spells out. */
  lemma {:induction false} SlashesAreSpelledOut(p: string, v: string)
    requires LikeWithinSegments(p, v)
    ensures Slashes(v) == Slashes(p)
    decreases |p| + |v|
  {
    if p != "" {
      if p[0] == '%' {
        if LikeWithinSegments(p[1..], v) {
          SlashesAreSpelledOut(p[1..], v);
        } else {
          SlashesAreSpelledOut(p, v[1..]);
        }
      } else {
        SlashesAreSpelledOut(p[1..], v[1..]);
      }
    }
  }

  /** The pattern with a '/' in place of every wildcard. */
  function Filled(p: string): string
  {
    if p == "" then "" else [if p[0] == '%' || p[0] == '_' then '/' else p[0]] + Filled(p[1..])
  }

  lemma {:induction false} FilledIsLike(p: string)
    ensures Like(p, Filled(p))
    ensures Slashes(Filled(p)) >= Slashes(p)
    ensures HasWildcard(p) ==> Slashes(Filled(p)) > Slashes(p)
  {
    if p != "" {
      FilledIsLike(p[1..]);
      assert Filled(p)[1..] == Filled(p[1..]);
      assert p == [p[0]] + p[1..];
      if p[0] == '%' {
        assert Like(p[1..], Filled(p)[1..]);
        assert Like(p, Filled(p)[1..]);
      }
    }
  }

  /** Exactly the patterns on which the matcher is SQL LIKE for every value: % alone, and
      patterns without wildcards other than the empty one. Every other pattern has a value,
      with a '/' under a wildcard, that LIKE accepts and the matcher refuses (the empty
      pattern: any non-empty value, the other way round). */
  lemma {:induction false} MatcherIsLikeIff(p: string)
    ensures (forall v :: Matches(v, p) == Like(p, v)) <==> p == "%" || (p != "" && !HasWildcard(p))
  {
    if p == "%" {
      forall v ensures Matches(v, p) == Like(p, v) { PercentIsEverything(v); }
    } else if p == "" {
      assert Matches("x", p) && !Like(p, "x");
    } else if !HasWildcard(p) {
      forall v ensures Matches(v, p) == Like(p, v) { PlainPatternIsEquality(p, v); }
    } else {
      FilledIsLike(p);
      if LikeWithinSegments(p, Filled(p)) {
        SlashesAreSpelledOut(p, Filled(p));
      }
      assert !Matches(Filled(p), p) && Like(p, Filled(p));
    }
  }

  /** On values without '/', the matcher is SQL LIKE for every pattern but the empty one. */
  lemma {:induction false} MatcherIsLikeOnNames(p: string, v: string)
    requires '/' !in v
    ensures Matches(v, p) == Like(p, v) <==> p != "" || v == ""
  {
    SlashFreeIsLike(p, v);
    PercentIsEverything(v);
  }
}
