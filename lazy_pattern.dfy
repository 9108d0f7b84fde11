/** Anchored matching of the regular expressions the dry-run parsers use.
    Each of them is a sequence of literal text, `\s`, `.` and lazy groups
    `(.*?)`; `Match` follows Python's `re.match`: the match is anchored at
    the start of the line but not at its end, group alternatives are tried
    shortest first, and `.` does not match a newline. */
module LazyPattern {
  import opened Wrappers
  import opened Text

  datatype Element =
    | Lit(text: string)   // literal characters
    | Space               // `\s`: one whitespace character
    | AnyChar             // `.`: any character but a newline
    | Lazy                // `(.*?)`: a capture group, as short as possible

  /** A pattern is a list of elements. */
  datatype Pattern = Done | Then(head: Element, tail: Pattern)

  /** The number of capture groups of a pattern. */
  function Groups(pat: Pattern): nat
  {
    match pat
    case Done => 0
    case Then(e, rest) => (if e.Lazy? then 1 else 0) + Groups(rest)
  }

  predicate NoNewline(s: string) {
    forall i :: 0 <= i < |s| ==> s[i] != '\n'
  }

  /** The language of a pattern: `s` starts with a text that `pat` matches
      with the captures `gs`. This is the meaning of the regular expression,
      without any search order. */
  ghost predicate Matches(pat: Pattern, gs: seq<string>, s: string)
  {
    match pat
    case Done => gs == []
    case Then(Lit(l), rest) => l <= s && Matches(rest, gs, s[|l|..])
    case Then(Space, rest) => |s| > 0 && IsSpace(s[0]) && Matches(rest, gs, s[1..])
    case Then(AnyChar, rest) => |s| > 0 && s[0] != '\n' && Matches(rest, gs, s[1..])
    case Then(Lazy, rest) =>
      |gs| > 0 && gs[0] <= s && NoNewline(gs[0]) && Matches(rest, gs[1..], s[|gs[0]|..])
  }

  /** Some match of `pat` starts `s`. */
  ghost predicate MatchesSome(pat: Pattern, s: string) {
    exists gs :: Matches(pat, gs, s)
  }

  /** The backtracking matcher: the first match in Python's search order. */
  function Match(pat: Pattern, s: string): (r: Option<seq<string>>)
    ensures r.Some? ==> |r.value| == Groups(pat)
    decreases pat, |s| + 1
  {
    match pat
    case Done => Some([])
    case Then(Lit(l), rest) => if l <= s then Match(rest, s[|l|..]) else None
    case Then(Space, rest) => if |s| > 0 && IsSpace(s[0]) then Match(rest, s[1..]) else None
    case Then(AnyChar, rest) => if |s| > 0 && s[0] != '\n' then Match(rest, s[1..]) else None
    case Then(Lazy, rest) => MatchLazy(rest, s, 0)
  }

  /** A lazy group that has already consumed `s[..k]`: try to match the rest
      of the pattern here, and extend the group by one character only when
      that fails. */
  function MatchLazy(tail: Pattern, s: string, k: nat): (r: Option<seq<string>>)
    requires k <= |s|
    ensures r.Some? ==> |r.value| == Groups(tail) + 1
    ensures r.Some? ==> k <= |r.value[0]| <= |s| && r.value[0] == s[..|r.value[0]|]
    ensures r.Some? ==> Match(tail, s[|r.value[0]|..]) == Some(r.value[1..])
    decreases Then(Lazy, tail), |s| - k
  {
    match Match(tail, s[k..])
    case Some(gs) => Some([s[..k]] + gs)
    case None => if k < |s| && s[k] != '\n' then MatchLazy(tail, s, k + 1) else None
  }

  /** Whatever the matcher returns is a match of the pattern. */
  lemma {:induction false} MatchSound(pat: Pattern, s: string)
    ensures Match(pat, s).Some? ==> Matches(pat, Match(pat, s).value, s)
    decreases pat, |s| + 1
  {
    match pat
    case Done =>
    case Then(Lit(l), rest) => if l <= s { MatchSound(rest, s[|l|..]); }
    case Then(Space, rest) => if |s| > 0 { MatchSound(rest, s[1..]); }
    case Then(AnyChar, rest) => if |s| > 0 { MatchSound(rest, s[1..]); }
    case Then(Lazy, rest) =>
      MatchLazySound(rest, s, 0);
      var r := MatchLazy(rest, s, 0);
      if r.Some? {
        var g := r.value;
        assert s[0..|g[0]|] == g[0];
      }
  }

  lemma {:induction false} MatchLazySound(tail: Pattern, s: string, k: nat)
    requires k <= |s|
    ensures var r := MatchLazy(tail, s, k);
      r.Some? ==>
        var g := r.value;
        k <= |g[0]| <= |s| && g[0] == s[..|g[0]|] && NoNewline(s[k..|g[0]|])
        && Matches(tail, g[1..], s[|g[0]|..])
    decreases Then(Lazy, tail), |s| - k
  {
    var m := Match(tail, s[k..]);
    if m.Some? {
      MatchSound(tail, s[k..]);
      assert ([s[..k]] + m.value)[1..] == m.value;
    } else if k < |s| && s[k] != '\n' {
      MatchLazySound(tail, s, k + 1);
      var r := MatchLazy(tail, s, k + 1);
      if r.Some? {
        var g := r.value;
        assert forall i :: k <= i < |g[0]| ==> s[i] != '\n' by {
          forall i | k <= i < |g[0]| ensures s[i] != '\n' {
            if i > k { assert s[k + 1..|g[0]|][i - k - 1] == s[i]; }
          }
        }
      }
    }
  }

  /** Whenever the pattern can match, the matcher finds a match. */
  lemma {:induction false} MatchComplete(pat: Pattern, gs: seq<string>, s: string)
    requires Matches(pat, gs, s)
    ensures Match(pat, s).Some?
    decreases pat, |s| + 1
  {
    match pat
    case Done =>
    case Then(Lit(l), rest) => MatchComplete(rest, gs, s[|l|..]);
    case Then(Space, rest) => MatchComplete(rest, gs, s[1..]);
    case Then(AnyChar, rest) => MatchComplete(rest, gs, s[1..]);
    case Then(Lazy, rest) =>
      assert s[0..|gs[0]|] == gs[0];
      MatchLazyComplete(rest, gs[1..], s, 0, |gs[0]|);
  }

  lemma {:induction false} MatchLazyComplete(tail: Pattern, gs: seq<string>, s: string, k: nat, j: nat)
    requires k <= j <= |s| && NoNewline(s[k..j]) && Matches(tail, gs, s[j..])
    ensures MatchLazy(tail, s, k).Some?
    decreases Then(Lazy, tail), |s| - k
  {
    if Match(tail, s[k..]).None? {
      if j == k {
        MatchComplete(tail, gs, s[k..]);
      } else {
        assert s[k..j][0] == s[k];
        assert s[k + 1..j] == s[k..j][1..];
        MatchLazyComplete(tail, gs, s, k + 1, j);
      }
    }
  }

  /** The pattern matches `s` iff the matcher succeeds on it. */
  lemma MatchIff(pat: Pattern, s: string)
    ensures Match(pat, s).Some? <==> MatchesSome(pat, s)
  {
    MatchSound(pat, s);
    if Match(pat, s).Some? {
      var w := Match(pat, s).value;
      assert Matches(pat, w, s);
      assert exists gs :: Matches(pat, gs, s);
    } else if exists gs :: Matches(pat, gs, s) {
      var gs :| Matches(pat, gs, s);
      MatchComplete(pat, gs, s);
      assert false;
    }
  }

  /** A lazy group stops at the first length at which the rest of the
      pattern matches. */
  lemma {:induction false} MatchLazyEarliest(tail: Pattern, s: string, k: nat)
    requires k <= |s|
    ensures var r := MatchLazy(tail, s, k);
      r.Some? ==> forall j :: k <= j < |r.value[0]| ==> Match(tail, s[j..]).None?
    decreases |s| - k
  {
    if Match(tail, s[k..]).None? && k < |s| && s[k] != '\n' {
      MatchLazyEarliest(tail, s, k + 1);
    }
  }

  /** The first group of a match is the shortest that any match of the
      pattern can give it: `(.*?)` is lazy. */
  lemma ShortestFirstGroup(tail: Pattern, s: string, gs: seq<string>)
    requires Matches(Then(Lazy, tail), gs, s)
    ensures Match(Then(Lazy, tail), s).Some?
    ensures |Match(Then(Lazy, tail), s).value[0]| <= |gs[0]|
  {
    var pat := Then(Lazy, tail);
    MatchComplete(pat, gs, s);
    MatchLazyEarliest(tail, s, 0);
    var g := Match(pat, s).value;
    if |gs[0]| < |g[0]| {
      MatchComplete(tail, gs[1..], s[|gs[0]|..]);
    }
  }

  /** The first character a pattern that begins with `\s` or a literal
      demands. */
  predicate Starts(pat: Pattern, c: char) {
    match pat
    case Then(Space, _) => IsSpace(c)
    case Then(Lit(l), _) => |l| > 0 && l[0] == c
    case _ => true
  }

  /** A text that a pattern beginning with `\s` or a literal matches starts
      with the character that pattern demands. */
  lemma MatchesStarts(pat: Pattern, gs: seq<string>, s: string)
    requires pat.Then? && (pat.head.Space? || (pat.head.Lit? && |pat.head.text| > 0))
    requires Matches(pat, gs, s)
    ensures |s| > 0 && Starts(pat, s[0])
  {
  }

  /** When a lazy group is followed by `\s` or a literal, and a match gives
      it a text none of whose characters could begin what follows, the
      matcher gives the group exactly that text. */
  lemma LazyExact(tail: Pattern, gs: seq<string>, s: string)
    requires tail.Then? && (tail.head.Space? || (tail.head.Lit? && |tail.head.text| > 0))
    requires Matches(Then(Lazy, tail), gs, s)
    requires forall i :: 0 <= i < |gs[0]| ==> !Starts(tail, gs[0][i])
    ensures Match(Then(Lazy, tail), s).Some?
    ensures Match(Then(Lazy, tail), s).value[0] == gs[0]
    ensures Match(tail, s[|gs[0]|..]) == Some(Match(Then(Lazy, tail), s).value[1..])
  {
    ShortestFirstGroup(tail, s, gs);
    MatchSound(Then(Lazy, tail), s);
    var g := Match(Then(Lazy, tail), s).value;
    if |g[0]| < |gs[0]| {
      MatchesStarts(tail, g[1..], s[|g[0]|..]);
      assert false;
    }
    assert g[0] == s[..|g[0]|] == gs[0];
  }

  /** Building a match element by element. */
  lemma MatchesLit(l: string, rest: Pattern, gs: seq<string>, s: string)
    requires Matches(rest, gs, s)
    ensures Matches(Then(Lit(l), rest), gs, l + s)
  {
    assert (l + s)[|l|..] == s;
  }

  lemma MatchesSpace(c: char, rest: Pattern, gs: seq<string>, s: string)
    requires IsSpace(c) && Matches(rest, gs, s)
    ensures Matches(Then(Space, rest), gs, [c] + s)
  {
    assert ([c] + s)[1..] == s;
  }

  lemma MatchesAny(c: char, rest: Pattern, gs: seq<string>, s: string)
    requires c != '\n' && Matches(rest, gs, s)
    ensures Matches(Then(AnyChar, rest), gs, [c] + s)
  {
    assert ([c] + s)[1..] == s;
  }

  lemma MatchesLazy(g: string, rest: Pattern, gs: seq<string>, s: string)
    requires NoNewline(g) && Matches(rest, gs, s)
    ensures Matches(Then(Lazy, rest), [g] + gs, g + s)
  {
    assert (g + s)[|g|..] == s;
    assert ([g] + gs)[1..] == gs;
  }

  /** The matcher steps over a literal prefix or a whitespace character. */
  lemma MatchLit(l: string, rest: Pattern, s: string)
    ensures Match(Then(Lit(l), rest), l + s) == Match(rest, s)
  {
    assert (l + s)[|l|..] == s;
  }

  lemma MatchSpace(c: char, rest: Pattern, s: string)
    requires IsSpace(c)
    ensures Match(Then(Space, rest), [c] + s) == Match(rest, s)
  {
    assert ([c] + s)[1..] == s;
  }

  /** A lazy group in front of `tail` takes exactly `g` when no character
      of `g` can begin `tail` and `tail` matches what follows. */
  lemma LazyThen(g: string, tail: Pattern, s: string, gs: seq<string>)
    requires tail.Then? && (tail.head.Space? || (tail.head.Lit? && |tail.head.text| > 0))
    requires NoNewline(g) && forall i :: 0 <= i < |g| ==> !Starts(tail, g[i])
    requires Match(tail, s) == Some(gs)
    ensures Match(Then(Lazy, tail), g + s) == Some([g] + gs)
  {
    MatchSound(tail, s);
    MatchesLazy(g, tail, gs, s);
    LazyExact(tail, [g] + gs, g + s);
    assert (g + s)[|g|..] == s;
    var r := Match(Then(Lazy, tail), g + s).value;
    assert r == [r[0]] + r[1..];
  }

  /** A final lazy group matches the empty text. */
  lemma LazyLast(s: string)
    ensures Match(Then(Lazy, Done), s) == Some([""])
  {
    assert s[0..] == s && s[..0] == "";
    assert Match(Done, s[0..]) == Some([]);
    assert [s[..0]] + [] == [""];
    assert MatchLazy(Done, s, 0) == Some([""]);
    assert Match(Then(Lazy, Done), s) == MatchLazy(Done, s, 0);
  }

  /** The matcher steps over a word between two blanks, `\s<l>\s`. */
  lemma MatchWord(l: string, rest: Pattern, s: string)
    ensures Match(Then(Space, Then(Lit(l), Then(Space, rest))), " " + l + " " + s) == Match(rest, s)
  {
    MatchSpace(' ', rest, s);
    MatchLit(l, Then(Space, rest), [' '] + s);
    MatchSpace(' ', Then(Lit(l), Then(Space, rest)), l + ([' '] + s));
    assert " " + l + " " + s == [' '] + (l + ([' '] + s));
  }

  /** `(.*?)...` at the end of a pattern: the group is empty when three
      characters other than a newline follow. */
  lemma LazyBeforeThreeAny(s: string)
    requires |s| >= 3 && s[0] != '\n' && s[1] != '\n' && s[2] != '\n'
    ensures Match(Then(Lazy, Then(AnyChar, Then(AnyChar, Then(AnyChar, Done)))), s) == Some([""])
  {
    var any3 := Then(AnyChar, Then(AnyChar, Then(AnyChar, Done)));
    assert Match(Then(AnyChar, Done), s[2..]) == Some([]);
    assert s[1..][1..] == s[2..];
    assert Match(Then(AnyChar, Then(AnyChar, Done)), s[1..]) == Some([]);
    assert Match(any3, s) == Some([]);
    assert s[0..] == s && s[..0] == "";
    assert [s[..0]] + [] == [""];
    assert MatchLazy(any3, s, 0) == Some([""]);
  }
}
