/** The few Python string operations the opkg module relies on, with the
    semantics CPython gives them for `str` values. */
module Text {
  import opened Wrappers

  /** `c.isspace()`: the characters CPython treats as whitespace; `str.split()`,
      `str.strip()` and the regular-expression class `\s` all use this set. */
  predicate IsSpace(c: char) {
    var n := c as int;
    n == 32 || 9 <= n <= 13 || 28 <= n <= 31 || n == 0x85 || n == 0xa0 || n == 0x1680
    || 0x2000 <= n <= 0x200a || n == 0x2028 || n == 0x2029 || n == 0x202f || n == 0x205f || n == 0x3000
  }

  /** The regular-expression class `[0-9]`. */
  predicate IsDigit(c: char) {
    '0' <= c <= '9'
  }

  predicate NoSpace(s: string) {
    forall i :: 0 <= i < |s| ==> !IsSpace(s[i])
  }

  /** `s.startswith(p)`. */
  predicate StartsWith(s: string, p: string) {
    |p| <= |s| && s[..|p|] == p
  }

  /** `s.endswith(p)`. */
  predicate EndsWith(s: string, p: string) {
    |p| <= |s| && s[|s| - |p|..] == p
  }

  /** `sep` occurs in `s` at index `j`. */
  predicate At(s: string, sep: string, j: int) {
    0 <= j && j + |sep| <= |s| && s[j..j + |sep|] == sep
  }

  /** `sub in s`. */
  predicate Contains(s: string, sub: string) {
    exists j | 0 <= j <= |s| - |sub| :: At(s, sub, j)
  }

  /** The index of the first occurrence of `sep` in `s` at or after `k`, if any. */
  function IndexFrom(s: string, sep: string, k: nat): (r: Option<nat>)
    requires |sep| > 0 && k <= |s|
    ensures r.Some? ==> k <= r.value && At(s, sep, r.value)
    ensures r.Some? ==> forall j :: k <= j < r.value ==> !At(s, sep, j)
    ensures r.None? ==> forall j :: k <= j ==> !At(s, sep, j)
    decreases |s| - k
  {
    if k + |sep| > |s| then None
    else if s[k..k + |sep|] == sep then Some(k)
    else IndexFrom(s, sep, k + 1)
  }

  /** The index of the first occurrence of `sep` in `s`, if any. */
  function IndexOf(s: string, sep: string): (r: Option<nat>)
    requires |sep| > 0
    ensures r.Some? ==> At(s, sep, r.value)
    ensures r.Some? ==> forall j :: 0 <= j < r.value ==> !At(s, sep, j)
    ensures r.None? <==> !Contains(s, sep)
  {
    IndexFrom(s, sep, 0)
  }

  /** `s.split(sep)` for a non-empty separator. */
  function SplitOn(s: string, sep: string): (r: seq<string>)
    requires |sep| > 0
    ensures |r| >= 1
    decreases |s|
  {
    match IndexOf(s, sep)
    case None => [s]
    case Some(i) => [s[..i]] + SplitOn(s[i + |sep|..], sep)
  }

  /** `sep.join(parts)`. */
  function Join(parts: seq<string>, sep: string): string
    decreases |parts|
  {
    if |parts| == 0 then ""
    else if |parts| == 1 then parts[0]
    else parts[0] + sep + Join(parts[1..], sep)
  }

  /** Splitting and joining on the same separator gives the string back. */
  lemma {:induction false} JoinSplitOn(s: string, sep: string)
    requires |sep| > 0
    ensures Join(SplitOn(s, sep), sep) == s
    decreases |s|
  {
    var idx := IndexOf(s, sep);
    if idx.Some? {
      var i := idx.value;
      var rest := s[i + |sep|..];
      var tail := SplitOn(rest, sep);
      JoinSplitOn(rest, sep);
      var parts := [s[..i]] + tail;
      assert SplitOn(s, sep) == parts;
      assert parts[1..] == tail;
      assert Join(parts, sep) == s[..i] + sep + Join(tail, sep);
      assert s == s[..i] + sep + rest;
    }
  }

  /** `s.split(sep, 1)` as a pair when `sep` occurs, None when it does not. */
  function SplitFirst(s: string, sep: string): (r: Option<(string, string)>)
    requires |sep| > 0
    ensures r.Some? ==> s == r.value.0 + sep + r.value.1 && !Contains(r.value.0, sep)
    ensures r.None? <==> !Contains(s, sep)
  {
    match IndexOf(s, sep)
    case None => None
    case Some(i) =>
      assert s == s[..i] + sep + s[i + |sep|..];
      assert forall j :: At(s[..i], sep, j) ==> At(s, sep, j) by {
        forall j | At(s[..i], sep, j) ensures At(s, sep, j) {
          assert s[..i][j..j + |sep|] == s[j..j + |sep|];
        }
      }
      Some((s[..i], s[i + |sep|..]))
  }

  /** `s.split(c1|c2|...)` with a character-class separator, as `re.split` does it. */
  function SplitOnChars(s: string, seps: set<char>): (r: seq<string>)
    ensures |r| >= 1
    decreases |s|
  {
    if |s| == 0 then [""]
    else
      var rest := SplitOnChars(s[1..], seps);
      if s[0] in seps then [""] + rest
      else [[s[0]] + rest[0]] + rest[1..]
  }

  /** The whitespace prefix of `s` removed: `s.lstrip()`. */
  function LStrip(s: string): (t: string)
    ensures |t| <= |s| && t == s[|s| - |t|..]
    ensures t == [] || !IsSpace(t[0])
    ensures forall i :: 0 <= i < |s| - |t| ==> IsSpace(s[i])
    decreases |s|
  {
    if |s| > 0 && IsSpace(s[0]) then LStrip(s[1..]) else s
  }

  /** The whitespace suffix of `s` removed: `s.rstrip()`. */
  function RStrip(s: string): (t: string)
    ensures |t| <= |s| && t == s[..|t|]
    ensures t == [] || !IsSpace(t[|t| - 1])
    ensures forall i :: |t| <= i < |s| ==> IsSpace(s[i])
    decreases |s|
  {
    if |s| > 0 && IsSpace(s[|s| - 1]) then RStrip(s[..|s| - 1]) else s
  }

  /** `s.strip()`. */
  function Strip(s: string): (t: string)
    ensures t == [] || (!IsSpace(t[0]) && !IsSpace(t[|t| - 1]))
  {
    RStrip(LStrip(s))
  }

  /** The length of the leading run of non-whitespace characters. */
  function WordLen(s: string): (n: nat)
    ensures n <= |s| && NoSpace(s[..n])
    ensures n < |s| ==> IsSpace(s[n])
    decreases |s|
  {
    if |s| == 0 || IsSpace(s[0]) then 0 else 1 + WordLen(s[1..])
  }

  /** `s.split()`: the maximal runs of non-whitespace characters. */
  function Split(s: string): (r: seq<string>)
    ensures forall k :: 0 <= k < |r| ==> |r[k]| > 0 && NoSpace(r[k])
    decreases |s|
  {
    if s == [] then []
    else if IsSpace(s[0]) then Split(s[1..])
    else
      var n := WordLen(s);
      [s[..n]] + Split(s[n..])
  }

  /** A word followed by whitespace (or nothing) is the first token. */
  lemma SplitWord(w: string, rest: string)
    requires |w| > 0 && NoSpace(w)
    requires rest == [] || IsSpace(rest[0])
    ensures Split(w + rest) == [w] + Split(rest)
  {
    var s := w + rest;
    WordLenOf(w, rest);
    assert s[|w|..] == rest;
    assert s[..|w|] == w;
  }

  lemma {:induction false} WordLenOf(w: string, rest: string)
    requires NoSpace(w)
    requires rest == [] || IsSpace(rest[0])
    ensures WordLen(w + rest) == |w|
    decreases |w|
  {
    if |w| > 0 {
      assert (w + rest)[1..] == w[1..] + rest;
      WordLenOf(w[1..], rest);
    } else {
      assert w + rest == rest;
    }
  }

  /** Leading whitespace is ignored by `str.split()`. */
  lemma SplitSpace(c: char, s: string)
    requires IsSpace(c)
    ensures Split([c] + s) == Split(s)
  {
    assert ([c] + s)[1..] == s;
  }

  /** A text of whitespace only has no tokens. */
  lemma {:induction false} SplitAllSpace(s: string)
    requires forall i :: 0 <= i < |s| ==> IsSpace(s[i])
    ensures Split(s) == []
    decreases |s|
  {
    if s != [] {
      SplitAllSpace(s[1..]);
    }
  }

  /** The first token starts with the first character when that is not
      whitespace. */
  lemma SplitFirstToken(s: string)
    requires |s| > 0 && !IsSpace(s[0])
    ensures |Split(s)| > 0 && Split(s)[0][0] == s[0]
  {
    var n := WordLen(s);
    assert n > 0;
  }

  /** The first piece of `s.split(sep)` holds no separator; there is one
      piece exactly when `s` holds none, and otherwise `s` is the first
      piece, the separator and the rest joined back. */
  lemma SplitOnHead(s: string, sep: string)
    requires |sep| > 0
    ensures var r := SplitOn(s, sep);
      !Contains(r[0], sep)
      && (|r| == 1 <==> !Contains(s, sep))
      && (|r| == 1 ==> r[0] == s)
      && (|r| >= 2 ==> s == r[0] + sep + Join(r[1..], sep))
  {
    SplitOnFirstClean(s, sep);
    SplitOnRejoin(s, sep);
  }

  lemma SplitOnFirstClean(s: string, sep: string)
    requires |sep| > 0
    ensures !Contains(SplitOn(s, sep)[0], sep)
  {
    var idx := IndexOf(s, sep);
    if idx.Some? {
      var i := idx.value;
      var head := s[..i];
      assert SplitOn(s, sep)[0] == head;
      forall j | 0 <= j <= |head| - |sep|
        ensures !At(head, sep, j)
      {
        assert j < i && !At(s, sep, j);
        assert head[j..j + |sep|] == s[j..j + |sep|];
      }
    }
  }

  lemma SplitOnRejoin(s: string, sep: string)
    requires |sep| > 0
    ensures var r := SplitOn(s, sep);
      (|r| == 1 <==> !Contains(s, sep))
      && (|r| == 1 ==> r[0] == s)
      && (|r| >= 2 ==> s == r[0] + sep + Join(r[1..], sep))
  {
    var idx := IndexOf(s, sep);
    if idx.Some? {
      var i := idx.value;
      var rest := s[i + |sep|..];
      var r := SplitOn(s, sep);
      assert r == [s[..i]] + SplitOn(rest, sep);
      assert r[1..] == SplitOn(rest, sep);
      JoinSplitOn(rest, sep);
      assert s == s[..i] + sep + rest;
    }
  }

  /** A prefix stays a prefix behind a common head. */
  lemma StartsWithAppend(a: string, b: string, p: string)
    requires StartsWith(b, p)
    ensures StartsWith(a + b, a + p)
  {
    assert (a + b)[..|a| + |p|] == a + b[..|p|];
  }

  /** A join starts with its first part. */
  lemma JoinHead(parts: seq<string>, sep: string)
    requires |parts| >= 1
    ensures StartsWith(Join(parts, sep), parts[0])
  {
    var j := Join(parts, sep);
    if |parts| > 1 {
      assert j == parts[0] + (sep + Join(parts[1..], sep));
      assert j[..|parts[0]|] == parts[0];
    }
  }

  /** With a one-character separator that `a` lacks, `a` is the first piece. */
  lemma SplitOnFirstPiece(a: string, b: string, c: char)
    requires forall k :: 0 <= k < |a| ==> a[k] != c
    ensures SplitOn(a + [c] + b, [c])[0] == a
  {
    var s := a + [c] + b;
    assert At(s, [c], |a|);
    assert forall j :: 0 <= j < |a| ==> !At(s, [c], j) by {
      forall j | 0 <= j < |a| ensures !At(s, [c], j) {
        assert s[j..j + 1][0] == a[j];
      }
    }
    assert IndexOf(s, [c]) == Some(|a|);
    assert s[..|a|] == a;
  }

  /** With a one-character separator that `t` lacks, `t` is the last piece. */
  lemma {:induction false} SplitOnLastPiece(p: string, t: string, c: char)
    requires forall k :: 0 <= k < |t| ==> t[k] != c
    ensures var r := SplitOn(p + [c] + t, [c]); r[|r| - 1] == t
    decreases |p|
  {
    var s := p + [c] + t;
    assert At(s, [c], |p|);
    assert Contains(s, [c]);
    var i := IndexOf(s, [c]).value;
    assert i <= |p|;
    var rest := s[i + 1..];
    assert SplitOn(s, [c]) == [s[..i]] + SplitOn(rest, [c]);
    assert i < |p| ==> p[i] == c by {
      assert s[i..i + 1][0] == s[i];
    }
    if i == |p| {
      assert rest == t;
      NoSeparator(t, c);
    } else {
      assert rest == p[i + 1..] + [c] + t;
      SplitOnLastPiece(p[i + 1..], t, c);
    }
  }

  lemma AtOne(t: string, c: char, j: int)
    ensures At(t, [c], j) ==> t[j] == c
  {
    if At(t, [c], j) {
      assert t[j..j + 1][0] == t[j];
    }
  }

  /** A text without the separator is its own single piece. */
  lemma NoSeparator(t: string, c: char)
    requires forall k :: 0 <= k < |t| ==> t[k] != c
    ensures SplitOn(t, [c]) == [t]
  {
    var r := IndexOf(t, [c]);
    if r.Some? {
      AtOne(t, c, r.value);
      assert false;
    }
  }

  /** Python's line-boundary characters, as `str.splitlines()` recognises them. */
  predicate IsLineBreak(c: char) {
    ('\n' <= c <= '\r') || ('\U{1c}' <= c <= '\U{1e}')
    || c == '\U{85}' || c == '\U{2028}' || c == '\U{2029}'
  }

  /** The index of the first line-boundary character, or |s|. */
  function LineEnd(s: string): (n: nat)
    ensures n <= |s| && (n < |s| ==> IsLineBreak(s[n]))
    ensures forall j :: 0 <= j < n ==> !IsLineBreak(s[j])
    decreases |s|
  {
    if |s| == 0 || IsLineBreak(s[0]) then 0 else 1 + LineEnd(s[1..])
  }

  /** `s.splitlines()`: no piece holds a line boundary, "\r\n" is one boundary,
      and a final boundary does not start an empty last line. */
  function SplitLines(s: string): (r: seq<string>)
    ensures forall k, j :: 0 <= k < |r| && 0 <= j < |r[k]| ==> !IsLineBreak(r[k][j])
    decreases |s|
  {
    if |s| == 0 then []
    else
      var n := LineEnd(s);
      if n == |s| then [s]
      else
        var skip := if s[n] == '\r' && n + 1 < |s| && s[n + 1] == '\n' then 2 else 1;
        [s[..n]] + SplitLines(s[n + skip..])
  }

  /** `c.lower()` on the ASCII capitals. */
  function LowerChar(c: char): char {
    if 'A' <= c <= 'Z' then (c as int + 32) as char else c
  }

  /** `s.lower()`. */
  function Lower(s: string): (t: string)
    ensures |t| == |s| && forall i :: 0 <= i < |s| ==> t[i] == LowerChar(s[i])
  {
    seq(|s|, i requires 0 <= i < |s| => LowerChar(s[i]))
  }

  function DigitChar(d: nat): char
    requires d < 10
  {
    "0123456789"[d]
  }

  function NatToString(n: nat): (s: string)
    ensures |s| > 0
    decreases n
  {
    if n < 10 then [DigitChar(n)] else NatToString(n / 10) + [DigitChar(n % 10)]
  }

  /** `str(n)` / `"{}".format(n)` for an integer. */
  function IntToString(n: int): (s: string)
    ensures |s| > 0
  {
    if n < 0 then "-" + NatToString(-n) else NatToString(n)
  }

  /** Words joined by single spaces split back into the same words. */
  lemma {:induction false} SplitJoinWords(ws: seq<string>)
    requires forall k :: 0 <= k < |ws| ==> |ws[k]| > 0 && NoSpace(ws[k])
    ensures Split(Join(ws, " ")) == ws
    decreases |ws|
  {
    if |ws| == 1 {
      SplitWord(ws[0], "");
      assert ws[0] + "" == ws[0];
    } else if |ws| > 1 {
      var tail := Join(ws[1..], " ");
      SplitJoinWords(ws[1..]);
      SplitSpace(' ', tail);
      SplitWord(ws[0], " " + tail);
      assert Join(ws, " ") == ws[0] + (" " + tail);
      assert ws == [ws[0]] + ws[1..];
    }
  }

  lemma {:induction false} LStripSpaces(pre: string, t: string)
    requires forall i :: 0 <= i < |pre| ==> IsSpace(pre[i])
    requires |t| > 0 && !IsSpace(t[0])
    ensures LStrip(pre + t) == t
    decreases |pre|
  {
    if pre == [] {
      assert pre + t == t;
    } else {
      assert (pre + t)[1..] == pre[1..] + t;
      LStripSpaces(pre[1..], t);
    }
  }

  lemma {:induction false} RStripSpaces(t: string, post: string)
    requires forall i :: 0 <= i < |post| ==> IsSpace(post[i])
    requires |t| > 0 && !IsSpace(t[|t| - 1])
    ensures RStrip(t + post) == t
    decreases |post|
  {
    if post == [] {
      assert t + post == t;
    } else {
      assert (t + post)[..|t + post| - 1] == t + post[..|post| - 1];
      RStripSpaces(t, post[..|post| - 1]);
    }
  }

  /** Stripping removes exactly the whitespace around a text that starts
      and ends with another character. */
  lemma StripAround(pre: string, t: string, post: string)
    requires forall i :: 0 <= i < |pre| ==> IsSpace(pre[i])
    requires forall i :: 0 <= i < |post| ==> IsSpace(post[i])
    requires |t| > 0 && !IsSpace(t[0]) && !IsSpace(t[|t| - 1])
    ensures Strip(pre + t + post) == t
  {
    LStripSpaces(pre, t + post);
    assert pre + t + post == pre + (t + post);
    RStripSpaces(t, post);
  }

  /** Two pieces around the only occurrence of a one-character separator. */
  lemma SplitOnTwo(a: string, b: string, c: char)
    requires forall k :: 0 <= k < |a| ==> a[k] != c
    requires forall k :: 0 <= k < |b| ==> b[k] != c
    ensures SplitOn(a + [c] + b, [c]) == [a, b]
  {
    var s := a + [c] + b;
    SplitOnFirstPiece(a, b, c);
    var i := IndexOf(s, [c]).value;
    assert i == |a| by {
      AtOne(s, c, i);
      assert At(s, [c], |a|);
    }
    assert s[i + 1..] == b;
    NoSeparator(b, c);
  }

  /** A leading piece without separators joins the first piece of the rest. */
  lemma {:induction false} SplitOnCharsWord(w: string, s: string, seps: set<char>)
    requires forall k :: 0 <= k < |w| ==> w[k] !in seps
    ensures SplitOnChars(w + s, seps) == [w + SplitOnChars(s, seps)[0]] + SplitOnChars(s, seps)[1..]
    decreases |w|
  {
    if w == [] {
      assert w + s == s;
      assert w + SplitOnChars(s, seps)[0] == SplitOnChars(s, seps)[0];
      assert SplitOnChars(s, seps) == [SplitOnChars(s, seps)[0]] + SplitOnChars(s, seps)[1..];
    } else {
      assert (w + s)[1..] == w[1..] + s;
      SplitOnCharsWord(w[1..], s, seps);
      assert [w[0]] + (w[1..] + SplitOnChars(s, seps)[0]) == w + SplitOnChars(s, seps)[0];
    }
  }
}
