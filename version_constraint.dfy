/** `_get_version_info` (salt/modules/opkg.py:884-900): find the first
    comparison operator followed by a version in a version condition, with
    the semantics of `re.search` over the pattern
    `(<=>|!=|>=|<=|>>|<<|<>|>|<|=)\s?((?:[0-9]+:)?[0-9][a-zA-Z0-9+~.-]*)`:
    the leftmost position where the pattern matches, the alternatives tried
    in the order written, the optional whitespace and the epoch taken when
    they lead to a match. Positions below index the condition text; a
    version is the slice between a start and an end position. */
module VersionConstraint {
  import opened Wrappers
  import opened Text

  /** The operator alternatives, in the order the pattern writes them. */
  const Operators: seq<string> := ["<=>", "!=", ">=", "<=", ">>", "<<", "<>", ">", "<", "="]

  /** The characters operators are made of, none a digit or a whitespace. */
  predicate OperatorChar(c: char) {
    c == '<' || c == '=' || c == '>' || c == '!'
  }

  /** An alternative made of operator characters only. */
  predicate Alternative(op: string) {
    |op| > 0 && forall i :: 0 <= i < |op| ==> OperatorChar(op[i])
  }

  /** Alternatives made of operator characters only, which is all the
      search below relies on. */
  ghost predicate Alternatives(ops: seq<string>) {
    forall op :: op in ops ==> Alternative(op)
  }

  lemma OperatorsAreAlternatives()
    ensures Alternatives(Operators)
  {
    assert Alternative("<=>") && Alternative("!=") && Alternative(">=") && Alternative("<=") && Alternative(">>");
    assert Alternative("<<") && Alternative("<>") && Alternative(">") && Alternative("<") && Alternative("=");
  }

  /** The class `[a-zA-Z0-9+~.-]`. */
  predicate IsVersionChar(c: char) {
    'a' <= c <= 'z' || 'A' <= c <= 'Z' || '0' <= c <= '9' || c == '+' || c == '~' || c == '.' || c == '-'
  }

  /** Every position from `b` up to `e` holds a version character. */
  predicate VersionCharsIn(s: string, b: int, e: int)
    requires 0 <= b && e <= |s|
  {
    forall j :: b <= j < e ==> IsVersionChar(s[j])
  }

  /** Every position from `b` up to `e` holds a digit. */
  predicate DigitsIn(s: string, b: int, e: int)
    requires 0 <= b && e <= |s|
  {
    forall j :: b <= j < e ==> IsDigit(s[j])
  }

  /** An epoch of digits ends at `k`, followed by its colon and a digit,
      and version characters follow up to `e`. */
  predicate EpochAt(s: string, b: int, k: int, e: int)
    requires 0 <= b && e <= |s|
  {
    b < k && k + 1 < e && DigitsIn(s, b, k) && s[k] == ':' && IsDigit(s[k + 1]) && VersionCharsIn(s, k + 2, e)
  }

  /** `s[b..e]` is a text group 2 can be: `(?:[0-9]+:)?[0-9][a-zA-Z0-9+~.-]*`. */
  ghost predicate ShapeAt(s: string, b: int, e: int) {
    && 0 <= b < e <= |s|
    && ((IsDigit(s[b]) && VersionCharsIn(s, b + 1, e)) || exists k :: EpochAt(s, b, k, e))
  }

  /** The same, for a whole text. */
  ghost predicate Shape(t: string) {
    ShapeAt(t, 0, |t|)
  }

  /** After an operator ending at `q`, the version may start at `q` or,
      past one whitespace, at `q + 1`. */
  predicate StartsAfter(s: string, q: int, b: int) {
    b == q || (b == q + 1 && 0 <= q < |s| && IsSpace(s[q]))
  }

  /** The pattern with alternatives `ops` matches at position `j` with
      operator `op` and version `s[b..e]`. */
  ghost predicate MatchAt(ops: seq<string>, s: string, j: int, op: string, b: int, e: int) {
    op in ops && At(s, op, j) && StartsAfter(s, j + |op|, b) && ShapeAt(s, b, e)
  }

  /** No match begins at `j`. */
  ghost predicate NoMatchAt(ops: seq<string>, s: string, j: int) {
    forall op, b, e :: !MatchAt(ops, s, j, op, b, e)
  }

  /** The match at `j` with operator `op` and version `s[b..e]` is the
      only one there but for a shorter version. */
  ghost predicate BestAt(ops: seq<string>, s: string, j: int, op: string, b: int, e: int) {
    && MatchAt(ops, s, j, op, b, e)
    && forall op', b', e' :: MatchAt(ops, s, j, op', b', e') ==> op' == op && b' == b && e' <= e
  }

  /** No match begins from `i` up to, not including, `j`. */
  ghost predicate NoneBetween(ops: seq<string>, s: string, i: int, j: int) {
    forall j' :: i <= j' < j ==> NoMatchAt(ops, s, j')
  }

  /** The leftmost match from `i` on starts at `j` with operator `op` and
      version `s[b..e]`, the best there. */
  ghost predicate LeftmostFrom(ops: seq<string>, s: string, i: int, j: int, op: string, b: int, e: int) {
    BestAt(ops, s, j, op, b, e) && NoneBetween(ops, s, i, j)
  }

  /** The end of the run of digits starting at `i`. */
  function DigitRun(s: string, i: nat): (n: nat)
    requires i <= |s|
    ensures i <= n <= |s|
    decreases |s| - i
  {
    if i < |s| && IsDigit(s[i]) then DigitRun(s, i + 1) else i
  }

  /** The end of the run of version characters starting at `i`. */
  function ClassRun(s: string, i: nat): (n: nat)
    requires i <= |s|
    ensures i <= n <= |s|
    decreases |s| - i
  {
    if i < |s| && IsVersionChar(s[i]) then ClassRun(s, i + 1) else i
  }

  /** The run of digits is made of digits, and ends at the first other
      character. */
  lemma {:induction false} DigitRunSpec(s: string, i: nat)
    requires i <= |s|
    ensures DigitsIn(s, i, DigitRun(s, i))
    ensures DigitRun(s, i) == |s| || !IsDigit(s[DigitRun(s, i)])
    decreases |s| - i
  {
    if i < |s| && IsDigit(s[i]) {
      DigitRunSpec(s, i + 1);
    }
  }

  /** The run of version characters is made of them, and ends at the
      first other character. */
  lemma {:induction false} ClassRunSpec(s: string, i: nat)
    requires i <= |s|
    ensures VersionCharsIn(s, i, ClassRun(s, i))
    ensures ClassRun(s, i) == |s| || !IsVersionChar(s[ClassRun(s, i)])
    decreases |s| - i
  {
    if i < |s| && IsVersionChar(s[i]) {
      ClassRunSpec(s, i + 1);
    }
  }

  /** No run of digits is longer than the maximal one. */
  lemma {:induction false} DigitRunLongest(s: string, i: nat, e: nat)
    requires i <= e <= |s| && DigitsIn(s, i, e)
    ensures e <= DigitRun(s, i)
    decreases e - i
  {
    if i < e {
      DigitRunLongest(s, i + 1, e);
    }
  }

  /** No run of version characters is longer than the maximal one. */
  lemma {:induction false} ClassRunLongest(s: string, i: nat, e: nat)
    requires i <= e <= |s| && VersionCharsIn(s, i, e)
    ensures e <= ClassRun(s, i)
    decreases e - i
  {
    if i < e {
      ClassRunLongest(s, i + 1, e);
    }
  }

  /** The end of group 2 matched at `b`: the epoch is taken when a run of
      digits, a colon and a digit follow, and the trailing class is greedy. */
  function TokenEnd(s: string, b: nat): (r: Option<nat>)
    requires b <= |s|
    ensures r.Some? ==> b < r.value <= |s|
  {
    if b < |s| && IsDigit(s[b]) then
      var k := DigitRun(s, b);
      if k + 1 < |s| && s[k] == ':' && IsDigit(s[k + 1]) then Some(ClassRun(s, k + 2))
      else Some(ClassRun(s, b + 1))
    else None
  }

  /** Where the version starts after an operator ending at `q`: `\s?` is
      greedy, and when it takes a whitespace that no version follows, not
      taking it cannot help, since a version starts with a digit. */
  function VersionStart(s: string, q: nat): (b: nat)
    requires q <= |s|
    ensures StartsAfter(s, q, b) && b <= |s|
  {
    if q < |s| && IsSpace(s[q]) then q + 1 else q
  }

  /** Operator `op` at `i`, followed by a version. */
  predicate Try(s: string, i: nat, op: string)
    requires i <= |s|
  {
    At(s, op, i) && TokenEnd(s, VersionStart(s, i + |op|)).Some?
  }

  /** The alternatives `ops` tried in order at `i`: the first that is
      followed by a version. */
  function FirstOperator(s: string, i: nat, ops: seq<string>): (r: Option<string>)
    requires i <= |s|
    ensures r.Some? ==> r.value in ops && Try(s, i, r.value)
    ensures r.None? ==> forall op :: op in ops ==> !Try(s, i, op)
    decreases |ops|
  {
    if ops == [] then None
    else if Try(s, i, ops[0]) then Some(ops[0])
    else FirstOperator(s, i, ops[1..])
  }

  /** `re.search` from position `i`: the position of the match and its
      operator. */
  function SearchFrom(s: string, i: nat, ops: seq<string>): (r: Option<(nat, string)>)
    requires i <= |s|
    ensures r.Some? ==> i <= r.value.0 <= |s| && r.value.1 in ops && Try(s, r.value.0, r.value.1)
    decreases |s| - i
  {
    var here := FirstOperator(s, i, ops);
    if here.Some? then Some((i, here.value))
    else if i == |s| then None
    else SearchFrom(s, i + 1, ops)
  }

  /** The triple `_get_version_info` returns. */
  datatype VersionInfo = VersionInfo(version: string, operator: string, specified: bool)

  /** The triple for a condition searched with the alternatives `ops`. */
  function InfoWith(v: string, ops: seq<string>): VersionInfo {
    var found := SearchFrom(v, 0, ops);
    if found.None? then VersionInfo(v, "", false)
    else
      var j := found.value.0;
      var op := found.value.1;
      var b := VersionStart(v, j + |op|);
      VersionInfo(v[b..TokenEnd(v, b).value], op, true)
  }

  function GetVersionInfo(v: string): VersionInfo {
    InfoWith(v, Operators)
  }

  /** The version found at `b` has the version shape. */
  lemma TokenEndSound(s: string, b: nat)
    requires b <= |s| && TokenEnd(s, b).Some?
    ensures ShapeAt(s, b, TokenEnd(s, b).value)
  {
    var k := DigitRun(s, b);
    DigitRunSpec(s, b);
    if k + 1 < |s| && s[k] == ':' && IsDigit(s[k + 1]) {
      ClassRunSpec(s, k + 2);
      assert EpochAt(s, b, k, ClassRun(s, k + 2));
    } else {
      ClassRunSpec(s, b + 1);
    }
  }

  /** Any version at `b` is found there and ends no later than what is
      found. */
  lemma TokenEndLongest(s: string, b: nat, e: nat)
    requires ShapeAt(s, b, e)
    ensures TokenEnd(s, b).Some? && e <= TokenEnd(s, b).value
  {
    if exists k :: EpochAt(s, b, k, e) {
      var k :| EpochAt(s, b, k, e);
      EpochLongest(s, b, k, e);
    } else {
      PlainLongest(s, b, e);
    }
  }

  /** A version without epoch at `b` ends no later than what is found. */
  lemma PlainLongest(s: string, b: nat, e: nat)
    requires 0 <= b < e <= |s| && IsDigit(s[b]) && VersionCharsIn(s, b + 1, e)
    ensures TokenEnd(s, b).Some? && e <= TokenEnd(s, b).value
  {
    ClassRunLongest(s, b + 1, e);
    var k := DigitRun(s, b);
    if k + 1 < |s| && s[k] == ':' && IsDigit(s[k + 1]) {
      DigitRunSpec(s, b);
      if k < e {
        CharIn(s, b + 1, e, k);
        assert false;
      }
    }
  }

  lemma CharIn(s: string, b: int, e: int, k: int)
    ensures 0 <= b <= k < e <= |s| && VersionCharsIn(s, b, e) ==> IsVersionChar(s[k])
  {
  }

  /** A version with an epoch ending at `k` is found with that epoch, and
      ends no later than what is found. */
  lemma EpochLongest(s: string, b: nat, k: nat, e: nat)
    requires e <= |s| && EpochAt(s, b, k, e)
    ensures TokenEnd(s, b).Some? && e <= TokenEnd(s, b).value
  {
    DigitRunLongest(s, b, k);
    DigitRunSpec(s, b);
    assert DigitRun(s, b) == k;
    ClassRunLongest(s, k + 2, e);
  }

  /** What follows an operator is a version, after at most one whitespace. */
  lemma Follows(s: string, j: int, op: string, b: int, e: int)
    ensures ShapeAt(s, b, e) && StartsAfter(s, j + |op|, b) ==>
      j + |op| < |s| && (IsSpace(s[j + |op|]) || IsDigit(s[j + |op|]))
  {
  }

  /** The `m`-th character of a text found at `j`. */
  lemma AtChar(s: string, t: string, j: int, m: int)
    ensures At(s, t, j) && 0 <= m < |t| ==> s[j + m] == t[m]
  {
    if At(s, t, j) && 0 <= m < |t| {
      assert s[j..j + |t|][m] == s[j + m];
    }
  }

  /** At most one operator can begin a match at a given position: a shorter
      operator that is a prefix of a longer one is followed by an operator
      character, which neither a whitespace nor a version begins with. */
  lemma OperatorUnique(ops: seq<string>, s: string, j: int, op: string, b: int, e: int, op': string, b': int, e': int)
    requires Alternatives(ops) && MatchAt(ops, s, j, op, b, e) && MatchAt(ops, s, j, op', b', e')
    ensures op == op'
  {
    if |op'| < |op| {
      Follows(s, j, op', b', e');
      AtChar(s, op, j, |op'|);
      assert false;
    } else if |op| < |op'| {
      Follows(s, j, op, b, e);
      AtChar(s, op', j, |op|);
      assert false;
    } else {
      assert op == s[j..j + |op|] == op';
    }
  }

  /** A version after an operator ending at `q` starts where
      `VersionStart` says. */
  lemma StartUnique(s: string, q: int, b: int, e: int)
    requires 0 <= q <= |s| && StartsAfter(s, q, b) && ShapeAt(s, b, e)
    ensures b == VersionStart(s, q)
  {
  }

  /** An operator followed by a version is the best match there. */
  lemma Best(ops: seq<string>, s: string, i: nat, op: string)
    requires Alternatives(ops) && i <= |s| && op in ops && Try(s, i, op)
    ensures var b := VersionStart(s, i + |op|);
      BestAt(ops, s, i, op, b, TokenEnd(s, b).value)
  {
    var b := VersionStart(s, i + |op|);
    TokenEndSound(s, b);
    forall op', b', e' | MatchAt(ops, s, i, op', b', e')
      ensures op' == op && b' == b && e' <= TokenEnd(s, b).value
    {
      OperatorUnique(ops, s, i, op, b, TokenEnd(s, b).value, op', b', e');
      StartUnique(s, i + |op|, b', e');
      TokenEndLongest(s, b', e');
    }
  }

  /** The alternatives tried at `i` find the best match there, if any. */
  lemma FirstOperatorSpec(s: string, i: nat, ops: seq<string>)
    requires Alternatives(ops) && i <= |s|
    ensures FirstOperator(s, i, ops).None? ==> NoMatchAt(ops, s, i)
    ensures FirstOperator(s, i, ops).Some? ==>
      var op := FirstOperator(s, i, ops).value;
      var b := VersionStart(s, i + |op|);
      BestAt(ops, s, i, op, b, TokenEnd(s, b).value)
  {
    var r := FirstOperator(s, i, ops);
    if r.None? {
      forall op, b, e | MatchAt(ops, s, i, op, b, e) ensures false {
        StartUnique(s, i + |op|, b, e);
      }
    } else {
      Best(ops, s, i, r.value);
    }
  }

  /** No match at `i` nor from `i + 1` up to `j`: none from `i` up to `j`. */
  lemma NoneBefore(ops: seq<string>, s: string, i: int, j: int)
    requires NoMatchAt(ops, s, i) && NoneBetween(ops, s, i + 1, j)
    ensures NoneBetween(ops, s, i, j)
  {
  }

  /** What `SearchFrom` finds is the leftmost match, and the best there. */
  lemma {:induction false} SearchFound(s: string, i: nat, ops: seq<string>, j: nat, op: string)
    requires Alternatives(ops) && i <= |s| && SearchFrom(s, i, ops) == Some((j, op))
    ensures j <= |s| && VersionStart(s, j + |op|) <= |s| && TokenEnd(s, VersionStart(s, j + |op|)).Some?
    ensures LeftmostFrom(ops, s, i, j, op, VersionStart(s, j + |op|), TokenEnd(s, VersionStart(s, j + |op|)).value)
    decreases |s| - i
  {
    var here := FirstOperator(s, i, ops);
    FirstOperatorSpec(s, i, ops);
    if here.Some? {
      assert j == i && op == here.value;
    } else {
      assert SearchFrom(s, i + 1, ops) == Some((j, op));
      SearchFound(s, i + 1, ops, j, op);
      NoneBefore(ops, s, i, j);
    }
  }

  /** When `SearchFrom` finds nothing, no match begins anywhere from `i` on. */
  lemma {:induction false} SearchNone(s: string, i: nat, ops: seq<string>)
    requires Alternatives(ops) && i <= |s| && SearchFrom(s, i, ops) == None
    ensures NoneBetween(ops, s, i, |s| + 1)
    decreases |s| - i
  {
    FirstOperatorSpec(s, i, ops);
    if i < |s| {
      assert SearchFrom(s, i + 1, ops) == None;
      SearchNone(s, i + 1, ops);
      NoneBefore(ops, s, i, |s| + 1);
    }
  }

  /** A slice has the version shape exactly when its text does. */
  lemma ShapeSlice(s: string, b: int, e: int)
    requires 0 <= b < e <= |s|
    ensures ShapeAt(s, b, e) <==> Shape(s[b..e])
  {
    var t := s[b..e];
    assert forall j :: 0 <= j < |t| ==> t[j] == s[b + j];
    if ShapeAt(s, b, e) && exists k :: EpochAt(s, b, k, e) {
      var k :| EpochAt(s, b, k, e);
      assert EpochAt(t, 0, k - b, |t|);
    }
    if Shape(t) && exists k :: EpochAt(t, 0, k, |t|) {
      var k :| EpochAt(t, 0, k, |t|);
      assert EpochAt(s, b, k + b, e);
    }
  }

  /** The version `t` with operator `op` is the one of the leftmost match,
      the longest version there. */
  ghost predicate LeftmostVersion(ops: seq<string>, v: string, op: string, t: string) {
    exists j, b, e :: 0 <= b <= e <= |v| && t == v[b..e] && LeftmostFrom(ops, v, 0, j, op, b, e)
  }

  /** What `_get_version_info` promises of its triple `r` for the
      condition `v`: without a match the condition unchanged with no
      operator; with one, an operator among the alternatives and a version
      of the version shape, both from the leftmost match. */
  ghost predicate Describes(ops: seq<string>, v: string, r: VersionInfo) {
    && (!r.specified <==> NoneBetween(ops, v, 0, |v| + 1))
    && (!r.specified ==> r == VersionInfo(v, "", false))
    && (r.specified ==> r.operator in ops && Shape(r.version) && LeftmostVersion(ops, v, r.operator, r.version))
  }

  /** The triple found with the alternatives `ops` is the one described. */
  lemma InfoWithSpec(v: string, ops: seq<string>)
    requires Alternatives(ops)
    ensures Describes(ops, v, InfoWith(v, ops))
  {
    var r := InfoWith(v, ops);
    var found := SearchFrom(v, 0, ops);
    if found.Some? {
      var j := found.value.0;
      var op := found.value.1;
      SearchFound(v, 0, ops, j, op);
      var b := VersionStart(v, j + |op|);
      var e := TokenEnd(v, b).value;
      assert r == VersionInfo(v[b..e], op, true);
      assert LeftmostVersion(ops, v, op, v[b..e]);
      assert !NoMatchAt(ops, v, j);
      TokenEndSound(v, b);
      ShapeSlice(v, b, e);
    } else {
      SearchNone(v, 0, ops);
      assert r == VersionInfo(v, "", false);
    }
  }

  /** `_get_version_info` returns the triple described, for the operators
      of its pattern. */
  lemma GetVersionInfoSpec(v: string)
    ensures Describes(Operators, v, GetVersionInfo(v))
  {
    OperatorsAreAlternatives();
    InfoWithSpec(v, Operators);
  }

  /** A condition without operator characters, such as a bare version
      "1.0", is returned unchanged with no operator. */
  lemma PlainCondition(v: string)
    requires forall i :: 0 <= i < |v| ==> !OperatorChar(v[i])
    ensures GetVersionInfo(v) == VersionInfo(v, "", false)
  {
    GetVersionInfoSpec(v);
    OperatorsAreAlternatives();
    forall j | 0 <= j <= |v| ensures NoMatchAt(Operators, v, j) {
      forall op, b, e | MatchAt(Operators, v, j, op, b, e) ensures false {
        AtChar(v, op, j, 0);
      }
    }
  }
}
