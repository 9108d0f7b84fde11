/** `refresh_db` (salt/modules/opkg.py:307-366): run `opkg update`, read the
    status of each package feed from its output, and decide between a
    result and an error. */
module FeedRefresh {
  import opened Wrappers
  import opened Text
  import opened Dicts
  import opened ToolInvoker

  /** The command `refresh_db` runs. */
  const UpdateCommand: seq<string> := ["opkg", "update"]

  /** `w[:-1]` of a non-empty word. */
  function DropLast(w: string): string
    requires |w| > 0
  {
    w[..|w| - 1]
  }

  /** The feed a line reports and whether it was updated (343-356): the
      second word of an "Inflating" line without its last character, the
      same from the line before an "Updated source" line, or the first
      comma-separated part of the sixth word of a "Failed to download" line.
      A line with too few words raises IndexError. */
  function FeedKey(line: string, prevLine: string): Result<Option<(string, bool)>> {
    if Contains(line, "Inflating") then
      var words := Split(Strip(line));
      if |words| < 2 then Err(IndexError) else Ok(Some((DropLast(words[1]), true)))
    else if Contains(line, "Updated source") then
      var words := Split(Strip(prevLine));
      if |words| < 2 then Err(IndexError) else Ok(Some((DropLast(words[1]), true)))
    else if Contains(line, "Failed to download") then
      var words := Split(Strip(line));
      if |words| < 6 then Err(IndexError) else Ok(Some((SplitOn(words[5], ",")[0], false)))
    else Ok(None)
  }

  /** The loop variables of the parse: the feeds seen in order, the feeds
      that failed in order, and the previous line. */
  datatype Feeds = Feeds(ret: Dict<bool>, errorRepos: seq<string>, prevLine: string)

  function Record(st: Feeds, line: string, key: Option<(string, bool)>): Feeds {
    match key
    case None => st.(prevLine := line)
    case Some((k, updated)) =>
      Feeds(Put(st.ret, k, updated), if updated then st.errorRepos else st.errorRepos + [k], line)
  }

  /** The loop over the lines, stopped by the first exception. */
  function ParseFeeds(lines: seq<string>): Result<Feeds>
    decreases |lines|
  {
    if lines == [] then Ok(Feeds(Empty(), [], ""))
    else
      match ParseFeeds(lines[..|lines| - 1])
      case Err(e) => Err(e)
      case Ok(st) =>
        var line := lines[|lines| - 1];
        match FeedKey(line, st.prevLine)
        case Err(e) => Err(e)
        case Ok(key) => Ok(Record(st, line, key))
  }

  /** What the loop keeps: each feed once in `ret`, every failed feed is in
      `ret`, a feed whose last status is a failure is among the failed
      ones, and `prevLine` is the last line read. */
  ghost predicate Good(st: Feeds, lines: seq<string>) {
    Valid(st.ret)
    && (forall k :: k in st.errorRepos ==> k in st.ret.entries)
    && (forall k :: k in st.ret.entries && !st.ret.entries[k] ==> k in st.errorRepos)
    && st.prevLine == (if lines == [] then "" else lines[|lines| - 1])
  }

  lemma {:induction false} ParseFeedsGood(lines: seq<string>)
    ensures ParseFeeds(lines).Ok? ==> Good(ParseFeeds(lines).value, lines)
    decreases |lines|
  {
    if lines != [] {
      ParseFeedsGood(lines[..|lines| - 1]);
    }
  }

  /** A final empty line, which `salt.utils.itertools.split` does not yield
      but a plain split on "\n" does, neither raises nor changes the feeds
      recorded. */
  lemma TrailingEmptyLine(lines: seq<string>)
    ensures ParseFeeds(lines + [""]).Ok? <==> ParseFeeds(lines).Ok?
    ensures ParseFeeds(lines).Ok? ==>
      ParseFeeds(lines + [""]).value.ret == ParseFeeds(lines).value.ret
      && ParseFeeds(lines + [""]).value.errorRepos == ParseFeeds(lines).value.errorRepos
  {
    var all := lines + [""];
    assert all[..|all| - 1] == lines;
    var empty := "";
    assert !Contains(empty, "Inflating") && !Contains(empty, "Updated source") && !Contains(empty, "Failed to download");
  }

  /** The outcome of `refresh_db` for the result of `opkg update`: with
      `failhard`, any failed feed raises an error naming the failed feeds in
      order; a non-zero exit code without a failed feed raises an error
      holding the output; otherwise the feed table. */
  function RefreshOutcome(call: ToolResult, failhard: bool): Result<Dict<bool>> {
    match ParseFeeds(SplitOn(call.stdout, "\n"))
    case Err(e) => Err(e)
    case Ok(st) =>
      if failhard && st.errorRepos != [] then
        Err(CommandExecutionError("Error getting repos: " + Join(st.errorRepos, ", "), []))
      else if call.retcode != 0 && st.errorRepos == [] then
        Err(CommandExecutionError(call.stdout, []))
      else Ok(st.ret)
  }

  /** A returned feed table lists each feed once; it is `False` only for a
      feed that failed; with `failhard` every feed is `True`; and a
      non-zero exit code is accepted only when some feed failed. */
  lemma RefreshSpec(call: ToolResult, failhard: bool)
    ensures RefreshOutcome(call, failhard).Ok? ==>
      var d := RefreshOutcome(call, failhard).value;
      var st := ParseFeeds(SplitOn(call.stdout, "\n")).value;
      Valid(d)
      && (forall k :: k in d.entries && !d.entries[k] ==> k in st.errorRepos)
      && (failhard ==> forall k :: k in d.entries ==> d.entries[k])
      && (call.retcode != 0 ==> st.errorRepos != [])
  {
    ParseFeedsGood(SplitOn(call.stdout, "\n"));
  }

  /** The names of the feeds whose status is `False`, in table order (`install`,
      808). */
  function FailedFeeds(d: Dict<bool>): (r: seq<string>)
    decreases |d.keys|
  {
    if d.keys == [] then []
    else
      var k := d.keys[|d.keys| - 1];
      var init := FailedFeeds(Dict(d.keys[..|d.keys| - 1], d.entries));
      if k in d.entries && !d.entries[k] then init + [k] else init
  }

  /** A feed is listed as failed exactly when the table holds `False` for it. */
  lemma {:induction false} FailedFeedsSpec(d: Dict<bool>, k: string)
    ensures k in FailedFeeds(d) <==> k in d.keys && k in d.entries && !d.entries[k]
    decreases |d.keys|
  {
    if d.keys != [] {
      var init := Dict(d.keys[..|d.keys| - 1], d.entries);
      FailedFeedsSpec(init, k);
      assert d.keys == init.keys + [d.keys[|d.keys| - 1]];
    }
  }

  /** The parse loop of `refresh_db`, which carries `prev_line` and appends
      to `error_repos`. */
  method ParseFeedLines(out: string) returns (r: Result<Feeds>)
    ensures r == ParseFeeds(SplitOn(out, "\n"))
  {
    var lines := SplitOn(out, "\n");
    var ret: Dict<bool> := Empty();
    var errorRepos: seq<string> := [];
    var prevLine := "";
    for i := 0 to |lines|
      invariant ParseFeeds(lines[..i]) == Ok(Feeds(ret, errorRepos, prevLine))
    {
      assert lines[..i + 1][..i] == lines[..i];
      var line := lines[i];
      var key := FeedKey(line, prevLine);
      if key.Err? {
        ParseFeedsStop(lines, i, key.error);
        return Err(key.error);
      }
      if key.value.Some? {
        var (k, updated) := key.value.value;
        ret := Put(ret, k, updated);
        if !updated {
          errorRepos := errorRepos + [k];
        }
      }
      prevLine := line;
    }
    assert lines[..|lines|] == lines;
    r := Ok(Feeds(ret, errorRepos, prevLine));
  }

  /** Once a line raises, the rest of the input is not read. */
  lemma {:induction false} ParseFeedsStuck(lines: seq<string>, n: nat, e: Failure)
    requires n <= |lines| && ParseFeeds(lines[..n]) == Err(e)
    ensures ParseFeeds(lines) == Err(e)
    decreases |lines|
  {
    if |lines| == n {
      assert lines[..n] == lines;
    } else {
      var init := lines[..|lines| - 1];
      assert init[..n] == lines[..n];
      ParseFeedsStuck(init, n, e);
    }
  }

  lemma ParseFeedsStop(lines: seq<string>, i: nat, e: Failure)
    requires i < |lines| && ParseFeeds(lines[..i]).Ok?
    requires FeedKey(lines[i], ParseFeeds(lines[..i]).value.prevLine) == Err(e)
    ensures ParseFeeds(lines) == Err(e)
  {
    var upto := lines[..i + 1];
    assert upto[..|upto| - 1] == lines[..i] && upto[|upto| - 1] == lines[i];
    ParseFeedsStuck(lines, i + 1, e);
  }

  /** `refresh_db(failhard)`: `opkg update` through `_call_opkg`, then the
      parse and the checks at 358-364. */
  method RefreshDb(tool: Tool, failhard: bool) returns (r: Result<Dict<bool>>)
    ensures r == RefreshOutcome(Outcome(UpdateCommand, tool), failhard)
  {
    var call, _, _ := CallOpkg(UpdateCommand, tool);
    var parsed := ParseFeedLines(call.stdout);
    if parsed.Err? {
      return Err(parsed.error);
    }
    var st := parsed.value;
    if failhard && st.errorRepos != [] {
      return Err(CommandExecutionError("Error getting repos: " + Join(st.errorRepos, ", "), []));
    }
    if call.retcode != 0 && st.errorRepos == [] {
      return Err(CommandExecutionError(call.stdout, []));
    }
    r := Ok(st.ret);
  }
}
