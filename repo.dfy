/** The repository-line helpers (salt/modules/opkg.py:1623-1667,
    1744-1767): the parser of one `src`/`src/gz` line of an opkg
    configuration file into a repository dictionary, with its bracketed
    options, and the builder of such a line. Reading and writing the files
    is outside the model; `shlex_split` is a parameter. */
module RepoConfig {
  import opened Wrappers
  import opened Text

  /** A value of the repository dictionary: the flags `enabled`,
      `compressed` and `trusted` are booleans, the rest text. */
  datatype RepoValue = Bool(b: bool) | Str(s: string)

  type Repo = map<string, RepoValue>

  const ConfDir: string := "/etc/opkg"

  /** The delimiters `[` and `]` of `_set_repo_options` (1642). */
  const Brackets: set<char> := {'[', ']'}

  /** `_set_repo_option(repo, option)` (1623-1635): an option of the form
      `key=value` is stored, `trusted` as the boolean `value == "yes"`;
      anything else is ignored. */
  function SetRepoOption(repo: Repo, option: string): Repo {
    if option == "" then repo
    else
      var opt := SplitOn(option, "=");
      if |opt| != 2 then repo
      else if opt[0] == "trusted" then repo["trusted" := Bool(opt[1] == "yes")]
      else repo[opt[0] := Str(opt[1])]
  }

  /** `c` does not occur in `s`. */
  predicate Lacks(s: string, c: char) {
    forall k :: 0 <= k < |s| ==> s[k] != c
  }

  /** An option with one `=` sets the key before it to the value after
      it. */
  lemma SetRepoOptionSpec(repo: Repo, key: string, value: string)
    requires Lacks(key, '=') && Lacks(value, '=')
    ensures SetRepoOption(repo, key + "=" + value) ==
      repo[key := if key == "trusted" then Bool(value == "yes") else Str(value)]
  {
    assert key + "=" + value == key + ['='] + value;
    SplitOnTwo(key, value, '=');
  }

  /** An option with no `=` or more than one leaves the repository as it
      is. */
  lemma SetRepoOptionIgnored(repo: Repo, option: string)
    requires !Contains(option, "=") || |SplitOn(option, "=")| > 2
    ensures SetRepoOption(repo, option) == repo
  {
    if option != "" {
      SplitOnHead(option, "=");
    }
  }

  /** The options of one column, in order. */
  function SetPieces(repo: Repo, pieces: seq<string>): Repo
    decreases |pieces|
  {
    if pieces == [] then repo
    else SetRepoOption(SetPieces(repo, pieces[..|pieces| - 1]), pieces[|pieces| - 1])
  }

  /** `_set_repo_options(repo, options)` (1638-1647): every column is
      split at the brackets and each piece is applied as an option. */
  function SetRepoOptions(repo: Repo, options: seq<string>): Repo
    decreases |options|
  {
    if options == [] then repo
    else SetPieces(SetRepoOptions(repo, options[..|options| - 1]), SplitOnChars(options[|options| - 1], Brackets))
  }

  /** Options only add or overwrite keys, and `trusted` only ever receives
      a boolean. */
  lemma {:induction false} SetPiecesKeeps(repo: Repo, pieces: seq<string>)
    ensures repo.Keys <= SetPieces(repo, pieces).Keys
    ensures "trusted" in SetPieces(repo, pieces) && SetPieces(repo, pieces)["trusted"].Str? ==>
      "trusted" in repo && repo["trusted"] == SetPieces(repo, pieces)["trusted"]
    decreases |pieces|
  {
    if pieces != [] {
      SetPiecesKeeps(repo, pieces[..|pieces| - 1]);
    }
  }

  lemma {:induction false} SetRepoOptionsKeeps(repo: Repo, options: seq<string>)
    ensures repo.Keys <= SetRepoOptions(repo, options).Keys
    ensures "trusted" in SetRepoOptions(repo, options) && SetRepoOptions(repo, options)["trusted"].Str? ==>
      "trusted" in repo && repo["trusted"] == SetRepoOptions(repo, options)["trusted"]
    decreases |options|
  {
    if options != [] {
      var init := options[..|options| - 1];
      SetRepoOptionsKeeps(repo, init);
      SetPiecesKeeps(SetRepoOptions(repo, init), SplitOnChars(options[|options| - 1], Brackets));
    }
  }

  /** The nested loop of `_set_repo_options`, which updates the dictionary
      it is given. */
  method ApplyRepoOptions(repo: Repo, options: seq<string>) returns (r: Repo)
    ensures r == SetRepoOptions(repo, options)
  {
    r := repo;
    for i := 0 to |options|
      invariant r == SetRepoOptions(repo, options[..i])
    {
      assert options[..i + 1][..i] == options[..i];
      var splitted := SplitOnChars(options[i], Brackets);
      var before := r;
      for j := 0 to |splitted|
        invariant r == SetPieces(before, splitted[..j])
      {
        assert splitted[..j + 1][..j] == splitted[..j];
        r := SetRepoOption(r, splitted[j]);
      }
      assert splitted[..|splitted|] == splitted;
    }
    assert options[..|options|] == options;
  }

  /** `os.path.join(OPKG_CONFDIR, filename)`. */
  function ConfPath(filename: string): string {
    if StartsWith(filename, "/") then filename else ConfDir + "/" + filename
  }

  /** `_create_repo(line, filename)` (1650-1667), with `shlex_split` the
      tokeniser `tokens`: a commented line is a disabled repository; the
      columns are the type, the name, the URI and options; fewer than three
      columns raise IndexError. `cols[0] in "src"` is a substring test, so
      the types `src`, `rc`, `s` and so on all mark an uncompressed
      repository. */
  function CreateRepo(line: string, filename: string, tokens: string -> seq<string>): Result<Repo> {
    var enabled := !StartsWith(line, "#");
    var body := if enabled then line else line[1..];
    var cols := tokens(Strip(body));
    if |cols| < 3 then Err(IndexError)
    else
      var repo := BaseRepo(enabled, cols, filename);
      if |cols| > 3 then Ok(SetRepoOptions(repo, cols[3..])) else Ok(repo)
  }

  /** The dictionary built from the first three columns (1654-1664). */
  function BaseRepo(enabled: bool, cols: seq<string>, filename: string): Repo
    requires |cols| >= 3
  {
    map["enabled" := Bool(enabled), "compressed" := Bool(!Contains("src", cols[0])),
        "name" := Str(cols[1]), "uri" := Str(cols[2]), "file" := Str(ConfPath(filename))]
  }

  /** The parsed repository always holds its five base keys, with the
      columns' name and URI unless an option overwrote them. */
  lemma CreateRepoSpec(line: string, filename: string, tokens: string -> seq<string>)
    ensures CreateRepo(line, filename, tokens).Err? <==> |tokens(Strip(if StartsWith(line, "#") then line[1..] else line))| < 3
    ensures CreateRepo(line, filename, tokens).Ok? ==>
      var repo := CreateRepo(line, filename, tokens).value;
      {"enabled", "compressed", "name", "uri", "file"} <= repo.Keys
      && (|tokens(Strip(if StartsWith(line, "#") then line[1..] else line))| == 3 ==>
            repo["enabled"] == Bool(!StartsWith(line, "#")) && repo.Keys == {"enabled", "compressed", "name", "uri", "file"})
  {
    var enabled := !StartsWith(line, "#");
    var cols := tokens(Strip(if enabled then line else line[1..]));
    if |cols| > 3 {
      SetRepoOptionsKeeps(BaseRepo(enabled, cols, filename), cols[3..]);
    }
  }

  /** `_set_trusted_option_if_needed(repostr, trusted)` (1744-1752), with
      None standing for a value that is neither True nor False. */
  function TrustedOption(repostr: string, trusted: Option<bool>): string {
    match trusted
    case Some(true) => repostr + " [trusted=yes]"
    case Some(false) => repostr + " [trusted=no]"
    case None => repostr
  }

  /** The line `_add_new_repo` writes (1759-1767): "# " for a disabled
      repository, the type, the name (quoted when it holds a space), the
      URI and the trusted option. */
  function RepoLine(name: string, enabled: bool, compressed: bool, uri: string, trusted: Option<bool>): string {
    var head := (if !enabled then "# " else "") + (if compressed then "src/gz " else "src ");
    var quoted := if Contains(name, " ") then "\"" + name + "\" " else name + " ";
    TrustedOption(head + quoted + uri, trusted) + "\n"
  }

  /** The words of the line for a name and URI without whitespace. */
  function LineWords(name: string, compressed: bool, uri: string, trusted: Option<bool>): seq<string> {
    [if compressed then "src/gz" else "src", name, uri] + TrustedWords(trusted)
  }

  function TrustedWords(trusted: Option<bool>): seq<string> {
    match trusted
    case Some(true) => ["[trusted=yes]"]
    case Some(false) => ["[trusted=no]"]
    case None => []
  }

  /** The repository the line describes, read back from `filename`. */
  function Described(name: string, enabled: bool, compressed: bool, uri: string, trusted: Option<bool>, filename: string): Repo {
    var base := map["enabled" := Bool(enabled), "compressed" := Bool(compressed),
                    "name" := Str(name), "uri" := Str(uri), "file" := Str(ConfPath(filename))];
    if trusted.Some? then base["trusted" := Bool(trusted.value)] else base
  }

  lemma NoBlank(name: string)
    requires NoSpace(name)
    ensures !Contains(name, " ")
  {
    if Contains(name, " ") {
      var j :| 0 <= j <= |name| - 1 && At(name, " ", j);
      AtOne(name, ' ', j);
      assert IsSpace(name[j]);
    }
  }

  lemma TrustedJoin(uri: string, trusted: Option<bool>)
    ensures Join([uri] + TrustedWords(trusted), " ") == TrustedOption(uri, trusted)
  {
    var parts := [uri] + TrustedWords(trusted);
    if trusted.Some? {
      var column := TrustedWords(trusted)[0];
      assert parts[1..] == [column];
      assert Join(parts[1..], " ") == column;
    } else {
      assert parts == [uri];
    }
  }

  lemma TrustedPrefix(a: string, b: string, trusted: Option<bool>)
    ensures TrustedOption(a + b, trusted) == a + TrustedOption(b, trusted)
  {
    if trusted.Some? {
      var column := if trusted.value then " [trusted=yes]" else " [trusted=no]";
      assert TrustedOption(a + b, trusted) == (a + b) + column;
      assert a + (b + column) == (a + b) + column;
    }
  }

  /** The option always ends the line with a character that is not
      whitespace. */
  lemma TrustedLast(uri: string, trusted: Option<bool>)
    requires |uri| > 0 && NoSpace(uri)
    ensures var t := TrustedOption(uri, trusted); |t| > 0 && !IsSpace(t[|t| - 1])
  {
  }

  function TypeWord(compressed: bool): string {
    if compressed then "src/gz" else "src"
  }

  lemma JoinLineWords(name: string, compressed: bool, uri: string, trusted: Option<bool>)
    ensures Join(LineWords(name, compressed, uri, trusted), " ") == TypeWord(compressed) + " " + (name + " " + TrustedOption(uri, trusted))
  {
    var ws := LineWords(name, compressed, uri, trusted);
    TrustedJoin(uri, trusted);
    assert ws[2..] == [uri] + TrustedWords(trusted);
    assert ws[1..][1..] == ws[2..];
  }

  lemma LineShape(p: string, t: string, name: string, uri: string, trusted: Option<bool>)
    ensures TrustedOption(p + (t + " ") + (name + " ") + uri, trusted) + "\n" == p + (t + " " + (name + " " + TrustedOption(uri, trusted))) + "\n"
  {
    TrustedPrefix(p + (t + " ") + (name + " "), uri, trusted);
    assert p + (t + " ") + (name + " ") + TrustedOption(uri, trusted) == p + (t + " " + (name + " " + TrustedOption(uri, trusted)));
  }

  lemma RepoLineWords(name: string, enabled: bool, compressed: bool, uri: string, trusted: Option<bool>)
    requires NoSpace(name)
    ensures RepoLine(name, enabled, compressed, uri, trusted) ==
      (if !enabled then "# " else "") + Join(LineWords(name, compressed, uri, trusted), " ") + "\n"
  {
    NoBlank(name);
    var p := if !enabled then "# " else "";
    var t := TypeWord(compressed);
    assert (if compressed then "src/gz " else "src ") == t + " ";
    JoinLineWords(name, compressed, uri, trusted);
    LineShape(p, t, name, uri, trusted);
  }

  /** The bracketed option column splits into the option between two empty
      pieces. */
  lemma BracketPieces(word: string)
    requires forall k :: 0 <= k < |word| ==> word[k] !in Brackets
    ensures SplitOnChars("[" + word + "]", Brackets) == ["", word, ""]
  {
    assert "[" + word + "]" == ['['] + (word + [']']);
    Enclosed('[', ']', word, Brackets);
  }

  lemma Enclosed(open: char, close: char, word: string, seps: set<char>)
    requires open in seps && close in seps
    requires forall k :: 0 <= k < |word| ==> word[k] !in seps
    ensures SplitOnChars([open] + (word + [close]), seps) == ["", word, ""]
  {
    var inner := word + [close];
    var s := [open] + inner;
    assert s[1..] == inner;
    assert SplitOnChars(s, seps) == [""] + SplitOnChars(inner, seps);
    var last := SplitOnChars([close], seps);
    var none: string := [];
    assert [close][1..] == none;
    assert SplitOnChars(none, seps) == [none];
    assert last == [none] + [none];
    SplitOnCharsWord(word, [close], seps);
    assert word + last[0] == word;
    assert SplitOnChars(inner, seps) == [word, ""];
  }

  /** A bracketed `trusted=value` column sets the trusted flag. */
  lemma TrustedColumn(repo: Repo, value: string, column: string)
    requires Lacks(value, '=') && Lacks(value, '[') && Lacks(value, ']')
    requires column == "[" + ("trusted" + "=" + value) + "]"
    ensures SetRepoOptions(repo, [column]) == repo["trusted" := Bool(value == "yes")]
  {
    var word := "trusted" + "=" + value;
    assert forall k :: 0 <= k < |word| ==> word[k] !in Brackets by {
      forall k | 0 <= k < |word| ensures word[k] !in Brackets {
        if k >= 8 {
          assert word[k] == value[k - 8];
        }
      }
    }
    BracketPieces(word);
    var pieces := ["", word, ""];
    assert [column][..0] == [];
    assert SetRepoOptions(repo, [column]) == SetPieces(repo, pieces);
    assert pieces[..2][..1] == [""];
    assert pieces[..2] == ["", word];
    assert SetPieces(repo, pieces[..2][..1]) == repo by {
      assert pieces[..2][..1][..0] == [];
    }
    SetRepoOptionSpec(repo, "trusted", value);
    assert SetPieces(repo, pieces[..2]) == SetRepoOption(repo, word);
  }

  /** The trusted option of a line reads back as the given flag. */
  lemma TrustedReadBack(repo: Repo, trusted: bool)
    ensures SetRepoOptions(repo, TrustedWords(Some(trusted))) == repo["trusted" := Bool(trusted)]
  {
    var value := if trusted then "yes" else "no";
    TrustedColumn(repo, value, if trusted then "[trusted=yes]" else "[trusted=no]");
  }

  /** The joined words start with the type and end with a character
      that is not whitespace. */
  lemma JoinedWords(name: string, compressed: bool, uri: string, trusted: Option<bool>)
    requires |name| > 0 && NoSpace(name) && |uri| > 0 && NoSpace(uri)
    ensures var joined := Join(LineWords(name, compressed, uri, trusted), " ");
      |joined| > 0 && joined[0] == 's' && !IsSpace(joined[|joined| - 1])
  {
    var joined := Join(LineWords(name, compressed, uri, trusted), " ");
    var tr := TrustedOption(uri, trusted);
    JoinLineWords(name, compressed, uri, trusted);
    TrustedLast(uri, trusted);
    assert joined[|joined| - 1] == tr[|tr| - 1];
  }

  /** A line of joined words, commented or not: the comment marker is seen
      exactly when it is there, and stripping the rest gives the words. */
  lemma CommentedBody(p: string, joined: string)
    requires p == "" || p == "# "
    requires |joined| > 0 && joined[0] == 's' && !IsSpace(joined[|joined| - 1])
    ensures var line := p + joined + "\n";
      (StartsWith(line, "#") <==> p == "# ")
      && Strip(if p == "" then line else line[1..]) == joined
  {
    var line := p + joined + "\n";
    if p == "" {
      assert line == "" + joined + "\n";
      assert line[..1][0] == 's';
      StripAround("", joined, "\n");
    } else {
      assert line[1..] == " " + joined + "\n";
      assert line[..1] == "#";
      StripAround(" ", joined, "\n");
    }
  }

  /** The words of a line are non-empty and hold no whitespace. */
  lemma LineWordsClean(name: string, compressed: bool, uri: string, trusted: Option<bool>)
    requires |name| > 0 && NoSpace(name) && |uri| > 0 && NoSpace(uri)
    ensures var ws := LineWords(name, compressed, uri, trusted);
      forall k :: 0 <= k < |ws| ==> |ws[k]| > 0 && NoSpace(ws[k])
  {
    assert NoSpace(TypeWord(compressed));
    assert forall w :: w in TrustedWords(trusted) ==> NoSpace(w);
  }

  /** The round trip of the two helpers: for a name and URI without
      whitespace, quotes or backslashes, where `shlex_split` splits at the
      whitespace, parsing the line `_add_new_repo` writes gives back the
      repository it was written from. */
  lemma RepoLineRoundTrip(name: string, enabled: bool, compressed: bool, uri: string, trusted: Option<bool>, filename: string)
    requires |name| > 0 && NoSpace(name) && |uri| > 0 && NoSpace(uri)
    ensures CreateRepo(RepoLine(name, enabled, compressed, uri, trusted), filename, Split) ==
      Ok(Described(name, enabled, compressed, uri, trusted, filename))
  {
    LineColumns(name, enabled, compressed, uri, trusted);
    ParsedLine(RepoLine(name, enabled, compressed, uri, trusted), name, enabled, compressed, uri, trusted, filename);
  }

  /** A line with the marker and the words of a repository parses into
      that repository. */
  lemma ParsedLine(line: string, name: string, enabled: bool, compressed: bool, uri: string, trusted: Option<bool>, filename: string)
    requires StartsWith(line, "#") <==> !enabled
    requires Split(Strip(if enabled then line else line[1..])) == LineWords(name, compressed, uri, trusted)
    ensures CreateRepo(line, filename, Split) == Ok(Described(name, enabled, compressed, uri, trusted, filename))
  {
    var ws := LineWords(name, compressed, uri, trusted);
    ParsedColumns(line, filename, Split, enabled, ws);
    BaseOfWords(name, enabled, compressed, uri, trusted, filename);
    var base := BaseRepo(enabled, ws, filename);
    if trusted.Some? {
      assert ws[3..] == TrustedWords(trusted);
      TrustedReadBack(base, trusted.value);
      assert Described(name, enabled, compressed, uri, trusted, filename) == base["trusted" := Bool(trusted.value)];
    } else {
      assert |ws| == 3;
    }
  }

  /** A written line is commented exactly when the repository is
      disabled, and its body splits into the line's words. */
  lemma LineColumns(name: string, enabled: bool, compressed: bool, uri: string, trusted: Option<bool>)
    requires |name| > 0 && NoSpace(name) && |uri| > 0 && NoSpace(uri)
    ensures var line := RepoLine(name, enabled, compressed, uri, trusted);
      (StartsWith(line, "#") <==> !enabled)
      && Split(Strip(if enabled then line else line[1..])) == LineWords(name, compressed, uri, trusted)
  {
    var ws := LineWords(name, compressed, uri, trusted);
    var joined := Join(ws, " ");
    RepoLineWords(name, enabled, compressed, uri, trusted);
    JoinedWords(name, compressed, uri, trusted);
    CommentedBody(if !enabled then "# " else "", joined);
    LineWordsClean(name, compressed, uri, trusted);
    SplitJoinWords(ws);
  }

  /** A line whose comment marker and columns are known parses into the
      base dictionary of those columns with their options applied. */
  lemma ParsedColumns(line: string, filename: string, tokens: string -> seq<string>, enabled: bool, cols: seq<string>)
    requires StartsWith(line, "#") <==> !enabled
    requires tokens(Strip(if enabled then line else line[1..])) == cols && |cols| >= 3
    ensures CreateRepo(line, filename, tokens) ==
      Ok(if |cols| > 3 then SetRepoOptions(BaseRepo(enabled, cols, filename), cols[3..]) else BaseRepo(enabled, cols, filename))
  {
  }

  /** The type column of a written line reads back as its compression. */
  lemma BaseOfWords(name: string, enabled: bool, compressed: bool, uri: string, trusted: Option<bool>, filename: string)
    ensures var ws := LineWords(name, compressed, uri, trusted);
      BaseRepo(enabled, ws, filename) == Described(name, enabled, compressed, uri, None, filename)
  {
    assert Contains("src", "src") by { assert At("src", "src", 0); }
    assert !Contains("src", "src/gz");
  }
}
