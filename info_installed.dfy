/** The parser of `opkg status` / `opkg info` output
    (salt/modules/opkg.py:1430-1485): records of `Key: value` lines separated
    by blank lines, continuation lines that start with a space, attribute
    names mapped to the names shared by Salt's package modules, and an
    optional filter on the attributes kept. */
module InfoInstalled {
  import opened Wrappers
  import opened Text
  import opened Dicts

  /** The attributes of one package record. */
  type Attrs = map<string, string>

  /** `ATTR_MAP` (43-50). */
  const AttrMap: map<string, string> := map[
    "Architecture" := "arch",
    "Homepage" := "url",
    "Installed-Time" := "install_date_time_t",
    "Maintainer" := "packager",
    "Package" := "name",
    "Section" := "group"]

  predicate IsUpper(c: char) {
    'A' <= c <= 'Z'
  }

  /** `_convert_to_standard_attr` (1430-1441): the mapped name, or the key in
      lower case. */
  function ConvertAttr(key: string): string {
    if key in AttrMap then AttrMap[key] else Lower(key)
  }

  /** A standard attribute name holds no capital letter, and it is `name`
      for the `Package` key and for any other key that lower-cases to
      `name`. */
  lemma ConvertAttrSpec(key: string)
    ensures forall i :: 0 <= i < |ConvertAttr(key)| ==> !IsUpper(ConvertAttr(key)[i])
    ensures ConvertAttr(key) == "name" <==> key == "Package" || (key !in AttrMap && Lower(key) == "name")
    ensures key in AttrMap ==> ConvertAttr(key) == AttrMap[key]
  {
    if key in AttrMap {
      assert key in {"Architecture", "Homepage", "Installed-Time", "Maintainer", "Package", "Section"};
    }
  }

  /** The loop variables of `_process_info_installed_output`: the records
      stored so far, the current record's name ("" standing for None, which
      the code treats alike), its attributes and the attribute last set. */
  datatype Parser = Parser(ret: Dict<Attrs>, name: string, attrs: Attrs, attr: Option<string>)

  function Start(): Parser {
    Parser(Empty(), "", map[], None)
  }

  /** `filter_attrs is None or attr in filter_attrs`. */
  predicate Allowed(filter: Option<set<string>>, attr: Option<string>) {
    filter.None? || (attr.Some? && attr.value in filter.value)
  }

  /** A line that continues the last attribute. */
  predicate IsContinuation(line: string) {
    |line| > 0 && line[0] == ' '
  }

  /** A continuation line (1454-1462): the current attribute's value is
      extended when the filter allows it; KeyError when it is not in the
      record. */
  function Continue(p: Parser, line: string, filter: Option<set<string>>): Result<Parser> {
    if !Allowed(filter, p.attr) then Ok(p)
    else if p.attr.None? || p.attr.value !in p.attrs then Err(KeyError)
    else
      var a := p.attr.value;
      var sep := if p.attrs[a] != "" then "\n" else "";
      Ok(p.(attrs := p.attrs[a := p.attrs[a] + sep + Strip(line)]))
  }

  /** A blank line (1464-1470): the open record is stored when it has a name,
      and a new one starts. */
  function Close(p: Parser): Parser {
    Parser(if p.name != "" then Put(p.ret, p.name, p.attrs) else p.ret, "", map[], None)
  }

  /** A `key: value` line (1471-1477), the key already converted and the
      value already stripped on the left. */
  function SetAttr(p: Parser, attr: string, value: string, filter: Option<set<string>>): Parser {
    if attr == "name" then p.(name := value, attr := Some(attr))
    else if Allowed(filter, Some(attr)) then p.(attrs := p.attrs[attr := value], attr := Some(attr))
    else p.(attr := Some(attr))
  }

  /** One pass of the loop body (1453-1481). A record line without a colon
      raises ValueError. */
  function Step(p: Parser, line: string, filter: Option<set<string>>): Result<Parser> {
    if IsContinuation(line) then Continue(p, line, filter)
    else if Strip(line) == "" then Ok(Close(p))
    else
      match SplitFirst(Strip(line), ":")
      case None => Err(ValueError)
      case Some((key, value)) => Ok(SetAttr(p, ConvertAttr(key), LStrip(value), filter))
  }

  /** The loop over `lines`, stopped by the first exception. */
  function Run(lines: seq<string>, filter: Option<set<string>>): Result<Parser>
    decreases |lines|
  {
    if lines == [] then Ok(Start())
    else
      match Run(lines[..|lines| - 1], filter)
      case Err(e) => Err(e)
      case Ok(p) => Step(p, lines[|lines| - 1], filter)
  }

  /** The record still open at the end is stored when it has a name (1483-1484). */
  function Finish(p: Parser): Dict<Attrs> {
    if p.name != "" then Put(p.ret, p.name, p.attrs) else p.ret
  }

  function ParseLines(lines: seq<string>, filter: Option<set<string>>): Result<Dict<Attrs>> {
    match Run(lines, filter)
    case Err(e) => Err(e)
    case Ok(p) => Ok(Finish(p))
  }

  /** `_process_info_installed_output(out, filter_attrs)`, the output split
      on "\n". */
  function ParseOutput(out: string, filter: Option<set<string>>): Result<Dict<Attrs>> {
    ParseLines(SplitOn(out, "\n"), filter)
  }

  /** The names that `Package` (or `name`) lines of `lines` set. */
  function NamesSet(lines: seq<string>): set<string>
    decreases |lines|
  {
    if lines == [] then {}
    else
      var last := lines[|lines| - 1];
      var here := if IsContinuation(last) || Strip(last) == "" then {}
        else match SplitFirst(Strip(last), ":")
          case None => {}
          case Some((key, value)) => if ConvertAttr(key) == "name" then {LStrip(value)} else {};
      NamesSet(lines[..|lines| - 1]) + here
  }

  /** A record never holds the name as an attribute and, under a filter,
      holds only filtered attributes. */
  predicate RecordOk(a: Attrs, filter: Option<set<string>>) {
    "name" !in a && (filter.Some? ==> a.Keys <= filter.value)
  }

  /** What the loop keeps: every stored record is under a non-empty name
      that a `Package` line set and is well formed, and so is the open
      record; without `name` in the filter, an allowed current attribute is
      in the open record. */
  ghost predicate Good(p: Parser, filter: Option<set<string>>, seen: set<string>) {
    Valid(p.ret)
    && (forall k :: k in p.ret.entries ==> k != "" && k in seen && RecordOk(p.ret.entries[k], filter))
    && RecordOk(p.attrs, filter)
    && (p.name == "" || p.name in seen)
    && (filter.Some? && "name" !in filter.value && Allowed(filter, p.attr) ==> p.attr.value in p.attrs)
  }

  lemma StepGood(p: Parser, line: string, filter: Option<set<string>>, seen: set<string>, seen': set<string>)
    requires Good(p, filter, seen) && seen <= seen'
    requires !IsContinuation(line) && Strip(line) != "" && SplitFirst(Strip(line), ":").Some?
      ==> var key := SplitFirst(Strip(line), ":").value.0;
          ConvertAttr(key) == "name" ==> LStrip(SplitFirst(Strip(line), ":").value.1) in seen'
    ensures Step(p, line, filter).Ok? ==> Good(Step(p, line, filter).value, filter, seen')
  {
    if IsContinuation(line) {
      ContinueGood(p, line, filter, seen, seen');
    } else if Strip(line) == "" {
      CloseGood(p, filter, seen, seen');
    } else if SplitFirst(Strip(line), ":").Some? {
      var (key, value) := SplitFirst(Strip(line), ":").value;
      SetAttrGood(p, ConvertAttr(key), LStrip(value), filter, seen, seen');
    }
  }

  lemma ContinueGood(p: Parser, line: string, filter: Option<set<string>>, seen: set<string>, seen': set<string>)
    requires Good(p, filter, seen) && seen <= seen'
    ensures Continue(p, line, filter).Ok? ==> Good(Continue(p, line, filter).value, filter, seen')
  {
  }

  lemma CloseGood(p: Parser, filter: Option<set<string>>, seen: set<string>, seen': set<string>)
    requires Good(p, filter, seen) && seen <= seen'
    ensures Good(Close(p), filter, seen')
  {
  }

  lemma SetAttrGood(p: Parser, attr: string, value: string, filter: Option<set<string>>, seen: set<string>, seen': set<string>)
    requires Good(p, filter, seen) && seen <= seen'
    requires attr == "name" ==> value in seen'
    ensures Good(SetAttr(p, attr, value, filter), filter, seen')
  {
  }

  lemma {:induction false} RunGood(lines: seq<string>, filter: Option<set<string>>)
    ensures Run(lines, filter).Ok? ==> Good(Run(lines, filter).value, filter, NamesSet(lines))
    decreases |lines|
  {
    if lines != [] {
      var init := lines[..|lines| - 1];
      RunGood(init, filter);
      StepGoodLast(init, lines[|lines| - 1], filter);
      assert init + [lines[|lines| - 1]] == lines;
    }
  }

  lemma StepGoodLast(init: seq<string>, line: string, filter: Option<set<string>>)
    requires Run(init, filter).Ok? ==> Good(Run(init, filter).value, filter, NamesSet(init))
    ensures Run(init + [line], filter).Ok? ==> Good(Run(init + [line], filter).value, filter, NamesSet(init + [line]))
  {
    var lines := init + [line];
    assert lines[..|lines| - 1] == init;
    if Run(init, filter).Ok? {
      StepGood(Run(init, filter).value, line, filter, NamesSet(init), NamesSet(lines));
    }
  }

  /** What the parser returns: every record is stored under a name that a
      `Package` line of the output set, no record holds `name` among its
      attributes, and under a filter a record holds only filtered
      attributes. */
  lemma ParseLinesSpec(lines: seq<string>, filter: Option<set<string>>)
    ensures ParseLines(lines, filter).Ok? ==>
      var d := ParseLines(lines, filter).value;
      Valid(d) && forall k :: k in d.entries ==> k != "" && k in NamesSet(lines) && RecordOk(d.entries[k], filter)
  {
    RunGood(lines, filter);
  }

  /** With a filter that leaves out `name`, as `install` passes when it
      reads the names of package files, no continuation line raises
      KeyError. */
  lemma {:induction false} NoKeyError(lines: seq<string>, filter: Option<set<string>>)
    requires filter.Some? && "name" !in filter.value
    ensures Run(lines, filter) != Err(KeyError)
    decreases |lines|
  {
    if lines != [] {
      var init := lines[..|lines| - 1];
      NoKeyError(init, filter);
      RunGood(init, filter);
    }
  }

  /** A blank line and the end of the input both close the open record,
      storing it under its name when it has one and dropping it when not. */
  lemma Closing(lines: seq<string>, filter: Option<set<string>>)
    requires Run(lines, filter).Ok?
    ensures ParseLines(lines + [""], filter) == ParseLines(lines, filter)
    ensures var p := Run(lines, filter).value;
      ParseLines(lines, filter).value == (if p.name != "" then Put(p.ret, p.name, p.attrs) else p.ret)
  {
    var all := lines + [""];
    assert all[..|all| - 1] == lines;
    var p := Run(lines, filter).value;
    assert Strip("") == "";
    var q := Run(all, filter).value;
    assert q.name == "";
  }

  /** A continuation line of an allowed attribute that is in the record
      extends that attribute's value: the old value, a newline only when it
      was non-empty, then the stripped line; nothing else changes. */
  lemma Continuation(p: Parser, line: string, filter: Option<set<string>>)
    requires IsContinuation(line) && Allowed(filter, p.attr) && p.attr.Some? && p.attr.value in p.attrs
    ensures Step(p, line, filter).Ok?
    ensures var q := Step(p, line, filter).value; var a := p.attr.value;
      q.ret == p.ret && q.name == p.name && q.attr == p.attr && q.attrs.Keys == p.attrs.Keys
      && (forall b :: b in p.attrs && b != a ==> q.attrs[b] == p.attrs[b])
      && (p.attrs[a] == "" ==> q.attrs[a] == Strip(line))
      && (p.attrs[a] != "" ==> q.attrs[a] == p.attrs[a] + "\n" + Strip(line))
  {
  }

  /** The loop of `_process_info_installed_output`, which updates its loop
      variables (here the fields of one `Parser` value) line by line. */
  method ProcessInfoInstalledOutput(out: string, filter: Option<set<string>>) returns (r: Result<Dict<Attrs>>)
    ensures r == ParseOutput(out, filter)
  {
    var lines := SplitOn(out, "\n");
    var p := Start();
    for i := 0 to |lines|
      invariant Run(lines[..i], filter) == Ok(p)
    {
      RunNext(lines, i, filter);
      var next := ReadLine(p, lines[i], filter);
      if next.Err? {
        RunStops(lines, i + 1, filter, next.error);
        return Err(next.error);
      }
      p := next.value;
    }
    assert lines[..|lines|] == lines;
    r := Ok(Finish(p));
  }

  /** The body of the loop for one line: the new values of the loop
      variables, or the exception the line raises. */
  method ReadLine(before: Parser, line: string, filter: Option<set<string>>) returns (r: Result<Parser>)
    ensures r == Step(before, line, filter)
  {
    var Parser(ret, name, attrs, attr) := before;
    if IsContinuation(line) {
      if !Allowed(filter, attr) {
        return Ok(before);
      }
      if attr.None? || attr.value !in attrs {
        return Err(KeyError);
      }
      var a := attr.value;
      var value := attrs[a];
      if value != "" {
        value := value + "\n";
      }
      assert value + Strip(line) == attrs[a] + (if attrs[a] != "" then "\n" else "") + Strip(line);
      return Ok(Parser(ret, name, attrs[a := value + Strip(line)], attr));
    }
    var stripped := Strip(line);
    if stripped == "" {
      var stored := ret;
      if name != "" {
        stored := Put(ret, name, attrs);
      }
      return Ok(Parser(stored, "", map[], None));
    }
    var kv := SplitFirst(stripped, ":");
    if kv.None? {
      return Err(ValueError);
    }
    var value := LStrip(kv.value.1);
    var converted := ConvertAttr(kv.value.0);
    if converted == "name" {
      r := Ok(Parser(ret, value, attrs, Some(converted)));
    } else if Allowed(filter, Some(converted)) {
      r := Ok(Parser(ret, name, attrs[converted := value], Some(converted)));
    } else {
      r := Ok(Parser(ret, name, attrs, Some(converted)));
    }
  }

  lemma RunNext(lines: seq<string>, i: nat, filter: Option<set<string>>)
    requires i < |lines|
    ensures Run(lines[..i], filter).Ok? ==> Run(lines[..i + 1], filter) == Step(Run(lines[..i], filter).value, lines[i], filter)
  {
    assert lines[..i + 1][..i] == lines[..i];
  }

  /** Once a line raises, the rest of the input is not read: the exception
      raised on a prefix is the one raised on the whole input. */
  lemma {:induction false} RunStops(lines: seq<string>, k: nat, filter: Option<set<string>>, e: Failure)
    requires k <= |lines| && Run(lines[..k], filter) == Err(e)
    ensures Run(lines, filter) == Err(e)
    decreases |lines|
  {
    if k == |lines| {
      assert lines[..k] == lines;
    } else {
      var init := lines[..|lines| - 1];
      assert init[..k] == lines[..k];
      RunStops(init, k, filter, e);
    }
  }
}
