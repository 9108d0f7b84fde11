/** Classifying the lines opkg prints while it works
    (salt/modules/opkg.py, `_get_operation_from_output_line`,
    `_get_package_from_output_line`,
    `_get_operation_and_package_from_output_line` and the count in
    `_get_total_packages`). */
module OutputClassifier {
  import opened Wrappers
  import opened Text

  datatype Operation = Install | Upgrade | Remove | Downgrade | Download

  /** The first word of the lines that announce an operation. */
  function Word(op: Operation): string {
    match op
    case Install => "Installing"
    case Upgrade => "Upgrading"
    case Remove => "Removing"
    case Downgrade => "Downgrading"
    case Download => "Downloading"
  }

  /** The operations that change a package; a download does not. */
  predicate Changes(op: Operation) {
    op != Download
  }

  /** The `operations` dictionary: a first word to its operation, with
      "Downloading" present only when downloads are asked for. */
  function WordOperation(w: string, includeDownload: bool): (r: Option<Operation>)
    ensures r.Some? ==> Word(r.value) == w && (r.value == Download ==> includeDownload)
  {
    if w == "Installing" then Some(Install)
    else if w == "Upgrading" then Some(Upgrade)
    else if w == "Removing" then Some(Remove)
    else if w == "Downgrading" then Some(Downgrade)
    else if w == "Downloading" && includeDownload then Some(Download)
    else None
  }

  /** Every operation's word is recognised, "Downloading" only when asked. */
  lemma WordOperationOfWord(op: Operation, includeDownload: bool)
    ensures WordOperation(Word(op), includeDownload) == (if op == Download && !includeDownload then None else Some(op))
  {
  }

  /** `_get_operation_from_output_line`: the operation the first
      whitespace-separated token names; nothing for a blank line. */
  function OperationOf(line: string, includeDownload: bool): Option<Operation> {
    var tokens := Split(line);
    if tokens == [] then None else WordOperation(tokens[0], includeDownload)
  }

  /** A line names an operation iff its first token is that operation's
      word, and a download only when downloads are asked for. */
  lemma OperationOfSpec(line: string, includeDownload: bool, op: Operation)
    ensures OperationOf(line, includeDownload) == Some(op) <==>
      |Split(line)| > 0 && Split(line)[0] == Word(op) && (op == Download ==> includeDownload)
  {
    if |Split(line)| > 0 && Split(line)[0] == Word(op) {
      WordOperationOfWord(op, includeDownload);
    }
  }

  /** The last `/`-separated piece of the line, up to its first `_`:
      `line.split('/')[-1].split('_')[0]`. */
  function DownloadedPackage(line: string): string {
    var pieces := SplitOn(line, "/");
    SplitOn(pieces[|pieces| - 1], "_")[0]
  }

  /** `_get_package_from_output_line`. A download line must end with
      ".ipk." and its newline; for the other operations the line needs a
      third token that starts with "(", so that narrative lines such as
      "Removing any package that ..." name no package. */
  function PackageOf(op: Option<Operation>, line: string): Option<string> {
    if op == Some(Download) && EndsWith(line, ".ipk.\n") then Some(DownloadedPackage(line))
    else if op.Some? && Changes(op.value) then
      var tokens := Split(line);
      if |tokens| >= 3 && "(" <= tokens[2] then Some(tokens[1]) else None
    else None
  }

  /** `_get_operation_and_package_from_output_line`, which classifies with
      downloads included. */
  function OperationAndPackage(line: string): (Option<Operation>, Option<string>) {
    var op := OperationOf(line, true);
    (op, PackageOf(op, line))
  }

  /** The number of lines that name an operation other than a download:
      the sum in `_get_total_packages`, which does not look for a package. */
  function CountOperations(lines: seq<string>): (n: nat)
    ensures n <= |lines|
    decreases |lines|
  {
    if lines == [] then 0
    else CountOperations(lines[..|lines| - 1]) + (if OperationOf(lines[|lines| - 1], false).Some? then 1 else 0)
  }

  /** A blank or whitespace-only line names neither operation nor package. */
  lemma BlankLine(line: string)
    requires forall i :: 0 <= i < |line| ==> IsSpace(line[i])
    ensures OperationAndPackage(line) == (None, None)
    ensures OperationOf(line, false) == None
  {
    SplitAllSpace(line);
  }

  /** The first three tokens of `<w0> <w1> <w2><rest>`. */
  lemma ThreeTokens(w0: string, w1: string, w2: string, rest: string)
    requires |w0| > 0 && NoSpace(w0) && |w1| > 0 && NoSpace(w1) && |w2| > 0 && NoSpace(w2)
    requires rest == [] || IsSpace(rest[0])
    ensures var tokens := Split(w0 + ([' '] + (w1 + ([' '] + (w2 + rest)))));
      |tokens| >= 3 && tokens[0] == w0 && tokens[1] == w1 && tokens[2] == w2
  {
    var s2 := w2 + rest;
    SplitWord(w2, rest);
    var t2 := [' '] + s2;
    SplitSpace(' ', s2);
    var s1 := w1 + t2;
    SplitWord(w1, t2);
    var t1 := [' '] + s1;
    SplitSpace(' ', s1);
    SplitWord(w0, t1);
    SeqOfThree(Split(w0 + t1), w0, w1, w2, Split(rest));
  }

  lemma SeqOfThree(tokens: seq<string>, w0: string, w1: string, w2: string, tail: seq<string>)
    requires tokens == [w0] + ([w1] + ([w2] + tail))
    ensures |tokens| >= 3 && tokens[0] == w0 && tokens[1] == w1 && tokens[2] == w2
  {
  }

  lemma Spaced3(w0: string, w1: string, w2: string, rest: string)
    ensures w0 + " " + w1 + " " + w2 + rest == w0 + ([' '] + (w1 + ([' '] + (w2 + rest))))
  {
  }

  /** An operation line names its package, the second token, exactly when
      the third token starts with "(": "Installing vim (17.0.0) on root"
      gives (install, "vim") and "Removing any package that ..." gives
      (remove, nothing). */
  lemma ThirdTokenGuard(op: Operation, w1: string, w2: string, rest: string)
    requires Changes(op)
    requires |w1| > 0 && NoSpace(w1) && |w2| > 0 && NoSpace(w2)
    requires rest == [] || IsSpace(rest[0])
    ensures OperationAndPackage(Word(op) + " " + w1 + " " + w2 + rest)
            == (Some(op), if w2[0] == '(' then Some(w1) else None)
  {
    ThreeTokens(Word(op), w1, w2, rest);
    Spaced3(Word(op), w1, w2, rest);
    WordOperationOfWord(op, true);
  }

  /** A line with fewer than three tokens names no package. */
  lemma ShortLine(line: string)
    requires |Split(line)| < 3 && !EndsWith(line, ".ipk.\n")
    ensures OperationAndPackage(line).1 == None
  {
  }

  /** A download line names the package between the last `/` and the
      first `_` after it: ".../ni-xnet-notices_20.0.0.49152-0+f0_all.ipk."
      gives "ni-xnet-notices". */
  lemma DownloadLine(url: string, name: string, rest: string)
    requires |url| > 0 && NoSpace(url)
    requires forall i :: 0 <= i < |name| ==> name[i] != '/' && name[i] != '_'
    requires forall i :: 0 <= i < |rest| ==> rest[i] != '/'
    ensures OperationAndPackage("Downloading " + url + "/" + name + "_" + rest + ".ipk.\n") == (Some(Download), Some(name))
  {
    var leaf := name + "_" + rest + ".ipk.\n";
    var line := "Downloading " + url + "/" + leaf;
    DownloadText(url, name, rest);
    DownloadLeaf(name, rest);
    DownloadShape(url, leaf);
    SplitOnLastPiece("Downloading " + url, leaf, '/');
    DownloadFirstToken(url + "/" + leaf);
    DownloadOf(line, leaf, name);
  }

  /** The classification of a download line from its first token, its end
      and its last piece. */
  lemma DownloadOf(line: string, leaf: string, name: string)
    requires OperationOf(line, true) == Some(Download) && EndsWith(line, ".ipk.\n")
    requires var pieces := SplitOn(line, "/"); pieces[|pieces| - 1] == leaf
    requires SplitOn(leaf, "_")[0] == name
    ensures OperationAndPackage(line) == (Some(Download), Some(name))
  {
  }

  lemma DownloadText(url: string, name: string, rest: string)
    ensures "Downloading " + url + "/" + name + "_" + rest + ".ipk.\n" == "Downloading " + url + "/" + (name + "_" + rest + ".ipk.\n")
  {
  }

  /** The last piece of a download line, and its part before the first `_`. */
  lemma DownloadLeaf(name: string, rest: string)
    requires forall i :: 0 <= i < |name| ==> name[i] != '/' && name[i] != '_'
    requires forall i :: 0 <= i < |rest| ==> rest[i] != '/'
    ensures var leaf := name + "_" + rest + ".ipk.\n";
      (forall i :: 0 <= i < |leaf| ==> leaf[i] != '/') && SplitOn(leaf, "_")[0] == name
      && EndsWith(leaf, ".ipk.\n")
  {
    var tail := rest + ".ipk.\n";
    var leaf := name + "_" + rest + ".ipk.\n";
    assert leaf == name + ['_'] + tail;
    SplitOnFirstPiece(name, tail, '_');
    assert forall i :: 0 <= i < |leaf| ==> leaf[i] != '/' by {
      forall i | 0 <= i < |leaf| ensures leaf[i] != '/' {
        if i < |name| { assert leaf[i] == name[i]; }
        else if i > |name| { assert leaf[i] == tail[i - |name| - 1]; }
      }
    }
    assert leaf[|leaf| - 6..] == ".ipk.\n";
  }

  lemma DownloadShape(url: string, leaf: string)
    requires EndsWith(leaf, ".ipk.\n")
    ensures "Downloading " + url + "/" + leaf == ("Downloading " + url) + ['/'] + leaf
    ensures "Downloading " + url + "/" + leaf == "Downloading" + (" " + (url + "/" + leaf))
    ensures EndsWith("Downloading " + url + "/" + leaf, ".ipk.\n")
  {
    var line := "Downloading " + url + "/" + leaf;
    assert line[|line| - 6..] == leaf[|leaf| - 6..];
  }

  lemma DownloadFirstToken(s: string)
    ensures OperationOf("Downloading" + (" " + s), true) == Some(Download)
  {
    SplitWord("Downloading", " " + s);
  }

  /** Downloads are never part of the operation count. */
  lemma CountIgnoresDownloads(line: string)
    ensures OperationOf(line, false) != Some(Download)
    ensures OperationOf(line, false).Some? <==> OperationOf(line, true).Some? && Changes(OperationOf(line, true).value)
  {
  }
}
