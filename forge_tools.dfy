/**
 * The result formatting of the Forge agent's tools (Crucible_Forge/tools.py), each taken
 * over an abstracted result of the library call it wraps: the shell command's captured
 * streams, the directory tree `os.walk` visits, the GitHub configuration and board, and
 * the file write.
 */
module ForgeTools {

  import opened Wrappers
  import opened Text

  // ---------------------------------------------------------------------------
  // run_shell_command
  // ---------------------------------------------------------------------------

  /** What `subprocess.run(..., timeout=60)` did. */
  datatype ShellRun =
    | Completed(stdout: string, stderr: string, returnCode: int)
    | TimedOut
    | Crashed(error: string)

  const NoOutput := "Command executed " + "successfully with no output."
  const TimeoutMessage := "Error: Command timed out after 60 seconds."

  const StdoutHeading := "STDOUT:\n"
  const StderrHeading := "STDERR:\n"

  /** The block of one stream under its heading line, empty when the stream is. */
  function Block(heading: string, text: string): string {
    if text == "" then "" else heading + text + "\n"
  }

  function ExitLine(returnCode: int): string {
    "\nExit Code: " + IntToString(returnCode)
  }

  /** `run_shell_command` after the subprocess returns, building the reply with `+=`. */
  method RunShellCommand(run: ShellRun) returns (output: string)
    ensures run.TimedOut? ==> output == TimeoutMessage
    ensures run.Crashed? ==> output == "An unexpected error occurred while executing the command: " + run.error
    ensures run.Completed? ==> output == ShellReply(run.stdout, run.stderr, run.returnCode)
  {
    match run
    case TimedOut =>
      return TimeoutMessage;
    case Crashed(e) =>
      return "An unexpected error occurred while executing the command: " + e;
    case Completed(stdout, stderr, returnCode) =>
      output := "";
      if stdout != "" {
        output := output + StdoutHeading + stdout + "\n";
      }
      assert output == Block(StdoutHeading, stdout);
      if stderr != "" {
        output := output + StderrHeading + stderr + "\n";
      }
      assert output == Block(StdoutHeading, stdout) + Block(StderrHeading, stderr);
      if output == "" {
        output := NoOutput;
      }
      output := output + "\nExit Code: " + IntToString(returnCode);
  }

  /** The reply of a completed command, as `RunShellCommand` builds it. */
  function ShellReply(stdout: string, stderr: string, returnCode: int): string {
    (if stdout == "" && stderr == "" then NoOutput else Block(StdoutHeading, stdout) + Block(StderrHeading, stderr))
      + ExitLine(returnCode)
  }

  /** `s` begins with `prefix`. */
  predicate StartsWith(s: string, prefix: string) {
    |prefix| <= |s| && s[..|prefix|] == prefix
  }

  /** The reply starts with the STDOUT block exactly when there was output on stdout. */
  lemma {:induction false} ShellReplyStartsWithStdout(stdout: string, stderr: string, returnCode: int)
    ensures StartsWith(ShellReply(stdout, stderr, returnCode), StdoutHeading) <==> stdout != ""
    ensures stdout != "" ==> StartsWith(ShellReply(stdout, stderr, returnCode), Block(StdoutHeading, stdout))
  {
    if stdout != "" {
      StdoutOpens(stdout, stderr, returnCode);
    } else {
      NoStdoutBlock(stderr, returnCode);
    }
  }

  lemma StdoutOpens(stdout: string, stderr: string, returnCode: int)
    requires stdout != ""
    ensures StartsWith(ShellReply(stdout, stderr, returnCode), Block(StdoutHeading, stdout))
    ensures StartsWith(ShellReply(stdout, stderr, returnCode), StdoutHeading)
  {
    var b := Block(StdoutHeading, stdout);
    var r := ShellReply(stdout, stderr, returnCode);
    assert r == b + (Block(StderrHeading, stderr) + ExitLine(returnCode));
    PrefixOfConcat(b, Block(StderrHeading, stderr) + ExitLine(returnCode));
    assert b == StdoutHeading + (stdout + "\n");
    PrefixOfConcat(StdoutHeading, stdout + "\n");
    PrefixOfPrefix(r, b, StdoutHeading);
  }

  lemma PrefixOfConcat(a: string, b: string)
    ensures StartsWith(a + b, a)
  {
    assert (a + b)[..|a|] == a;
  }

  lemma PrefixOfPrefix(s: string, p: string, q: string)
    requires StartsWith(s, p) && StartsWith(p, q)
    ensures StartsWith(s, q)
  {
    assert s[..|q|] == s[..|p|][..|q|];
  }

  lemma NoStdoutBlock(stderr: string, returnCode: int)
    ensures !StartsWith(ShellReply("", stderr, returnCode), StdoutHeading)
  {
    var r := ShellReply("", stderr, returnCode);
    if stderr != "" {
      assert r == StderrHeading + (stderr + "\n" + ExitLine(returnCode));
      assert r[3] == 'E';
    } else {
      assert r == NoOutput + ExitLine(returnCode);
      assert r[0] == NoOutput[0];
    }
    assert StdoutHeading[3] == 'O' && StdoutHeading[0] == 'S';
  }

  /** With no stdout, a non-empty stderr opens the reply. */
  lemma {:induction false} ShellReplyStderrOnly(stdout: string, stderr: string, returnCode: int)
    requires stdout == "" && stderr != ""
    ensures StartsWith(ShellReply(stdout, stderr, returnCode), Block(StderrHeading, stderr))
  {
    assert ShellReply(stdout, stderr, returnCode) == Block(StderrHeading, stderr) + ExitLine(returnCode);
  }

  /** The reply always ends with the exit-code line, and the exit code reads back from it. */
  lemma {:induction false} ShellReplyExitCode(stdout: string, stderr: string, returnCode: int)
    ensures var r := ShellReply(stdout, stderr, returnCode);
      && |r| >= |ExitLine(returnCode)| && r[|r| - |ExitLine(returnCode)|..] == ExitLine(returnCode)
      && ParseInt(r[|r| - |IntToString(returnCode)|..]) == Some(returnCode)
  {
    var r := ShellReply(stdout, stderr, returnCode);
    var body := if stdout == "" && stderr == "" then NoOutput else Block(StdoutHeading, stdout) + Block(StderrHeading, stderr);
    var code := IntToString(returnCode);
    assert r == (body + "\nExit Code: ") + code;
    assert r[|r| - |code|..] == code;
    ParseIntToString(returnCode);
  }

  // ---------------------------------------------------------------------------
  // list_files_recursive
  // ---------------------------------------------------------------------------

  /** A directory listing, in the order the file system returns it. */
  datatype Entry = FileEntry(name: string) | DirEntry(name: string, entries: seq<Entry>)

  /** The directories never listed or descended into. */
  const Pruned: set<string> := {".git", ".venv", "__pycache__", "node_modules"}

  /** One step of `os.walk`: the directory's depth below the start, its name and its files. */
  datatype Visit = Visit(depth: nat, name: string, files: seq<string>)

  /** The file names of a listing, in order. */
  function FileNames(entries: seq<Entry>): seq<string> {
    if entries == [] then []
    else (if entries[0].FileEntry? then [entries[0].name] else []) + FileNames(entries[1..])
  }

  /** `os.basename(root) or '.'` for a directory named `name`. */
  function Label(name: string): string {
    if name == "" then "." else name
  }

  /** A top-down `os.walk` of directory `name`, with the pruned subdirectories removed from `dirs`. */
  function Walk(name: string, entries: seq<Entry>, depth: nat): (vs: seq<Visit>)
    ensures vs != [] && vs[0] == Visit(depth, Label(name), FileNames(entries))
    decreases entries, 1
  {
    [Visit(depth, Label(name), FileNames(entries))] + WalkAll(entries, depth + 1)
  }

  /** The walks of the kept subdirectories of a listing, in listing order. */
  function WalkAll(entries: seq<Entry>, depth: nat): seq<Visit>
    decreases entries, 0
  {
    if entries == [] then []
    else
      var head :=
        if entries[0].DirEntry? && entries[0].name !in Pruned
        then Walk(entries[0].name, entries[0].entries, depth) else [];
      head + WalkAll(entries[1..], depth)
  }

  /** Below the starting directory, no visited directory is pruned and every depth is deeper. */
  lemma {:induction false} WalkSkipsPruned(name: string, entries: seq<Entry>, depth: nat)
    ensures forall k :: 0 < k < |Walk(name, entries, depth)| ==>
      Walk(name, entries, depth)[k].name !in Pruned && Walk(name, entries, depth)[k].depth > depth
    decreases entries, 1
  {
    var vs := Walk(name, entries, depth);
    var rest := WalkAll(entries, depth + 1);
    WalkAllSkipsPruned(entries, depth + 1);
    assert vs == [vs[0]] + rest;
    forall k | 0 < k < |vs| ensures vs[k].name !in Pruned && vs[k].depth > depth {
      assert vs[k] == rest[k - 1];
      assert rest[k - 1].name !in Pruned && rest[k - 1].depth >= depth + 1;
    }
  }

  lemma {:induction false} WalkAllSkipsPruned(entries: seq<Entry>, depth: nat)
    ensures forall k :: 0 <= k < |WalkAll(entries, depth)| ==>
      WalkAll(entries, depth)[k].name !in Pruned && WalkAll(entries, depth)[k].depth >= depth
    decreases entries, 0
  {
    if entries != [] {
      var vs := WalkAll(entries, depth);
      var rest := WalkAll(entries[1..], depth);
      WalkAllSkipsPruned(entries[1..], depth);
      if entries[0].DirEntry? && entries[0].name !in Pruned {
        var head := Walk(entries[0].name, entries[0].entries, depth);
        WalkSkipsPruned(entries[0].name, entries[0].entries, depth);
        assert vs == head + rest;
        forall k | 0 <= k < |vs| ensures vs[k].name !in Pruned && vs[k].depth >= depth {
          if k >= |head| {
            assert vs[k] == rest[k - |head|];
            assert rest[k - |head|].name !in Pruned && rest[k - |head|].depth >= depth;
          } else if k > 0 {
            assert vs[k] == head[k];
          } else {
            assert vs[0] == head[0] == Visit(depth, Label(entries[0].name), FileNames(entries[0].entries));
          }
        }
      } else {
        assert vs == rest;
      }
    }
  }

  /**
   * What a pruned directory holds makes no difference to the walk: it is never entered.
   */
  lemma {:induction false} PrunedContentsInvisible(entries: seq<Entry>, k: int, other: seq<Entry>, depth: nat)
    requires 0 <= k < |entries| && entries[k].DirEntry? && entries[k].name in Pruned
    ensures WalkAll(entries[k := DirEntry(entries[k].name, other)], depth) == WalkAll(entries, depth)
  {
    var changed := entries[k := DirEntry(entries[k].name, other)];
    if k > 0 {
      PrunedContentsInvisible(entries[1..], k - 1, other, depth);
      assert changed[1..] == entries[1..][k - 1 := DirEntry(entries[k].name, other)];
    } else {
      assert changed[1..] == entries[1..];
    }
  }

  /** `count` spaces. */
  function Spaces(count: nat): (r: string)
    ensures |r| == count && forall i :: 0 <= i < count ==> r[i] == ' '
  {
    seq(count, i => ' ')
  }

  /** The file lines of a visit at `depth`: each name indented one level further. */
  function FileLines(files: seq<string>, depth: nat): string {
    if files == [] then ""
    else FileLines(files[..|files| - 1], depth) + Spaces(4 * (depth + 1)) + files[|files| - 1] + "\n"
  }

  /** The text of one visit: its directory line, then its file lines. */
  function VisitText(v: Visit): string {
    Spaces(4 * v.depth) + v.name + "/\n" + FileLines(v.files, v.depth)
  }

  function Render(vs: seq<Visit>): string {
    if vs == [] then "" else Render(vs[..|vs| - 1]) + VisitText(vs[|vs| - 1])
  }

  /** The text after the last `/` of a path (`os.path.basename`). */
  function Basename(path: string): (r: string)
    ensures |r| <= |path| && r == path[|path| - |r|..]
    ensures forall i :: 0 <= i < |r| ==> r[i] != '/'
    ensures |r| < |path| ==> path[|path| - |r| - 1] == '/'
  {
    if path == [] || path[|path| - 1] == '/' then []
    else Basename(path[..|path| - 1]) + [path[|path| - 1]]
  }

  function Header(directory: string): string {
    "File structure for '" + directory + "':\n"
  }

  /** The inner `for f in files` loop. */
  method AppendFiles(output: string, files: seq<string>, depth: nat) returns (out: string)
    ensures out == output + FileLines(files, depth)
  {
    out := output;
    var subIndent := Spaces(4 * (depth + 1));
    for j := 0 to |files|
      invariant out == output + FileLines(files[..j], depth)
    {
      assert files[..j + 1][..j] == files[..j];
      out := out + subIndent + files[j] + "\n";
    }
    assert files[..|files|] == files;
  }

  /** One pass of the `os.walk` loop body: the directory line, then its files. */
  method AppendVisit(output: string, v: Visit) returns (out: string)
    ensures out == output + VisitText(v)
  {
    var indent := Spaces(4 * v.depth);
    out := output + indent + v.name + "/\n";
    out := AppendFiles(out, v.files, v.depth);
  }

  /**
   * `list_files_recursive`: an error for a path that is not a directory; otherwise the
   * header and then, visit by visit, the directory line and its file lines, built with `+=`.
   * `tree` is the directory's listing, `None` when it is not a directory.
   */
  method ListFilesRecursive(directory: string, tree: Option<seq<Entry>>) returns (output: string)
    ensures tree.None? ==> output == "Error: The directory '" + directory + "' does not exist."
    ensures tree.Some? ==> output == Header(directory) + Render(Walk(Basename(directory), tree.value, 0))
  {
    if tree.None? {
      return "Error: The directory '" + directory + "' does not exist.";
    }
    var visits := Walk(Basename(directory), tree.value, 0);
    output := AppendVisits(Header(directory), visits);
  }

  /** The `os.walk` loop: each visit's text appended in turn. */
  method AppendVisits(output: string, visits: seq<Visit>) returns (out: string)
    ensures out == output + Render(visits)
  {
    out := output;
    for i := 0 to |visits|
      invariant out == output + Render(visits[..i])
    {
      assert visits[..i + 1][..i] == visits[..i];
      assert Render(visits[..i + 1]) == Render(visits[..i]) + VisitText(visits[i]);
      out := AppendVisit(out, visits[i]);
    }
    assert visits[..|visits|] == visits;
  }

  // ---------------------------------------------------------------------------
  // get_github_project_tasks
  // ---------------------------------------------------------------------------

  /** The three environment variables; `None` when unset. */
  datatype GithubConfig = GithubConfig(token: Option<string>, repoName: Option<string>, projectNumber: Option<string>)

  /** A card of the classic project board: its id and its note, if it has one. */
  datatype Card = Card(id: int, note: Option<string>)

  datatype BoardColumn = BoardColumn(name: string, cards: seq<Card>)

  /** What connecting to the repository and project gave. */
  datatype Connection =
    | ApiFailure(status: int, data: string)
    | Unexpected(message: string)
    | Connected(projectName: string, columns: seq<BoardColumn>)

  datatype TaskCard = TaskCard(cardId: int, taskTitle: string, fullNote: string)

  datatype ColumnData = ColumnData(columnName: string, tasks: seq<TaskCard>)

  /** The dict the tool serialises. */
  datatype ProjectReport =
    | ErrorReport(error: string, message: string)
    | ProjectData(projectName: string, repositoryName: string, columns: seq<ColumnData>)

  /** Python truthiness of an environment variable. */
  predicate IsSet(v: Option<string>) {
    v.Some? && v.value != ""
  }

  /** A card contributes a task when its note is truthy. */
  predicate HasNote(c: Card) {
    c.note.Some? && c.note.value != ""
  }

  /** The task of a noted card: the first line of the stripped note, and the stripped note. */
  function TaskOf(c: Card): (t: TaskCard)
    requires HasNote(c)
    ensures t.cardId == c.id && t.fullNote == Strip(c.note.value)
    ensures NoNewline(t.taskTitle) && |t.taskTitle| <= |t.fullNote| && t.taskTitle == t.fullNote[..|t.taskTitle|]
  {
    TaskCard(c.id, FirstLine(Strip(c.note.value)), Strip(c.note.value))
  }

  /** The tasks of a column's cards, in card order, skipping cards without a note. */
  function CardTasks(cards: seq<Card>): (ts: seq<TaskCard>)
    ensures |ts| <= |cards|
  {
    if cards == [] then []
    else CardTasks(cards[..|cards| - 1]) + (if HasNote(cards[|cards| - 1]) then [TaskOf(cards[|cards| - 1])] else [])
  }

  /** How many cards carry a note. */
  function NotedCount(cards: seq<Card>): nat {
    if cards == [] then 0 else NotedCount(cards[..|cards| - 1]) + (if HasNote(cards[|cards| - 1]) then 1 else 0)
  }

  /**
   * Every noted card yields exactly one task, and every task comes from a noted card, whose
   * id it carries and whose stripped note's first line is its title.
   */
  lemma {:induction false} CardTasksFromNotes(cards: seq<Card>)
    ensures |CardTasks(cards)| == NotedCount(cards)
    ensures forall t :: t in CardTasks(cards) ==>
      exists k :: 0 <= k < |cards| && HasNote(cards[k]) && t == TaskOf(cards[k])
  {
    if cards != [] {
      var init := cards[..|cards| - 1];
      CardTasksFromNotes(init);
      forall t | t in CardTasks(cards)
        ensures exists k :: 0 <= k < |cards| && HasNote(cards[k]) && t == TaskOf(cards[k])
      {
        if t in CardTasks(init) {
          var k :| 0 <= k < |init| && HasNote(init[k]) && t == TaskOf(init[k]);
          assert cards[k] == init[k];
        } else {
          assert HasNote(cards[|cards| - 1]) && t == TaskOf(cards[|cards| - 1]);
        }
      }
    }
  }

  /** The inner `for card in column.get_cards()` loop. */
  method CollectTasks(cards: seq<Card>) returns (tasks: seq<TaskCard>)
    ensures tasks == CardTasks(cards)
  {
    tasks := [];
    for j := 0 to |cards|
      invariant tasks == CardTasks(cards[..j])
    {
      var card := cards[j];
      assert cards[..j + 1][..j] == cards[..j];
      if HasNote(card) {
        tasks := tasks + [TaskOf(card)];
      }
    }
    assert cards[..|cards|] == cards;
  }

  /** The outer `for column in columns` loop. */
  method CollectColumns(columns: seq<BoardColumn>) returns (data: seq<ColumnData>)
    ensures |data| == |columns|
    ensures forall i :: 0 <= i < |columns| ==>
      data[i].columnName == columns[i].name && data[i].tasks == CardTasks(columns[i].cards)
  {
    data := [];
    for i := 0 to |columns|
      invariant |data| == i
      invariant forall k :: 0 <= k < i ==> data[k].columnName == columns[k].name && data[k].tasks == CardTasks(columns[k].cards)
    {
      var column := columns[i];
      var tasks := CollectTasks(column.cards);
      data := data + [ColumnData(column.name, tasks)];
    }
  }

  const MissingConfigMessage :=
    "GITHUB_TOKEN, GITHUB_REPO, and GITHUB_PROJECT_NUMBER must be set as environment variables."

  /**
   * `get_github_project_tasks`: configuration checks first (all three set, then an integer
   * project number), then the connection, then the board. `connect` stands for the
   * GitHub client and is consulted only with a valid configuration.
   */
  method GetGithubProjectTasks(config: GithubConfig, connect: (string, string, int) -> Connection)
    returns (report: ProjectReport)
    ensures !(IsSet(config.token) && IsSet(config.repoName) && IsSet(config.projectNumber)) ==>
      report == ErrorReport("Configuration missing", MissingConfigMessage)
    ensures IsSet(config.token) && IsSet(config.repoName) && IsSet(config.projectNumber) && ParseInt(config.projectNumber.value).None? ==>
      report == ErrorReport("Invalid Configuration",
                            "GITHUB_PROJECT_NUMBER must be an integer, but got '" + config.projectNumber.value + "'.")
    ensures IsSet(config.token) && IsSet(config.repoName) && IsSet(config.projectNumber) && ParseInt(config.projectNumber.value).Some? ==>
      var c := connect(config.token.value, config.repoName.value, ParseInt(config.projectNumber.value).value);
      && (c.ApiFailure? ==>
            report == ErrorReport("GitHub API Error", "Error accessing GitHub. Details: " + IntToString(c.status) + " " + c.data))
      && (c.Unexpected? ==> report == ErrorReport("Unexpected Error", c.message))
      && (c.Connected? ==>
            && report.ProjectData? && report.projectName == c.projectName
            && report.repositoryName == config.repoName.value && |report.columns| == |c.columns|
            && forall i :: 0 <= i < |c.columns| ==>
                 report.columns[i].columnName == c.columns[i].name && report.columns[i].tasks == CardTasks(c.columns[i].cards))
    ensures report.ProjectData? ==>
      && IsSet(config.token) && IsSet(config.repoName) && IsSet(config.projectNumber)
      && ParseInt(config.projectNumber.value).Some?
      && var c := connect(config.token.value, config.repoName.value, ParseInt(config.projectNumber.value).value);
      && c.Connected?
      && report.projectName == c.projectName && report.repositoryName == config.repoName.value
      && |report.columns| == |c.columns|
      && forall i :: 0 <= i < |c.columns| ==>
           report.columns[i].columnName == c.columns[i].name && report.columns[i].tasks == CardTasks(c.columns[i].cards)
  {
    if !(IsSet(config.token) && IsSet(config.repoName) && IsSet(config.projectNumber)) {
      return ErrorReport("Configuration missing", MissingConfigMessage);
    }
    var projectNumber := ParseInt(config.projectNumber.value);
    if projectNumber.None? {
      return ErrorReport("Invalid Configuration",
                         "GITHUB_PROJECT_NUMBER must be an integer, but got '" + config.projectNumber.value + "'.");
    }
    var connection := connect(config.token.value, config.repoName.value, projectNumber.value);
    match connection
    case ApiFailure(status, data) =>
      report := ErrorReport("GitHub API Error", "Error accessing GitHub. Details: " + IntToString(status) + " " + data);
    case Unexpected(message) =>
      report := ErrorReport("Unexpected Error", message);
    case Connected(projectName, columns) =>
      var data := CollectColumns(columns);
      report := ProjectData(projectName, config.repoName.value, data);
  }

  /** A project number written as `str(n)`, even with surrounding whitespace, is accepted as `n`. */
  lemma {:induction false} ProjectNumberAccepted(n: int)
    ensures ParseInt(IntToString(n)) == Some(n)
    ensures ParseInt(" " + IntToString(n) + "\n") == Some(n)
  {
    ParseIntToString(n);
    var s := IntToString(n);
    var digits := NatToString(if n < 0 then -n else n);
    assert s == (if n < 0 then "-" else "") + digits;
    assert IsDigit(s[|s| - 1]) && (IsDigit(s[0]) || s[0] == '-');
    StripOfNumber(s);
    StripOfPadded(s);
  }

  // ---------------------------------------------------------------------------
  // write_file
  // ---------------------------------------------------------------------------

  /**
   * `write_file` over a file store: the file at `path` now holds `content` and nothing else
   * changed, or the store is untouched and the error reported. `failure` is the exception
   * the file system raised, if any.
   */
  function WriteFile(files: map<string, string>, path: string, content: string, failure: Option<string>)
    : (r: (map<string, string>, string))
    ensures failure.None? ==> path in r.0 && r.0[path] == content
    ensures failure.None? ==> forall p :: p in files && p != path ==> p in r.0 && r.0[p] == files[p]
    ensures failure.None? ==> r.0.Keys == files.Keys + {path}
    ensures failure.None? ==> r.1 == "Successfully wrote " + IntToString(|content|) + " characters to '" + path + "'."
    ensures failure.Some? ==> r.0 == files && r.1 == "An unexpected error occurred while writing to the file: " + failure.value
  {
    if failure.Some? then (files, "An unexpected error occurred while writing to the file: " + failure.value)
    else (files[path := content], "Successfully wrote " + IntToString(|content|) + " characters to '" + path + "'.")
  }
}
