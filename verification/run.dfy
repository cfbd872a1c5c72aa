/**
 * The decision logic of the extension's run and debug commands: choosing the
 * project root, locating the test file relative to it, and building the
 * terminal lines and the debug configuration.
 *
 * What the editor host supplies (its workspace folders and the `git.path`
 * setting) is a `Host` value; what the commands do to the host (create a
 * terminal, send it text, show it, start debugging) is returned as a trace
 * of `Event`s in the order the calls happen.
 */
module Run {
  import opened Wrappers
  import opened Strings
  import opened Paths
  import Json

  /** What the commands read from the editor host. */
  datatype Host = Host(
    /** `vscode.workspace.workspaceFolders`, each folder by its file-system path; `None` when no folder is open. */
    workspaceFolders: Option<seq<string>>,
    /** The `git.path` setting as seen from the given workspace folder; `None` when unset. */
    gitPath: string -> Option<string>)

  /** The host's name for a terminal the extension created. */
  type TerminalId = nat

  /** A debug launch configuration, field for field. */
  datatype DebugConfig = DebugConfig(
    name: string,
    request: string,
    runtimeArgs: seq<string>,
    cwd: string,
    runtimeExecutable: string,
    skipFiles: seq<string>,
    adapterType: string,
    console: string,
    internalConsoleOptions: string)

  /** One call the commands make into the host. */
  datatype Event =
    | CreateTerminal(terminal: TerminalId, terminalName: string)
    | SendText(terminal: TerminalId, text: string, addNewLine: bool)
    | ShowTerminal(terminal: TerminalId)
    | StartDebugging(config: DebugConfig)

  /** The package runner both modes launch vitest through. */
  const Runner := "pnpx"
  const VitestPrefix := ["vitest", "run", "-t"]

  /** The arguments that make vitest run the named cases: `vitest run -t` and then `args` as given. */
  function BuildVitestArgs(args: seq<string>): (r: seq<string>)
    ensures |r| == 3 + |args|
    ensures r[0] == "vitest" && r[1] == "run" && r[2] == "-t"
    ensures forall i :: 0 <= i < |args| ==> r[3 + i] == args[i]
  {
    VitestPrefix + args
  }

  /** The tokens of the directory change. */
  function BuildCdArgs(path: string): (r: seq<string>)
    ensures |r| == 2 && r[0] == "cd" && r[1] == path
    ensures JoinTokens(r) == "cd " + path
  {
    JoinWithCons("cd", [path], ' ');
    ["cd", path]
  }

  /** The index of the first folder whose path is a prefix of `filename`. */
  function FirstPrefixFolder(folders: seq<string>, filename: string): (r: Option<nat>)
    ensures r.Some? ==> r.value < |folders| && StartsWith(filename, folders[r.value])
    ensures r.Some? ==> forall j :: 0 <= j < r.value ==> !StartsWith(filename, folders[j])
    ensures r.None? <==> forall j :: 0 <= j < |folders| ==> !StartsWith(filename, folders[j])
    decreases |folders|
  {
    if |folders| == 0 then None
    else if StartsWith(filename, folders[0]) then Some(0)
    else
      match FirstPrefixFolder(folders[1..], filename)
      case None => None
      case Some(i) => Some(i + 1)
  }

  /**
   * The first workspace folder whose path is a string prefix of `filename`;
   * nothing when no folder is open or none matches.
   */
  function FindWorkspaceRoot(folders: Option<seq<string>>, filename: string): (r: Option<string>)
    ensures folders.None? ==> r.None?
    ensures folders.Some? ==>
      (r.None? <==> forall j :: 0 <= j < |folders.value| ==> !StartsWith(filename, folders.value[j]))
    ensures r.Some? ==> StartsWith(filename, r.value)
    ensures r.Some? ==> folders.Some? && exists i :: 0 <= i < |folders.value| && folders.value[i] == r.value
                                                    && forall j :: 0 <= j < i ==> !StartsWith(filename, folders.value[j])
  {
    match folders
    case None => None
    case Some(fs) =>
      match FirstPrefixFolder(fs, filename)
      case None => None
      case Some(i) => Some(fs[i])
  }

  /**
   * The workspace root joined with the `git.path` setting; nothing when the
   * workspace root is missing or empty, or the setting is unset or empty.
   */
  function FindProjectRoot(host: Host, filename: string): (r: Option<string>)
    ensures var ws := FindWorkspaceRoot(host.workspaceFolders, filename);
      r.Some? <==> (ws.Some? && ws.value != "" && host.gitPath(ws.value).Some? && host.gitPath(ws.value).value != "")
    ensures r.Some? ==> r.value != ""
    ensures r.Some? ==> r.value == Render(Segments(r.value))
    ensures var ws := FindWorkspaceRoot(host.workspaceFolders, filename);
      r.Some? ==> Segments(r.value) == Steps(Segments(ws.value), Split(host.gitPath(ws.value).value, Sep))
  {
    match FindWorkspaceRoot(host.workspaceFolders, filename)
    case None => None
    case Some(workspaceRoot) =>
      if workspaceRoot == "" then None
      else
        match host.gitPath(workspaceRoot)
        case None => None
        case Some(gitRoot) =>
          if gitRoot == "" then None else Some(Join(workspaceRoot, gitRoot))
  }

  /** A `git.path` made of plain segments puts the project root that many levels below the workspace root. */
  lemma ProjectRootBelowWorkspace(host: Host, filename: string)
    requires FindProjectRoot(host, filename).Some?
    requires var ws := FindWorkspaceRoot(host.workspaceFolders, filename).value;
      AllSegments(Split(host.gitPath(ws).value, Sep))
    ensures var ws := FindWorkspaceRoot(host.workspaceFolders, filename).value;
      Segments(FindProjectRoot(host, filename).value) == Segments(ws) + Split(host.gitPath(ws).value, Sep)
  {
    var ws := FindWorkspaceRoot(host.workspaceFolders, filename).value;
    StepsSegments(Segments(ws), Split(host.gitPath(ws).value, Sep));
  }

  /**
   * The file's location as the commands pass it to vitest: its absolute
   * directory when there is no root, else the path from the root to the file
   * itself (file name included).
   */
  function FindFilePathRelativeToRoot(projectRootPath: string, filename: string): (r: string)
    ensures projectRootPath == "" ==> r == Dirname(filename) && Segments(r) == DropLast(Segments(filename))
    ensures projectRootPath != "" ==> r == Relative(projectRootPath, filename)
    ensures projectRootPath != "" ==> Segments(Join(projectRootPath, r)) == Segments(filename)
    ensures projectRootPath != "" ==> (r == "" <==> Segments(projectRootPath) == Segments(filename))
  {
    if projectRootPath == "" then Dirname(filename)
    else Relative(projectRootPath, filename)
  }

  /** The directory the commands run in and the file's path from there. */
  datatype RootAndCasePath = RootAndCasePath(projectRootPath: string, casePathRelativeToRoot: string)

  /**
   * The project root, falling back to the file's own directory, and the
   * file's path relative to it. The root is never empty, so the
   * absolute-directory fallback of `FindFilePathRelativeToRoot` is not taken.
   */
  function GetRootAndCasePath(host: Host, filename: string): (r: RootAndCasePath)
    ensures r.projectRootPath != ""
    ensures FindProjectRoot(host, filename).Some? ==> r.projectRootPath == FindProjectRoot(host, filename).value
    ensures FindProjectRoot(host, filename).None? ==>
      r.projectRootPath == Dirname(filename) && r.casePathRelativeToRoot == Basename(filename)
    ensures r.casePathRelativeToRoot == Relative(r.projectRootPath, filename)
    ensures Segments(Join(r.projectRootPath, r.casePathRelativeToRoot)) == Segments(filename)
  {
    var casePath := Dirname(filename);
    var projectRootPath := match FindProjectRoot(host, filename)
      case Some(root) => root
      case None => casePath;
    RelativeToDirname(filename);
    RootAndCasePath(projectRootPath, FindFilePathRelativeToRoot(projectRootPath, filename))
  }

  /** The run-mode command line: the runner, vitest's arguments, and the case path and name JSON-quoted. */
  function RunLine(casePath: string, text: string): (r: string)
    ensures r == "pnpx vitest run -t " + Json.Stringify(casePath) + " " + Json.Stringify(text)
  {
    var q1 := Json.Stringify(casePath);
    var q2 := Json.Stringify(text);
    var runnerArgs := [Runner] + BuildVitestArgs([q1, q2]);
    RunLineTokens(q1, q2);
    JoinTokens(runnerArgs)
  }

  /** Joining the six run-mode tokens. */
  lemma RunLineTokens(q1: string, q2: string)
    ensures JoinTokens([Runner] + BuildVitestArgs([q1, q2])) == "pnpx vitest run -t " + q1 + " " + q2
  {
    assert [Runner] + BuildVitestArgs([q1, q2]) == ["pnpx", "vitest", "run", "-t", q1, q2];
    JoinSix("pnpx", "vitest", "run", "-t", q1, q2);
    assert "pnpx" + " " + "vitest" + " " + "run" + " " + "-t" + " " == "pnpx vitest run -t ";
  }

  /** Joining six tokens with spaces. */
  lemma JoinSix(a: string, b: string, c: string, d: string, e: string, f: string)
    ensures JoinTokens([a, b, c, d, e, f]) == a + " " + b + " " + c + " " + d + " " + e + " " + f
  {
    JoinWithCons(e, [f], ' ');
    assert [e, f] == [e] + [f];
    JoinWithCons(d, [e, f], ' ');
    assert [d, e, f] == [d] + [e, f];
    JoinWithCons(c, [d, e, f], ' ');
    assert [c, d, e, f] == [c] + [d, e, f];
    JoinWithCons(b, [c, d, e, f], ' ');
    assert [b, c, d, e, f] == [b] + [c, d, e, f];
    JoinWithCons(a, [b, c, d, e, f], ' ');
    assert [a, b, c, d, e, f] == [a] + [b, c, d, e, f];
  }

  /**
   * The host calls of a run, once the root and case path are known: create
   * a terminal for the case, change into the root, run vitest on the case,
   * and show the terminal.
   */
  function TerminalEvents(rc: RootAndCasePath, text: string, terminal: TerminalId): (events: seq<Event>)
    ensures events == [
      CreateTerminal(terminal, "vitest - " + text),
      SendText(terminal, "cd " + rc.projectRootPath, true),
      SendText(terminal, "pnpx vitest run -t " + Json.Stringify(rc.casePathRelativeToRoot) + " " + Json.Stringify(text), true),
      ShowTerminal(terminal)]
  {
    var cdArgs := BuildCdArgs(rc.projectRootPath);
    [
      CreateTerminal(terminal, "vitest - " + text),
      SendText(terminal, JoinTokens(cdArgs), true),
      SendText(terminal, RunLine(rc.casePathRelativeToRoot, text), true),
      ShowTerminal(terminal)
    ]
  }

  /** `runInTerminal`: one fresh terminal, the directory change before the run line, then show. */
  function RunInTerminal(host: Host, text: string, filename: string, terminal: TerminalId): (events: seq<Event>)
    ensures var rc := GetRootAndCasePath(host, filename);
      events == [
        CreateTerminal(terminal, "vitest - " + text),
        SendText(terminal, "cd " + rc.projectRootPath, true),
        SendText(terminal, "pnpx vitest run -t " + Json.Stringify(rc.casePathRelativeToRoot) + " " + Json.Stringify(text), true),
        ShowTerminal(terminal)]
  {
    TerminalEvents(GetRootAndCasePath(host, filename), text, terminal)
  }

  /** The debug configuration: vitest launched through the runner in `cwd`, its arguments not quoted. */
  function BuildDebugConfig(cwd: string, casePath: string, text: string): (c: DebugConfig)
    ensures c.cwd == cwd && c.runtimeExecutable == Runner
    ensures c.runtimeArgs == ["vitest", "run", "-t", casePath, text]
    ensures c.name == "Debug vitest case" && c.request == "launch" && c.adapterType == "pwa-node"
    ensures c.skipFiles == ["<node_internals>/**"]
    ensures c.console == "integratedTerminal" && c.internalConsoleOptions == "neverOpen"
  {
    DebugConfig(
      name := "Debug vitest case",
      request := "launch",
      runtimeArgs := BuildVitestArgs([casePath, text]),
      cwd := cwd,
      runtimeExecutable := Runner,
      skipFiles := ["<node_internals>/**"],
      adapterType := "pwa-node",
      console := "integratedTerminal",
      internalConsoleOptions := "neverOpen")
  }

  /** The host call of a debug run once the root and case path are known. */
  function DebugEvents(rc: RootAndCasePath, text: string): (events: seq<Event>)
    ensures |events| == 1 && events[0].StartDebugging?
    ensures events[0].config.cwd == rc.projectRootPath
    ensures events[0].config.runtimeArgs == ["vitest", "run", "-t", rc.casePathRelativeToRoot, text]
    ensures events[0].config == BuildDebugConfig(rc.projectRootPath, rc.casePathRelativeToRoot, text)
  {
    [StartDebugging(BuildDebugConfig(rc.projectRootPath, rc.casePathRelativeToRoot, text))]
  }

  /** `debugInTermial`: start one debug session on the case, in the project root. */
  function DebugInTerminal(host: Host, text: string, filename: string): (events: seq<Event>)
    ensures |events| == 1 && events[0].StartDebugging?
    ensures var rc := GetRootAndCasePath(host, filename);
      && events[0].config.cwd == rc.projectRootPath
      && events[0].config.runtimeExecutable == Runner
      && events[0].config.runtimeArgs == ["vitest", "run", "-t", rc.casePathRelativeToRoot, text]
      && events[0].config == BuildDebugConfig(rc.projectRootPath, rc.casePathRelativeToRoot, text)
  {
    DebugEvents(GetRootAndCasePath(host, filename), text)
  }

  /**
   * Reads a run-mode command line back: the prefix, then two JSON string
   * literals separated by one space, and nothing after.
   */
  function ReadRunLine(line: string): Option<(string, string)>
  {
    var prefix := "pnpx vitest run -t ";
    if prefix <= line && |line| > |prefix| && line[|prefix|] == Json.Quote then
      match Json.ReadString(line[|prefix| + 1..])
      case None => None
      case Some((casePath, rest)) =>
        if |rest| >= 2 && rest[0] == ' ' && rest[1] == Json.Quote then
          match Json.ReadString(rest[2..])
          case None => None
          case Some((text, tail)) => if tail == "" then Some((casePath, text)) else None
        else None
    else None
  }

  /** Where the two literals sit in a line `prefix "a" "b"`. */
  lemma LineLayout(prefix: string, a: string, b: string)
    ensures var line := prefix + ([Json.Quote] + a + [Json.Quote]) + " " + ([Json.Quote] + b + [Json.Quote]);
      var second := " " + ([Json.Quote] + b + [Json.Quote]);
      && prefix <= line && |line| > |prefix| && line[|prefix|] == Json.Quote
      && line[|prefix| + 1..] == a + [Json.Quote] + second
      && |second| >= 2 && second[0] == ' ' && second[1] == Json.Quote
      && second[2..] == b + [Json.Quote] + ""
  {
    var q1 := [Json.Quote] + a + [Json.Quote];
    var q2 := [Json.Quote] + b + [Json.Quote];
    var second := " " + q2;
    var line := prefix + q1 + " " + q2;
    assert line == prefix + (q1 + second);
    assert line[|prefix| + 1..] == (q1 + second)[1..];
  }

  /**
   * Read as JSON string literals, the run line gives back the case path and
   * the test name, whatever characters they hold. The terminal's shell reads
   * the line differently; see `RunAndDebugAgree`.
   */
  lemma ReadRunLineRoundTrip(casePath: string, text: string)
    ensures ReadRunLine(RunLine(casePath, text)) == Some((casePath, text))
  {
    var prefix := "pnpx vitest run -t ";
    var a := Json.EscapeBody(casePath);
    var b := Json.EscapeBody(text);
    var second := " " + ([Json.Quote] + b + [Json.Quote]);
    var line := RunLine(casePath, text);
    assert line == prefix + ([Json.Quote] + a + [Json.Quote]) + " " + ([Json.Quote] + b + [Json.Quote]);
    LineLayout(prefix, a, b);
    Json.ReadStringEscaped(casePath, second);
    Json.ReadStringEscaped(text, "");
  }

  /**
   * The two modes agree under JSON string reading: the `cd` line is `cd `
   * followed by the debug configuration's `cwd`, unquoted, the terminal line is the debug
   * configuration's executable and arguments with the case path and name
   * JSON-quoted, and reading it back as JSON yields the debug configuration's
   * unquoted arguments. A POSIX shell reads a double-quoted word otherwise
   * (it expands `$`, backquotes and, interactively, `!`, and keeps `\n` as
   * two characters), so
   * vitest sees the same arguments in both modes only when they hold no such
   * characters.
   */
  lemma RunAndDebugAgree(rc: RootAndCasePath, text: string, terminal: TerminalId)
    ensures var run := TerminalEvents(rc, text, terminal);
      var config := DebugEvents(rc, text)[0].config;
      && run[1].text == JoinTokens(BuildCdArgs(config.cwd))
      && run[2].text == JoinTokens([config.runtimeExecutable] + config.runtimeArgs[..3]
           + [Json.Stringify(config.runtimeArgs[3]), Json.Stringify(config.runtimeArgs[4])])
      && ReadRunLine(run[2].text) == Some((config.runtimeArgs[3], config.runtimeArgs[4]))
  {
    var config := BuildDebugConfig(rc.projectRootPath, rc.casePathRelativeToRoot, text);
    assert DebugEvents(rc, text)[0].config == config;
    var run := TerminalEvents(rc, text, terminal);
    var line := RunLine(rc.casePathRelativeToRoot, text);
    assert run[1].text == JoinTokens(BuildCdArgs(config.cwd));
    assert run[2].text == line;
    DebugArgsQuoted(rc.projectRootPath, rc.casePathRelativeToRoot, text);
    ReadRunLineRoundTrip(rc.casePathRelativeToRoot, text);
  }

  /**
   * The root goes onto the `cd` line unquoted: a root without spaces splits
   * at spaces into exactly the two words `cd` and the root.
   */
  lemma CdLineWords(rc: RootAndCasePath, text: string, terminal: TerminalId)
    requires ' ' !in rc.projectRootPath
    ensures Split(TerminalEvents(rc, text, terminal)[1].text, ' ') == ["cd", rc.projectRootPath]
  {
    var cdArgs := BuildCdArgs(rc.projectRootPath);
    assert TerminalEvents(rc, text, terminal)[1].text == JoinTokens(cdArgs);
    SplitJoinTokens(cdArgs);
  }

  /**
   * A root with a space is split by the shell: for the root `/my app` (the
   * fallback root of the file `/my app/a.test.ts`) the `cd` line splits into
   * three words, while debug mode runs in `/my app` itself.
   */
  lemma RootWithSpaceSplits(rc: RootAndCasePath, text: string, terminal: TerminalId)
    requires rc.projectRootPath == "/my app"
    ensures Split(TerminalEvents(rc, text, terminal)[1].text, ' ') == ["cd", "/my", "app"]
    ensures DebugEvents(rc, text)[0].config.cwd == "/my app"
  {
    var events := TerminalEvents(rc, text, terminal);
    assert events[1].text == "cd " + rc.projectRootPath;
    assert "cd " + rc.projectRootPath == "cd /my app";
    SplitThreeWords();
  }

  /** The words of `cd /my app`. */
  lemma SplitThreeWords()
    ensures Split("cd /my app", ' ') == ["cd", "/my", "app"]
  {
    var words := ["cd", "/my", "app"];
    JoinWithCons("/my", ["app"], ' ');
    JoinWithCons("cd", ["/my", "app"], ' ');
    assert words == ["cd"] + ["/my", "app"];
    assert JoinTokens(words) == "cd /my app";
    SplitJoinTokens(words);
  }

  /** Quoting the case path and name in the debug arguments gives the run line. */
  lemma DebugArgsQuoted(cwd: string, casePath: string, text: string)
    ensures var config := BuildDebugConfig(cwd, casePath, text);
      JoinTokens([config.runtimeExecutable] + config.runtimeArgs[..3]
        + [Json.Stringify(config.runtimeArgs[3]), Json.Stringify(config.runtimeArgs[4])])
      == RunLine(casePath, text)
  {
    var config := BuildDebugConfig(cwd, casePath, text);
    var q1 := Json.Stringify(casePath);
    var q2 := Json.Stringify(text);
    assert [config.runtimeExecutable] + config.runtimeArgs[..3] + [q1, q2]
      == [Runner] + BuildVitestArgs([q1, q2]);
    RunLineTokens(q1, q2);
  }

  /**
   * The folder match is a character-prefix test, not an ancestor test: a
   * folder whose path is a prefix of a sibling directory's name is chosen.
   */
  lemma SiblingFolderMatches()
    ensures FindWorkspaceRoot(Some(["/ws/app"]), "/ws/app2/a.test.ts") == Some("/ws/app")
  {
    assert StartsWith("/ws/app2/a.test.ts", "/ws/app");
  }
}
