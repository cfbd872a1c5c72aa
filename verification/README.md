# vitest runner: run and debug decision logic

This project models `src/run.ts` of the VS Code extension that runs or debugs a
single vitest case from the editor. It covers what the extension decides before
it calls the editor:

- **Project root.** The first workspace folder whose path is a character prefix
  of the file name is the workspace root. Joining it with the `git.path`
  setting gives the project root. When that fails, the file's own directory is
  the root.
- **Case path.** The file's path relative to that root. This includes the file
  name.
- **Run mode.** A fresh terminal named `vitest - <case name>`. The extension
  sends it `cd <root>` and then
  `pnpx vitest run -t <case path> <case name>`, with both arguments
  JSON-quoted. Then it shows the terminal.
- **Debug mode.** One debug launch configuration. It runs `pnpx` in the root
  with the same vitest arguments, unquoted.

Modules, one concept each:

- `Wrappers` (`wrappers.dfy`): `Option`, which stands for JavaScript's
  `undefined`.
- `Strings` (`strings.dfy`): `startsWith`, `Array.prototype.join` and
  splitting at a separator.
- `Paths` (`paths.dfy`): a POSIX path model standing in for Node's
  `path.dirname`, `path.basename`, `path.join` and `path.relative`.
  - Every path string is read as an absolute path. It is split at `/` and
    normalised as `path.normalize` treats an absolute path: empty and `.`
    pieces vanish, and `..` drops a segment (at the root it stays at the root).
  - Results are written canonically as `/a/b`.
  - Relative results of `Relative` have no leading `/`.
- `Json` (`json.dfy`): `JSON.stringify` of a string. It escapes `"` and `\`,
  uses the short escapes `\b \t \n \f \r`, and writes any other control
  character as `\u00xx` in lower-case hex. It is paired with a reader for JSON
  string literals (section 7 of RFC 8259).
- `Run` (`run.dfy`): the functions of `src/run.ts`.
  - The host's inputs are a `Host` value: the workspace folder list, and the
    `git.path` setting as seen from a workspace folder.
  - The host calls are returned as a sequence of `Event`s in call order:
    create a terminal, send text, show it, and start debugging.
  - The id of the created terminal is a parameter chosen by the host.

In VS Code, `git.path` names the git executable. `findProjectRoot` joins it
onto the workspace root as if it were a directory, and the model does the same.
The folder match is a string-prefix test, not an ancestor test.
`Run.SiblingFolderMatches` shows that the folder `/ws/app` is chosen for a file
under `/ws/app2`.

## Model

| member | source | states |
|---|---|---|
| Run.BuildVitestArgs | src/run.ts:4-6 | the result is `vitest`, `run`, `-t`, then exactly the given arguments in order; its length is 3 plus their number |
| Run.BuildCdArgs | src/run.ts:8-10 | exactly the two tokens `cd` and the path; joined with a space, as the terminal line is, they read `cd <path>` |
| Run.FirstPrefixFolder | src/run.ts:17-19 | `Array.find` with `startsWith`: the index of the first folder whose path is a prefix of the file name; none exactly when no folder is a prefix |
| Run.FindWorkspaceRoot | src/run.ts:12-24 | nothing when the folder list is absent or no folder path is a prefix of the file name; otherwise the first such folder in list order, which is a prefix of the file name |
| Run.FindProjectRoot | src/run.ts:26-38 | a root exists exactly when the workspace root exists and is non-empty and `git.path` is set and non-empty; it is then the `git.path` pieces applied to the workspace root's segments, and it is never empty; its text is the canonical `/a/b` form of those segments, as `path.join` normalises it |
| Run.ProjectRootBelowWorkspace | src/run.ts:31-37 | when `git.path` is a plain relative path, the project root is the workspace root followed by its segments |
| Run.FindFilePathRelativeToRoot | src/run.ts:40-48 | with an empty root, the file's directory as an absolute path; otherwise exactly `Relative(root, file)`: a path that, joined onto the root, names the file, and is empty only when the root names the file |
| Run.GetRootAndCasePath | src/run.ts:50-61 | the root is the project root, or else the file's directory; it is never empty, so the empty-root branch of line 44 is not taken; without a project root the case path is the file's base name; in every case joining root and case path names the file |
| Run.RunLine | src/run.ts:68-76 | the run line is `pnpx vitest run -t ` followed by the JSON-quoted case path, a space, and the JSON-quoted case name |
| Run.ReadRunLineRoundTrip | src/run.ts:68-76 | reading the run line back as JSON string literals yields the case path and the case name unchanged, whatever characters they hold |
| Run.TerminalEvents | src/run.ts:66-77 | for a resolved root and case path: exactly four host calls in order, namely create a terminal named `vitest - <name>`, send `cd <root>`, send the run line to the same terminal, and show it |
| Run.RunInTerminal | src/run.ts:63-78 | the same four calls for the root and case path resolved from the host and the file name |
| Run.BuildDebugConfig | src/run.ts:80-96 | cwd is the given root; runtime executable is `pnpx`; runtime arguments are `vitest run -t`, the case path and the name, unquoted; name, request, type, skipFiles, console and internalConsoleOptions have their fixed values |
| Run.DebugEvents | src/run.ts:101-106 | for a resolved root and case path: exactly one call, which starts debugging with the configuration `BuildDebugConfig` gives for that root, case path and name, so it runs in that root with those unquoted arguments and the fixed field values |
| Run.DebugInTerminal | src/run.ts:98-107 | the same single call, with the full `BuildDebugConfig` configuration, for the root and case path resolved from the host and the file name |
| Run.DebugArgsQuoted | src/run.ts:74-90 | JSON-quoting the last two debug runtime arguments and putting the executable in front gives exactly the run line |
| Run.RunAndDebugAgree | src/run.ts:68-90 | the `cd` line is `cd ` followed by the debug configuration's `cwd`, unquoted, and the run line, read as JSON string literals, gives the debug configuration's unquoted case path and name |
| Run.CdLineWords | src/run.ts:71-72 | the root goes onto the `cd` line unquoted: for a root without spaces, the line splits at spaces into exactly `cd` and the root |
| Run.RootWithSpaceSplits | src/run.ts:71-72 | for the root `/my app`, the `cd` line splits at spaces into the three words `cd`, `/my` and `app`, while the debug `cwd` is `/my app` |
| Run.SiblingFolderMatches | src/run.ts:17-19 | the folder `/ws/app` is chosen for `/ws/app2/a.test.ts`, because the match is a character prefix |
| Paths.Dirname | src/run.ts:51 | the segments of the result are the file's segments without the last one; the result is an absolute path written canonically |
| Paths.Basename | src/run.ts:51-56 | the result holds no `/`; it is empty exactly for the root |
| Paths.DirnameBasename | src/run.ts:51-56 | a path is its directory's segments followed by its base name |
| Paths.Join | src/run.ts:37 | the result is absolute; its segments are the second argument's pieces applied to the first argument's segments; its text is the canonical form of those segments, so no `.`, `..`, empty piece or trailing `/` remains |
| Paths.Segments | src/run.ts:37 | the normalised segments of a path: none is empty, `.` or `..`, and none holds `/` |
| Paths.RenderRoundTrip | src/run.ts:37 | reading the canonical string of normalised segments gives back exactly those segments |
| Paths.Relative | src/run.ts:47 | joined onto `from`, the result names `to`; it is empty exactly when both name the same path; it never starts with `/`; otherwise its pieces are one `..` per segment of `from` below the deepest common ancestor, then the rest of `to` |
| Paths.RelativeUnique | src/run.ts:47 | any string with that empty-or-climb-then-descend shape is the result of `Relative`, so the shape fixes the string |
| Paths.RelativeToDirname | src/run.ts:51-56 | the path from a file's directory to the file is the file's base name |
| Strings.StartsWith | src/run.ts:18 | `startsWith` holds exactly when the prefix is no longer than the string and agrees with it character by character |
| Strings.JoinWith | src/run.ts:72-76 | `join` starts with the first element; its length is the elements' total length plus one separator per neighbouring pair |
| Strings.JoinWithShape | src/run.ts:72-76 | `join` of an empty list is `""`; otherwise it ends with the last element |
| Strings.SplitJoinTokens | src/run.ts:72-76 | `join(" ")` of a non-empty list of tokens without spaces splits back at spaces into exactly those tokens |
| Strings.SplitJoinWith | src/run.ts:72-76 | splitting the `join` of a non-empty list of separator-free pieces at the separator gives back exactly that list |
| Json.Stringify | src/run.ts:68-69 | the result is longer than the input by at least two, is wrapped in `"`, holds no raw control character, and reads back to the input |
| Json.ReadStringEscaped | src/run.ts:68-69 | reading an escaped body and its closing quote gives back the original string and the text after the quote |

## Left out

- The editor API: `createTerminal`, `sendText`, `show`, `startDebugging`, `getConfiguration` and `workspaceFolders`. Their inputs are parameters and their calls are events. What the host does with the calls is not modelled. This includes the shell running the lines, the debug session, and the promise that `startDebugging` returns. Its first argument, always `undefined`, is not recorded.
- Paths.Dirname: agrees with Node only on normalised absolute POSIX paths. Node's `dirname` keeps `.`, `..` and doubled slashes as written, and keeps a relative path relative; the model normalises and reads every path as absolute. Windows paths are not modelled.
- Paths.Join: Node keeps a trailing slash of the last argument and keeps a relative first argument relative. The model reads both as absolute and drops trailing slashes.
- Paths.Relative: Node resolves relative arguments against the process's working directory first. The model reads both arguments as absolute.
- Run.FindProjectRoot: the `git.path` setting is an optional string. Newer VS Code versions also accept an array of strings, which `path.join` would reject. That case is not modelled.
- Run.ReadRunLineRoundTrip: the run line is read back with JSON string rules. The terminal's shell reads it with its own double-quote rules, and that reading is not modelled. For a test name such as `costs $5`, the shell expands `$5`, and it keeps an escape such as `\n` as two characters.
- Run.RunAndDebugAgree: run mode and debug mode pass vitest the same case path and name only when these hold no character that the shell reads differently from JSON inside double quotes. Those characters are `$`, a backquote, `!` (history expansion in an interactive bash or zsh), and the characters that `JSON.stringify` writes as `\b`, `\t`, `\n`, `\f`, `\r` or `\u00xx`. A `"` or `\` is escaped the same way by both and reaches vitest unchanged. Debug mode passes the strings unquoted and is not affected. The root is sent on the `cd` line without any quoting, so run mode changes into it only when it holds no space and no other character the shell gives a meaning of its own (`$`, `;`, `&`, `|`, `*`, `?`, a quote, a parenthesis, a backquote). Otherwise vitest runs in the terminal's starting directory while debug mode runs in the root; `Run.RootWithSpaceSplits` shows this for `/my app`.
- Json.Stringify: lone UTF-16 surrogates, which `JSON.stringify` writes as `\uXXXX`, cannot occur in a Dafny string. Characters are Unicode scalar values, so that case does not arise.
- Behaviour that this revision of `src/run.ts` does not have is not modelled. That covers an upward search for `package.json`, shell escaping of paths, a `--dir` flag, and reusing a terminal by name. The file puts the case path, file name included, right after `-t` and the case name after it. It creates a new terminal on every run.
