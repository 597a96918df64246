/**
 * The file-system tool: every path an operation names must lie under an allowed directory
 * (compared as absolute paths, by string prefix), the tool name picks the operation, and
 * `edit_file` splices new lines over a 1-based line range and reports a simple diff. Paths are
 * made absolute by `abs` (`filepath.Abs`); files live in an in-memory disk.
 */
module FileSystem {
  import opened Wrappers
  import opened Text

  /** `filepath.Abs`. */
  type AbsFn = string -> Result<string, string>

  /* ---------------- the path guard ---------------- */

  /** Some allowed directory, made absolute, is a string prefix of `absPath`. */
  predicate UnderSome(absPath: string, dirs: seq<string>, abs: AbsFn) {
    exists k | 0 <= k < |dirs| :: abs(dirs[k]).Ok? && HasPrefix(absPath, abs(dirs[k]).value)
  }

  function NotWithin(path: string, absPath: string): string {
    "path '" + path + "' (resolved to '" + absPath + "') is not within allowed directories"
  }

  /** What `isAllowed` answers: the absolute path, or why it is refused. */
  function Guard(path: string, dirs: seq<string>, abs: AbsFn): (r: Result<string, string>)
    ensures abs(path).Err? ==> r == Err("error getting absolute path: " + abs(path).error)
    ensures abs(path).Ok? ==> (r.Ok? <==> UnderSome(abs(path).value, dirs, abs))
    ensures r.Ok? ==> r == Ok(abs(path).value)
    ensures abs(path).Ok? && r.Err? ==> r.error == NotWithin(path, abs(path).value)
  {
    match abs(path)
    case Err(e) => Err("error getting absolute path: " + e)
    case Ok(a) => if UnderSome(a, dirs, abs) then Ok(a) else Err(NotWithin(path, a))
  }

  /** `isAllowed`: tries the allowed directories in order, skipping those that cannot be made absolute. */
  method IsAllowed(path: string, dirs: seq<string>, abs: AbsFn) returns (r: Result<string, string>)
    ensures r == Guard(path, dirs, abs)
  {
    var absPath := abs(path);
    if absPath.Err? {
      return Err("error getting absolute path: " + absPath.error);
    }
    var k := 0;
    while k < |dirs|
      invariant 0 <= k <= |dirs|
      invariant forall j | 0 <= j < k :: !(abs(dirs[j]).Ok? && HasPrefix(absPath.value, abs(dirs[j]).value))
    {
      var dir := abs(dirs[k]);
      if dir.Ok? && HasPrefix(absPath.value, dir.value) {
        return Ok(absPath.value);
      }
      k := k + 1;
    }
    return Err(NotWithin(path, absPath.value));
  }

  /**
   * The guard compares strings, not path components: a sibling whose name extends an allowed
   * directory's name passes as well.
   */
  lemma SiblingPrefixPasses(abs: AbsFn)
    requires abs("/a") == Ok("/a") && abs("/ab") == Ok("/ab")
    ensures Guard("/ab", ["/a"], abs) == Ok("/ab")
  {
    assert HasPrefix("/ab", "/a");
    assert UnderSome("/ab", ["/a"], abs) by {
      assert ["/a"][0] == "/a";
    }
  }

  /* ---------------- the tool call ---------------- */

  /** The decoded arguments; absent fields decode as zero values. */
  datatype FsArgs = FsArgs(
    toolName: string, path: string, oldPath: string, newPath: string, content: string, pattern: string,
    editStartLine: int, editEndLine: int, editNewContent: string, deleteRecursive: bool)

  /** The operations the tool runs on the file system. */
  datatype Op =
    | ReadFile(path: string)
    | ReadMultipleFiles(paths: seq<string>)
    | WriteFile(path: string, content: string)
    | EditFile(path: string, startLine: int, endLine: int, newContent: string)
    | CreateDirectory(path: string)
    | ListDirectory(path: string)
    | DirectoryTree(path: string)
    | MoveFile(oldPath: string, newPath: string)
    | SearchFiles(path: string, pattern: string)
    | GetFileInfo(path: string)
    | ListAllowedDirectories
    | DeletePath(path: string, recursive: bool)

  /** What `CallTool` does: answer at once, or run an operation. */
  datatype Call = Reply(text: string) | Invoke(op: Op)

  const EditArgsRequired :=
    "Error: For edit_file, 'path', 'edit_start_line', and 'edit_new_content' are required arguments."
  const DeletePathRequired := "Error: For delete_path, 'path' is a required argument."

  function NotRecognized(toolName: string): string {
    "Error: tool_name '" + toolName + "' not recognized within FileSystemTool."
  }

  /** The refusal for the first non-empty path in `paths` that the guard refuses, if any. */
  function FirstRefusal(paths: seq<string>, dirs: seq<string>, abs: AbsFn): (r: Option<string>)
    ensures r.None? <==> forall k | 0 <= k < |paths| :: paths[k] == "" || Guard(paths[k], dirs, abs).Ok?
  {
    if |paths| == 0 then None
    else if paths[0] != "" && Guard(paths[0], dirs, abs).Err? then Some(Guard(paths[0], dirs, abs).error)
    else
      var rest := FirstRefusal(paths[1..], dirs, abs);
      assert forall k | 1 <= k < |paths| :: paths[k] == paths[1..][k - 1];
      rest
  }

  /**
   * The switch on the tool name, once the paths have passed the guard; `decodeList` reads the
   * path list of `read_multiple_files` as JSON, the fallback being a comma split.
   */
  function Dispatch(args: FsArgs, decodeList: string -> Option<seq<string>>): (c: Call)
    ensures c.Reply? <==>
      (args.toolName == "edit_file" && (args.path == "" || args.editStartLine == 0 || args.editNewContent == ""))
      || (args.toolName == "delete_path" && args.path == "")
      || args.toolName !in {"read_file", "read_multiple_files", "write_file", "edit_file", "create_directory",
                            "list_directory", "directory_tree", "move_file", "search_files", "get_file_info",
                            "list_allowed_directories", "delete_path"}
  {
    match args.toolName
    case "read_file" => Invoke(ReadFile(args.path))
    case "read_multiple_files" =>
      Invoke(ReadMultipleFiles(match decodeList(args.path) case Some(ps) => ps case None => Split(args.path, ',')))
    case "write_file" => Invoke(WriteFile(args.path, args.content))
    case "edit_file" =>
      if args.path == "" || args.editStartLine == 0 || args.editNewContent == "" then Reply(EditArgsRequired)
      else Invoke(EditFile(args.path, args.editStartLine, args.editEndLine, args.editNewContent))
    case "create_directory" => Invoke(CreateDirectory(args.path))
    case "list_directory" => Invoke(ListDirectory(args.path))
    case "directory_tree" => Invoke(DirectoryTree(args.path))
    case "move_file" => Invoke(MoveFile(args.oldPath, args.newPath))
    case "search_files" => Invoke(SearchFiles(args.path, args.pattern))
    case "get_file_info" => Invoke(GetFileInfo(args.path))
    case "list_allowed_directories" => Invoke(ListAllowedDirectories)
    case "delete_path" =>
      if args.path == "" then Reply(DeletePathRequired) else Invoke(DeletePath(args.path, args.deleteRecursive))
    case _ => Reply(NotRecognized(args.toolName))
  }

  /**
   * `CallTool`: decodes the arguments, refuses the call if any non-empty one of path, old path and
   * new path is outside the allowed directories, and otherwise dispatches on the tool name.
   */
  method CallTool(arguments: string, decode: string -> Result<FsArgs, string>,
                  decodeList: string -> Option<seq<string>>, dirs: seq<string>, abs: AbsFn) returns (c: Call)
    ensures decode(arguments).Err? ==> c == Reply("Error parsing arguments: " + decode(arguments).error)
    ensures decode(arguments).Ok? ==>
      var a := decode(arguments).value;
      match FirstRefusal([a.path, a.oldPath, a.newPath], dirs, abs)
      case Some(e) => c == Reply("Security error: " + e)
      case None => c == Dispatch(a, decodeList)
  {
    var parsed := decode(arguments);
    if parsed.Err? {
      return Reply("Error parsing arguments: " + parsed.error);
    }
    var args := parsed.value;
    var paths := [args.path, args.oldPath, args.newPath];
    var k := 0;
    while k < |paths|
      invariant 0 <= k <= |paths|
      invariant FirstRefusal(paths, dirs, abs) == FirstRefusal(paths[k..], dirs, abs)
    {
      assert paths[k..][1..] == paths[k + 1..];
      if paths[k] != "" {
        var checked := IsAllowed(paths[k], dirs, abs);
        if checked.Err? {
          return Reply("Security error: " + checked.error);
        }
      }
      k := k + 1;
    }
    return Dispatch(args, decodeList);
  }

  /** An operation is invoked only when every non-empty path it was given passed the guard. */
  lemma InvokedPathsAreAllowed(a: FsArgs, decodeList: string -> Option<seq<string>>, dirs: seq<string>, abs: AbsFn)
    requires FirstRefusal([a.path, a.oldPath, a.newPath], dirs, abs).None?
    ensures a.path != "" ==> Guard(a.path, dirs, abs).Ok?
    ensures a.oldPath != "" ==> Guard(a.oldPath, dirs, abs).Ok?
    ensures a.newPath != "" ==> Guard(a.newPath, dirs, abs).Ok?
  {
    assert [a.path, a.oldPath, a.newPath][0] == a.path;
    assert [a.path, a.oldPath, a.newPath][1] == a.oldPath;
    assert [a.path, a.oldPath, a.newPath][2] == a.newPath;
  }

  /* ---------------- editFile ---------------- */

  /** The 0-based last line replaced: the end line when it is at least the start line, else the start line. */
  function EndIndex(startLine: int, endLine: int): int {
    if endLine >= startLine then endLine - 1 else startLine - 1
  }

  /**
   * Why the line range is refused, if it is: a start beyond one past the last line (or before the
   * first), or an end past the last line unless the edit appends at the end.
   */
  function RangeError(startLine: int, endLine: int, count: nat): (r: Option<string>)
    ensures r.None? <==>
      1 <= startLine <= count + 1 && (startLine == count + 1 || EndIndex(startLine, endLine) < count)
  {
    var s := startLine - 1;
    var e := EndIndex(startLine, endLine);
    if s < 0 || s > count then
      Some("Error: Start line " + IntToString(startLine) + " is out of bounds for file with " + IntToString(count) + " lines.")
    else if e < 0 || (e >= count && s != count) then
      Some("Error: End line " + IntToString(endLine) + " is out of bounds for file with " + IntToString(count) + " lines.")
    else None
  }

  /**
   * The lines after an edit of lines `s..e` (0-based, inclusive): the lines before `s`, the new
   * lines, then the lines after `e`; an edit at one past the last line appends.
   */
  function Spliced(original: seq<string>, s: nat, e: int, newLines: seq<string>): (r: seq<string>)
    requires s <= |original| && (s < |original| ==> s <= e < |original|)
    ensures s == |original| ==> r == original + newLines
    ensures s < |original| ==> r == original[..s] + newLines + original[e + 1..]
  {
    if s == |original| then original + newLines else original[..s] + newLines + original[e + 1..]
  }

  /** Each line prefixed with a marker character. */
  function Marked(marker: char, lines: seq<string>): (r: seq<string>)
    ensures |r| == |lines| && forall k | 0 <= k < |lines| :: r[k] == [marker] + lines[k]
  {
    seq(|lines|, k requires 0 <= k < |lines| => [marker] + lines[k])
  }

  /** The diff of an edit: the two headers, the replaced lines marked `-`, the new lines marked `+`. */
  function Diff(path: string, original: seq<string>, s: nat, e: int, newLines: seq<string>): seq<string>
    requires s <= |original| && (s < |original| ==> s <= e < |original|)
  {
    ["--- a/" + path, "+++ b/" + path]
    + Marked('-', if s < |original| then original[s..e + 1] else [])
    + Marked('+', newLines)
  }

  /** The text reported for a successful edit. */
  function EditedMessage(path: string, diff: seq<string>): string {
    "File " + path + " edited successfully.\nDiff:\n" + Join(diff, '\n')
  }

  /** Go's message for reading a file that is not there. */
  function NoSuchFile(absPath: string): string {
    "open " + absPath + ": no such file or directory"
  }

  /** The files the tool works on, by absolute path. */
  class Disk {
    var files: map<string, string>

    constructor(files: map<string, string>)
      ensures this.files == files
    {
      this.files := files;
    }

    /**
     * `editFile`: guards the path, reads the file, checks the range, writes the spliced lines back
     * and reports the diff. Nothing is written when anything is refused.
     */
    method EditFile(path: string, startLine: int, endLine: int, newContent: string, dirs: seq<string>, abs: AbsFn)
      returns (reply: string)
      modifies this
      ensures Guard(path, dirs, abs).Err? ==> reply == "Error: " + Guard(path, dirs, abs).error && files == old(files)
      ensures Guard(path, dirs, abs).Ok? && Guard(path, dirs, abs).value !in old(files) ==>
        reply == "Error reading file " + path + " for edit: " + NoSuchFile(Guard(path, dirs, abs).value)
        && files == old(files)
      ensures Guard(path, dirs, abs).Ok? && Guard(path, dirs, abs).value in old(files) ==>
        var absPath := Guard(path, dirs, abs).value;
        var original := Split(old(files)[absPath], '\n');
        match RangeError(startLine, endLine, |original|)
        case Some(err) => reply == err && files == old(files)
        case None =>
          var newLines := Split(newContent, '\n');
          var s := startLine - 1;
          var e := EndIndex(startLine, endLine);
          files == old(files)[absPath := Join(Spliced(original, s, e, newLines), '\n')]
          && reply == EditedMessage(path, Diff(path, original, s, e, newLines))
    {
      var checked := IsAllowed(path, dirs, abs);
      if checked.Err? {
        return "Error: " + checked.error;
      }
      var absPath := checked.value;
      if absPath !in files {
        return "Error reading file " + path + " for edit: " + NoSuchFile(absPath);
      }
      var originalLines := Split(files[absPath], '\n');
      var rangeError := RangeError(startLine, endLine, |originalLines|);
      if rangeError.Some? {
        return rangeError.value;
      }
      var startIndex := startLine - 1;
      var endIndex := EndIndex(startLine, endLine);
      var newContentLines := Split(newContent, '\n');
      var modifiedLines := SpliceLines(originalLines, startIndex, endIndex, newContentLines);
      files := files[absPath := Join(modifiedLines, '\n')];
      var diff := DiffLines(path, originalLines, startIndex, endIndex, newContentLines);
      return EditedMessage(path, diff);
    }
  }

  /** The splice of `editFile`, by its three-way case split on the range. */
  method SpliceLines(originalLines: seq<string>, startIndex: nat, endIndex: int, newContentLines: seq<string>)
    returns (modifiedLines: seq<string>)
    requires startIndex <= |originalLines|
    requires startIndex < |originalLines| ==> startIndex <= endIndex < |originalLines|
    ensures modifiedLines == Spliced(originalLines, startIndex, endIndex, newContentLines)
  {
    modifiedLines := [];
    if startIndex > 0 {
      modifiedLines := modifiedLines + originalLines[..startIndex];
    }
    modifiedLines := modifiedLines + newContentLines;
    if endIndex + 1 < |originalLines| && startIndex <= endIndex {
      modifiedLines := modifiedLines + originalLines[endIndex + 1..];
    } else if startIndex == |originalLines| {
    } else if startIndex > endIndex {
      // The range check leaves no start after the end except when appending.
      assert false;
    }
    assert startIndex == |originalLines| ==> originalLines[..startIndex] == originalLines;
  }

  /** The diff of `editFile`: headers, then a `-` line per replaced line, then a `+` line per new line. */
  method DiffLines(path: string, originalLines: seq<string>, startIndex: nat, endIndex: int, newContentLines: seq<string>)
    returns (diff: seq<string>)
    requires startIndex <= |originalLines|
    requires startIndex < |originalLines| ==> startIndex <= endIndex < |originalLines|
    ensures diff == Diff(path, originalLines, startIndex, endIndex, newContentLines)
  {
    diff := ["--- a/" + path, "+++ b/" + path];
    var k := startIndex;
    while k <= endIndex && k < |originalLines|
      invariant startIndex <= k
      invariant startIndex < |originalLines| ==> k <= endIndex + 1
      invariant startIndex == |originalLines| ==> k == startIndex
      invariant diff == ["--- a/" + path, "+++ b/" + path] + Marked('-', originalLines[startIndex..k])
    {
      assert originalLines[startIndex..k + 1] == originalLines[startIndex..k] + [originalLines[k]];
      diff := diff + ["-" + originalLines[k]];
      k := k + 1;
    }
    var removed := diff;
    for j := 0 to |newContentLines|
      invariant diff == removed + Marked('+', newContentLines[..j])
    {
      assert newContentLines[..j + 1] == newContentLines[..j] + [newContentLines[j]];
      diff := diff + ["+" + newContentLines[j]];
    }
    assert newContentLines[..|newContentLines|] == newContentLines;
    assert startIndex < |originalLines| ==> k == endIndex + 1;
  }

  /* ---------------- what an edit promises ---------------- */

  /** An end line below the start line replaces just the start line. */
  lemma EndBeforeStartReplacesOneLine(original: seq<string>, startLine: int, endLine: int, newLines: seq<string>)
    requires 1 <= startLine <= |original| && endLine < startLine
    ensures RangeError(startLine, endLine, |original|).None?
    ensures Spliced(original, startLine - 1, EndIndex(startLine, endLine), newLines)
         == original[..startLine - 1] + newLines + original[startLine..]
  {
  }

  /** Editing at one past the last line appends the new lines after all the original ones. */
  lemma EditPastTheEndAppends(original: seq<string>, endLine: int, newLines: seq<string>)
    ensures RangeError(|original| + 1, endLine, |original|).None?
    ensures Spliced(original, |original|, EndIndex(|original| + 1, endLine), newLines) == original + newLines
  {
  }

  /**
   * An in-range edit keeps every line outside the range where it was (shifted by the change in
   * length after the range) and puts the new lines in between.
   */
  lemma SplicePreservesTheRest(original: seq<string>, s: nat, e: nat, newLines: seq<string>)
    requires s <= e < |original|
    ensures var r := Spliced(original, s, e, newLines);
      |r| == |original| - (e - s + 1) + |newLines|
      && (forall k | 0 <= k < s :: r[k] == original[k])
      && (forall k | 0 <= k < |newLines| :: r[s + k] == newLines[k])
      && (forall k | e < k < |original| :: r[k - (e - s + 1) + |newLines|] == original[k])
  {
    var r := Spliced(original, s, e, newLines);
    var before, after := original[..s], original[e + 1..];
    assert r == before + newLines + after;
    forall k | 0 <= k < s ensures r[k] == original[k] {
      assert r[k] == before[k];
    }
    forall k | 0 <= k < |newLines| ensures r[s + k] == newLines[k] {
      assert r[s + k] == (before + newLines)[s + k];
    }
    forall k | e < k < |original| ensures r[k - (e - s + 1) + |newLines|] == original[k] {
      assert r[k - (e - s + 1) + |newLines|] == after[k - e - 1];
    }
  }

  /** The diff lists exactly the replaced lines, each marked `-`, then every new line marked `+`. */
  lemma DiffContents(path: string, original: seq<string>, s: nat, e: nat, newLines: seq<string>)
    requires s <= e < |original|
    ensures var d := Diff(path, original, s, e, newLines);
      |d| == 2 + (e - s + 1) + |newLines|
      && d[0] == "--- a/" + path && d[1] == "+++ b/" + path
      && (forall k | s <= k <= e :: d[2 + k - s] == "-" + original[k])
      && (forall k | 0 <= k < |newLines| :: d[2 + (e - s + 1) + k] == "+" + newLines[k])
  {
    var d := Diff(path, original, s, e, newLines);
    var removed, added := Marked('-', original[s..e + 1]), Marked('+', newLines);
    assert d == ["--- a/" + path, "+++ b/" + path] + removed + added;
    forall k | s <= k <= e ensures d[2 + k - s] == "-" + original[k] {
      assert d[2 + k - s] == removed[k - s];
    }
    forall k | 0 <= k < |newLines| ensures d[2 + (e - s + 1) + k] == "+" + newLines[k] {
      assert d[2 + (e - s + 1) + k] == added[k];
    }
  }
}
