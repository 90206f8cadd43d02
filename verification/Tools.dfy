/** The built-in tools: what each call answers, which files it leaves behind and which
    file_mutation event it logs. */
module Tools {
  import opened Options
  import opened Utf8
  import opened Events
  import FileEdit
  import FileRead

  datatype ToolResult = ToolResult(content: string, exitCode: int, isError: bool, truncated: bool)

  /** Everything outside the SDK that tools depend on. `resolve` maps a path argument to its
      resolved workspace key, or to None if it escapes the workspace; `shell` stands for the
      bash and web_search tools; `sha` is SHA-256 in hexadecimal; `badUtf8` is the text of the
      decoder's complaint. */
  datatype Host = Host(
    resolve: string -> Option<string>,
    shell: (string, map<string, Arg>, Workspace) -> (Outcome<ToolResult>, Workspace),
    sha: seq<byte> -> string,
    badUtf8: seq<byte> -> string)

  /** The complete effect of one tool call, apart from time stamps. */
  datatype Effect = Effect(outcome: Outcome<ToolResult>, files: Option<Workspace>, mutation: Option<Body>)

  function Failed(content: string): Effect {
    Effect(Returns(ToolResult(content, 2, true, false)), None, None)
  }

  function Succeeded(content: string): Outcome<ToolResult> {
    Returns(ToolResult(content, 0, false, false))
  }

  // ---- Arguments ----

  /** `args.get(key)` where a string is expected. */
  function TextArg(args: map<string, Arg>, key: string): Option<string> {
    if key in args && args[key].Text? then Some(args[key].s) else None
  }

  /** `args.get(key)` where an integer is expected; Python counts booleans as integers. */
  function IntArg(args: map<string, Arg>, key: string): Option<int> {
    if key !in args then None
    else
      match args[key]
      case Number(i) => Some(i)
      case Flag(b) => Some(if b then 1 else 0)
      case _ => None
  }

  function IntArgOr(args: map<string, Arg>, key: string, default: int): Option<int> {
    if key in args then IntArg(args, key) else Some(default)
  }

  function Show(n: int): string {
    if n < 0 then "-" + FileRead.Decimal(-n) else FileRead.Decimal(n)
  }

  predicate PathGiven(args: map<string, Arg>) {
    TextArg(args, "path").Some? && TextArg(args, "path").value != ""
  }

  function Hash(h: Host, bytes: seq<byte>): string {
    "sha256:" + h.sha(bytes)
  }

  // ---- file_write ----

  function WriteTool(h: Host, args: map<string, Arg>, files: Workspace): Effect {
    var content := TextArg(args, "content");
    if !PathGiven(args) then Failed("file_write: missing 'path'")
    else if content.None? then Failed("file_write: 'content' must be a string")
    else
      var path := TextArg(args, "path").value;
      match h.resolve(path)
      case None => Failed("file_write: path escapes workspace: " + path)
      case Some(target) =>
        var before := if target in files then |files[target]| else 0;
        var operation := if target in files then "edit" else "create";
        var bytes := Encode(content.value);
        Effect(Succeeded("file_write: wrote " + Show(|bytes|) + " bytes to " + path),
               Some(files[target := bytes]),
               Some(FileMutation(target, operation, before, |bytes|, Hash(h, bytes))))
  }

  // ---- file_edit ----

  datatype EditArgs = BadArgs(complaint: string) | EditArgs(path: string, start: int, end: int, content: string)

  /** The argument checks of file_edit. */
  function CheckEditArgs(args: map<string, Arg>): (r: EditArgs)
    ensures r.EditArgs? ==> r.path != "" && 1 <= r.start <= r.end
  {
    var start, end, content := IntArg(args, "start_line"), IntArg(args, "end_line"), TextArg(args, "new_content");
    if !PathGiven(args) then BadArgs("file_edit: missing 'path'")
    else if start.None? || end.None? then BadArgs("file_edit: start_line / end_line must be integers")
    else if content.None? then BadArgs("file_edit: 'new_content' must be a string")
    else if start.value < 1 || end.value < start.value then
      BadArgs("file_edit: invalid range start_line=" + Show(start.value) + " end_line=" + Show(end.value))
    else EditArgs(TextArg(args, "path").value, start.value, end.value, content.value)
  }

  function EditTool(h: Host, args: map<string, Arg>, files: Workspace): Effect {
    match CheckEditArgs(args)
    case BadArgs(complaint) => Failed(complaint)
    case EditArgs(path, start, end, content) => LocateAndEdit(h, files, path, start, end, content)
  }

  /** The part of file_edit after the argument checks: find the file and read it. */
  function LocateAndEdit(h: Host, files: Workspace, path: string, start: int, end: int, content: string): Effect
    requires 1 <= start <= end
  {
    match h.resolve(path)
    case None => Failed("file_edit: path escapes workspace: " + path)
    case Some(target) =>
      if target !in files then Failed("file_edit: not found: " + path)
      else
        match Decode(files[target])
        case None => Failed("file_edit: not utf-8 decodable: " + h.badUtf8(files[target]))
        case Some(text) => EditFile(h, files, target, text, start, end, content)
  }

  /** The part of file_edit that changes the file. */
  function EditFile(h: Host, files: Workspace, target: string, text: string, start: int, end: int, content: string): Effect
    requires target in files && 1 <= start <= end
  {
    var n := |FileEdit.ContentLines(text)|;
    match FileEdit.EditText(text, start, end, content)
    case Edited(newText) =>
      var bytes := Encode(newText);
      var last := if start <= n && n < end then n else end;
      Effect(Succeeded("file_edit: replaced lines " + Show(start) + "-" + Show(last) + " ("
                       + Show(|files[target]|) + " -> " + Show(|bytes|) + " bytes)"),
             Some(files[target := bytes]),
             Some(FileMutation(target, "edit", |files[target]|, |bytes|, Hash(h, bytes))))
    case _ =>
      Failed("file_edit: start_line " + Show(start) + " is past EOF (file has " + Show(n)
             + " lines). To append, use start_line=" + Show(n + 1) + ".")
  }

  // ---- file_read ----

  const MAX_FILE_BYTES := 1048576

  function ReadTool(h: Host, args: map<string, Arg>, files: Workspace): Effect {
    if !PathGiven(args) then Failed("file_read: missing 'path'")
    else
      var path := TextArg(args, "path").value;
      match h.resolve(path)
      case None => Failed("file_read: path escapes workspace: " + path)
      case Some(target) =>
        if target !in files then Failed("file_read: not found: " + path)
        else if |files[target]| > MAX_FILE_BYTES then
          Failed("file_read: file too large (" + Show(|files[target]|) + " bytes, max " + Show(MAX_FILE_BYTES) + ")")
        else
          match Decode(files[target])
          case None => Failed("file_read: not utf-8 decodable: " + h.badUtf8(files[target]))
          case Some(text) => ReadFile(args, text)
  }

  function ReadFile(args: map<string, Arg>, text: string): Effect {
    var ls := FileRead.ReadLines(text);
    var start, end := IntArgOr(args, "start_line", 1), IntArgOr(args, "end_line", |ls|);
    if start.None? || end.None? then Failed("file_read: start_line / end_line must be integers")
    else
      match FileRead.Listed(ls, start.value, end.value)
      case EmptyRange(s, e) => Failed("file_read: empty range start_line=" + Show(s) + " end_line=" + Show(e))
      case Listing(out) => Effect(Succeeded(out), None, None)
  }

  // ---- Any tool, through Tool.run ----

  /** Tool.run clamps the content of whatever the tool answered. */
  function ClampOutcome(o: Outcome<ToolResult>): Outcome<ToolResult> {
    match o
    case Raises(_, _) => o
    case Returns(r) =>
      var c := Clamp(r.content);
      if c.truncated then Returns(r.(content := c.content, truncated := true)) else o
  }

  function Call(h: Host, tool: string, args: map<string, Arg>, files: Workspace): Effect {
    var e :=
      if tool == "file_write" then WriteTool(h, args, files)
      else if tool == "file_edit" then EditTool(h, args, files)
      else if tool == "file_read" then ReadTool(h, args, files)
      else
        var (outcome, files') := h.shell(tool, args, files);
        Effect(outcome, Some(files'), None);
    e.(outcome := ClampOutcome(e.outcome))
  }

  const FILE_TOOLS: set<string> := {"file_read", "file_write", "file_edit"}

  /** Answered with exit code 0, or 2 for an error, and either with both a file and an event or
      neither; errors never write. */
  predicate Tidy(e: Effect, writes: bool) {
    && e.outcome.Returns? && e.outcome.value.exitCode == (if e.outcome.value.isError then 2 else 0)
    && (e.files.Some? <==> e.mutation.Some?)
    && (e.mutation.Some? <==> writes && !e.outcome.value.isError)
  }

  lemma FileWriteTidy(h: Host, args: map<string, Arg>, files: Workspace)
    ensures Tidy(WriteTool(h, args, files), true)
  {
    hide Encode, Show;
  }

  lemma EditFileTidy(h: Host, files: Workspace, target: string, text: string, start: int, end: int, content: string)
    requires target in files && 1 <= start <= end
    ensures Tidy(EditFile(h, files, target, text, start, end, content), true)
  {
    hide Encode, Show, FileEdit.EditText, FileEdit.ContentLines;
  }

  predicate IsRefusal(e: Effect) {
    && e.outcome.Returns? && e.outcome.value.isError && e.outcome.value.exitCode == 2
    && e.files.None? && e.mutation.None?
  }

  lemma LocateCases(h: Host, files: Workspace, path: string, start: int, end: int, content: string)
    returns (target: string, text: string)
    requires 1 <= start <= end
    ensures IsRefusal(LocateAndEdit(h, files, path, start, end, content)) ||
            (target in files && LocateAndEdit(h, files, path, start, end, content)
                                == EditFile(h, files, target, text, start, end, content))
  {
    hide Decode, EditFile;
    target, text := "", "";
    var found := h.resolve(path);
    if found.Some? && found.value in files && Decode(files[found.value]).Some? {
      target, text := found.value, Decode(files[found.value]).value;
    }
  }

  /** file_edit either refuses or gets as far as EditFile. */
  lemma FileEditCases(h: Host, args: map<string, Arg>, files: Workspace)
    returns (target: string, text: string, start: int, end: int, content: string)
    ensures IsRefusal(EditTool(h, args, files)) ||
            (target in files && 1 <= start <= end
             && EditTool(h, args, files) == EditFile(h, files, target, text, start, end, content))
  {
    hide EditFile, LocateAndEdit, CheckEditArgs;
    target, text, start, end, content := "", "", 1, 1, "";
    var a := CheckEditArgs(args);
    if a.EditArgs? {
      start, end, content := a.start, a.end, a.content;
      target, text := LocateCases(h, files, a.path, start, end, content);
    }
  }

  lemma FileEditTidy(h: Host, args: map<string, Arg>, files: Workspace)
    ensures Tidy(EditTool(h, args, files), true)
  {
    hide EditFile, EditTool;
    var target, text, start, end, content := FileEditCases(h, args, files);
    if !IsRefusal(EditTool(h, args, files)) {
      EditFileTidy(h, files, target, text, start, end, content);
    }
  }

  lemma ReadFileTidy(args: map<string, Arg>, text: string)
    ensures Tidy(ReadFile(args, text), false)
  {
    hide Show, FileRead.ReadLines, FileRead.Listed;
  }

  lemma FileReadTidy(h: Host, args: map<string, Arg>, files: Workspace)
    ensures Tidy(ReadTool(h, args, files), false)
  {
    hide Decode, Show, ReadFile;
    var e := ReadTool(h, args, files);
    if PathGiven(args) {
      var target := h.resolve(TextArg(args, "path").value);
      if target.Some? && target.value in files && Decode(files[target.value]).Some? {
        ReadFileTidy(args, Decode(files[target.value]).value);
      }
    }
  }

  /** An error answer of a file tool comes with no change to the files and no event; a
      successful write or edit comes with both; file tools never raise. */
  lemma ErrorsChangeNothing(h: Host, tool: string, args: map<string, Arg>, files: Workspace)
    requires tool in FILE_TOOLS
    ensures Tidy(Call(h, tool, args, files), tool != "file_read")
  {
    FileWriteTidy(h, args, files);
    FileEditTidy(h, args, files);
    FileReadTidy(h, args, files);
    hide Clamp, WriteTool, EditTool, ReadTool;
  }

  // ---- The tools at work on a disk ----

  class Disk {
    var files: Workspace

    constructor (files: Workspace)
      ensures this.files == files
    {
      this.files := files;
    }
  }

  function Store(w: World, files: Option<Workspace>): World {
    if w.halted || files.None? then w else w.(files := files.value)
  }

  /** The effect of a call carried out: the files first, then the mutation event. */
  function Performed(w: World, files: Option<Workspace>, mutation: Option<Body>): World {
    var w1 := Store(w, files);
    if mutation.Some? then Append(w1, mutation.value) else w1
  }

  /** Writes `bytes` to `target` and logs the mutation. An exception of the clock travels up; in a run
      there is none here, because the reading before the tool call went well. */
  method WriteAndLog(h: Host, disk: Disk, events: EventWriter, target: string, operation: string, bytes: seq<byte>)
    returns (r: Outcome<()>)
    modifies disk, events, events.clock
    ensures disk.files == old(disk.files)[target := bytes]
    ensures var before := if target in old(disk.files) then |old(disk.files)[target]| else 0;
            events.View(disk.files, r.Raises?) ==
              Performed(old(events.View(disk.files, false)), Some(old(disk.files)[target := bytes]),
                        Some(FileMutation(target, operation, before, |bytes|, Hash(h, bytes))))
  {
    var before := if target in disk.files then |disk.files[target]| else 0;
    disk.files := disk.files[target := bytes];
    r := events.Emit(FileMutation(target, operation, before, |bytes|, Hash(h, bytes)));
  }

  /** The effect `e` has been carried out; `halted` tells an exception of the clock from an
      answer of the tool itself. */
  ghost predicate Done(before: World, after: World, e: Effect, r: Outcome<ToolResult>) {
    && after == Performed(before, e.files, e.mutation)
    && if after.halted then r.Raises? else r == e.outcome
  }

  method RunFileWrite(h: Host, disk: Disk, events: EventWriter, args: map<string, Arg>)
    returns (r: Outcome<ToolResult>, ghost halted: bool)
    modifies disk, events, events.clock
    ensures Done(old(events.View(disk.files, false)), events.View(disk.files, halted),
                 WriteTool(h, args, old(disk.files)), r)
  {
    hide Encode, Show;
    halted := false;
    var path, content := TextArg(args, "path"), TextArg(args, "content");
    if path.None? || path.value == "" {
      return Failed("file_write: missing 'path'").outcome, false;
    }
    if content.None? {
      return Failed("file_write: 'content' must be a string").outcome, false;
    }
    var target := h.resolve(path.value);
    if target.None? {
      return Failed("file_write: path escapes workspace: " + path.value).outcome, false;
    }
    var operation := if target.value in disk.files then "edit" else "create";
    var encoded := Encode(content.value);
    var logged := WriteAndLog(h, disk, events, target.value, operation, encoded);
    if logged.Raises? {
      return Raises(logged.kind, logged.message), true;
    }
    r := Succeeded("file_write: wrote " + Show(|encoded|) + " bytes to " + path.value);
  }

  method RunFileEdit(h: Host, disk: Disk, events: EventWriter, args: map<string, Arg>)
    returns (r: Outcome<ToolResult>, ghost halted: bool)
    modifies disk, events, events.clock
    ensures Done(old(events.View(disk.files, false)), events.View(disk.files, halted),
                 EditTool(h, args, old(disk.files)), r)
  {
    hide Encode, Decode, Show, EditFile;
    halted := false;
    var path, content := TextArg(args, "path"), TextArg(args, "new_content");
    var start, end := IntArg(args, "start_line"), IntArg(args, "end_line");
    if path.None? || path.value == "" {
      return Failed("file_edit: missing 'path'").outcome, false;
    }
    if start.None? || end.None? {
      return Failed("file_edit: start_line / end_line must be integers").outcome, false;
    }
    if content.None? {
      return Failed("file_edit: 'new_content' must be a string").outcome, false;
    }
    if start.value < 1 || end.value < start.value {
      return Failed("file_edit: invalid range start_line=" + Show(start.value) + " end_line=" + Show(end.value)).outcome,
             false;
    }
    var target := h.resolve(path.value);
    if target.None? {
      return Failed("file_edit: path escapes workspace: " + path.value).outcome, false;
    }
    if target.value !in disk.files {
      return Failed("file_edit: not found: " + path.value).outcome, false;
    }
    var text := Decode(disk.files[target.value]);
    if text.None? {
      return Failed("file_edit: not utf-8 decodable: " + h.badUtf8(disk.files[target.value])).outcome, false;
    }
    r, halted := RunEdit(h, disk, events, target.value, text.value, start.value, end.value, content.value);
  }

  /** Splits, splices, joins, repairs the final newline, and writes. */
  method RunEdit(h: Host, disk: Disk, events: EventWriter, target: string, text: string, start: int, end: int,
                 content: string)
    returns (r: Outcome<ToolResult>, ghost halted: bool)
    requires target in disk.files && 1 <= start <= end
    modifies disk, events, events.clock
    ensures Done(old(events.View(disk.files, false)), events.View(disk.files, halted),
                 EditFile(h, old(disk.files), target, text, start, end, content), r)
  {
    hide Encode, Show, FileEdit.ContentLines, FileEdit.Render;
    halted := false;
    var lines := FileEdit.ContentLines(text);
    var n, before := |lines|, |disk.files[target]|;
    if start > n + 1 {
      return Failed("file_edit: start_line " + Show(start) + " is past EOF (file has " + Show(n)
                    + " lines). To append, use start_line=" + Show(n + 1) + ".").outcome, false;
    }
    var edited := FileEdit.Splice(lines, start, end, FileEdit.Replacement(content));
    var encoded := Encode(FileEdit.Render(edited, FileEdit.Lines.EndsWithNewline(text)));
    var logged := WriteAndLog(h, disk, events, target, "edit", encoded);
    if logged.Raises? {
      return Raises(logged.kind, logged.message), true;
    }
    var last := if start <= n && n < end then n else end;
    r := Succeeded("file_edit: replaced lines " + Show(start) + "-" + Show(last) + " ("
                   + Show(before) + " -> " + Show(|encoded|) + " bytes)");
  }

  /** Tool.run for every tool: dispatch, then the clamp on the content. */
  method RunTool(h: Host, disk: Disk, events: EventWriter, tool: string, args: map<string, Arg>)
    returns (r: Outcome<ToolResult>, ghost halted: bool)
    modifies disk, events, events.clock
    ensures Done(old(events.View(disk.files, false)), events.View(disk.files, halted),
                 Call(h, tool, args, old(disk.files)), r)
  {
    hide WriteTool, EditTool, ReadTool, Clamp;
    halted := false;
    if tool == "file_write" {
      r, halted := RunFileWrite(h, disk, events, args);
    } else if tool == "file_edit" {
      r, halted := RunFileEdit(h, disk, events, args);
    } else if tool == "file_read" {
      FileReadTidy(h, args, disk.files);
      r := ReadTool(h, args, disk.files).outcome;
    } else {
      var (outcome, files') := h.shell(tool, args, disk.files);
      disk.files := files';
      r := outcome;
    }
    r := ClampOutcome(r);
  }
}
