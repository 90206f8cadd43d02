/** The text-level laws of the file tools, carried down to the bytes on disk. */
module ToolRoundTrips {
  import opened Options
  import opened Utf8
  import opened Events
  import opened Tools
  import opened Lines
  import FileEdit
  import FileRead

  /** What file_write stores is what file_edit and file_read decode. */
  lemma WrittenTextIsRead(h: Host, args: map<string, Arg>, files: Workspace)
    requires WriteTool(h, args, files).files.Some?
    ensures var e := WriteTool(h, args, files);
            && e.mutation.Some? && e.mutation.value.FileMutation?
            && var target := e.mutation.value.path;
               && target in e.files.value
               && TextArg(args, "content").Some?
               && Decode(e.files.value[target]) == TextArg(args, "content")
               && e.files.value - {target} == files - {target}
  {
    hide Encode, Decode, Show;
    DecodeEncode(TextArg(args, "content").value);
  }

  /** An accepted edit replaces the file's text by the edited text and touches no other file. */
  lemma EditedTextIsRead(h: Host, files: Workspace, target: string, text: string, start: int, end: int, content: string)
    requires target in files && 1 <= start <= end
    ensures var e, r := EditFile(h, files, target, text, start, end, content), FileEdit.EditText(text, start, end, content);
            && (e.files.Some? <==> r.Edited?)
            && (r.Edited? ==>
                  && target in e.files.value && Decode(e.files.value[target]) == Some(r.text)
                  && e.files.value == files[target := Encode(r.text)])
  {
    hide Encode, Decode, Show, FileEdit.EditText;
    var r := FileEdit.EditText(text, start, end, content);
    if r.Edited? { DecodeEncode(r.text); }
  }

  /** Undoing an edit with the tool itself restores every byte of the workspace, under exactly the
      condition that restores the text. */
  lemma UndoOnDiskIff(h: Host, files: Workspace, target: string, text: string, start: int, end: int, content: string)
    requires target in files && Decode(files[target]) == Some(text)
    requires 1 <= start <= end <= |FileEdit.ContentLines(text)| && content != ""
    ensures var e1 := EditFile(h, files, target, text, start, end, content);
            && e1.files.Some? && target in e1.files.value && Decode(e1.files.value[target]).Some?
            && var text1 := Decode(e1.files.value[target]).value;
               var last := start + |Split(content)| - 1;
               var e2 := EditFile(h, e1.files.value, target, text1, start, last, FileEdit.OldText(text, start, end));
               (e2.files == Some(files) <==>
                  && FileEdit.Stable(FileEdit.ContentLines(text))
                  && (FileEdit.OldText(text, start, end) != "" || |FileEdit.ContentLines(text)| == 1)
                  && (FileEdit.Stable(FileEdit.Spliced(text, start, end, content)) || EndsWithNewline(text)))
  {
    hide Encode, Decode, EditFile, FileEdit.ContentLines, FileEdit.Spliced, FileEdit.Stable, FileEdit.OldText,
         FileEdit.Render, Split;
    EncodeDecode(files[target]);
    EditedTextIsRead(h, files, target, text, start, end, content);
    FileEdit.UndoIff(text, start, end, content);
    var once := FileEdit.EditText(text, start, end, content).text;
    var files1 := files[target := Encode(once)];
    var last, undone := start + |Split(content)| - 1, FileEdit.Undo(text, start, end, content);
    EditedTextIsRead(h, files1, target, once, start, last, FileEdit.OldText(text, start, end));
    if undone.Edited? {
      DecodeEncode(undone.text);
      DecodeEncode(text);
      assert files1[target := Encode(undone.text)] == files[target := Encode(undone.text)];
      assert files[target := Encode(text)] == files;
      assert files[target := Encode(undone.text)] == files ==> Encode(undone.text) == Encode(text) by {
        assert files[target := Encode(undone.text)][target] == Encode(undone.text);
      }
    }
  }

  // ---- Listings as the model sees them ----

  /** What can be relied on in a truncated listing: it ends with the marker, and all rows but the
      last two parse to the next line number and line. */
  predicate ParsesUpToCut(out: string, first: nat, ls: seq<string>) {
    var rows := Split(out);
    && 2 <= |rows| <= |ls| + 1 && Last(rows) == "[truncated]"
    && forall i :: 0 <= i < |rows| - 2 ==>
         FileRead.Readable(rows[i]) && FileRead.ParseLine(rows[i]) == (first + i, ls[i])
  }

  /** The rows of a text that was cut and marked. */
  lemma CutRows(out: string, p: string, cut: string)
    requires p <= out && '\n' !in cut
    ensures var rows := Split(p + cut + MARKER);
            && 2 <= |rows| <= |Split(out)| + 1 && Last(rows) == "[truncated]"
            && rows[..|rows| - 2] <= Split(out)
  {
    hide Split;
    assert p + out[|p|..] == out;
    SplitPrefix(p, out[|p|..]);
    SplitPrefix(p, cut);
    assert p + cut + MARKER == p + cut + "\n" + "[truncated]";
    SplitSnoc(p + cut, "[truncated]");
    var n := |Split(p)| - 1;
    assert forall i :: 0 <= i < n ==> Split(p + cut + MARKER)[i] == Split(p + cut)[i] == Split(out)[i];
  }

  /** A listing survives Tool.run exactly if it is not truncated. */
  lemma ClampedListing(out: string, first: nat, ls: seq<string>)
    requires FileRead.ParsesTo(out, first, ls)
    ensures FileRead.ParsesTo(Clamp(out).content, first, ls) <==> !Clamp(out).truncated
    ensures Clamp(out).truncated ==> ParsesUpToCut(Clamp(out).content, first, ls)
  {
    hide Split, Clamp, FileRead.ParseLine;
    TruncationExact(out);
    if Clamp(out).truncated {
      var p := out[..Fit(out, MAX_INLINE_RESULT_BYTES)];
      var cut := if |Encode(p)| < MAX_INLINE_RESULT_BYTES then "\U{FFFD}" else "";
      CutRows(out, p, cut);
      var rows := Split(Clamp(out).content);
      assert !FileRead.Readable(Last(rows));
      assert forall i :: 0 <= i < |rows| - 2 ==> rows[i] == rows[..|rows| - 2][i] == Split(out)[i];
    }
  }

  /** The answer of a file_read call on a readable file, from the bytes on disk to what the model is
      given: the selected lines under their numbers, exactly if the listing fits in 65536 bytes;
      all rows but the last two if it does not; an error for an empty range. */
  lemma ReadCallParsesIff(h: Host, args: map<string, Arg>, files: Workspace, target: string, text: string,
                          start: int, end: int)
    requires PathGiven(args) && h.resolve(TextArg(args, "path").value) == Some(target) && target in files
    requires |files[target]| <= MAX_FILE_BYTES && Decode(files[target]) == Some(text)
    requires IntArgOr(args, "start_line", 1) == Some(start)
    requires IntArgOr(args, "end_line", |FileRead.ReadLines(text)|) == Some(end)
    ensures var ls := FileRead.ReadLines(text);
            var (first, last) := FileRead.Clamp(ls, start, end);
            var r := Call(h, "file_read", args, files).outcome;
            && r.Returns?
            && if ls == [] then r.value == ToolResult("", 0, false, false)
               else if first > last then r.value.isError
               else
                 var selected := ls[first - 1..last];
                 && !r.value.isError
                 && (FileRead.ParsesTo(r.value.content, first, selected) <==> !r.value.truncated)
                 && (r.value.truncated ==> ParsesUpToCut(r.value.content, first, selected))
                 && (r.value.truncated <==>
                       |Encode(Join(FileRead.Labelled(first, selected)))| > 65536)
  {
    hide Decode, Encode, Show, Split, Join, FileRead.Labelled, FileRead.ReadLines, FileRead.ParsesTo, ParsesUpToCut,
         FileRead.Decimal;
    var ls := FileRead.ReadLines(text);
    var (first, last) := FileRead.Clamp(ls, start, end);
    assert Call(h, "file_read", args, files).outcome == ClampOutcome(ReadFile(args, text).outcome);
    FileRead.ListingParsesBack(text, start, end);
    match FileRead.Listed(ls, start, end) {
      case Listing(out) =>
        TruncationExact(out);
        if ls != [] { ClampedListing(out, first, ls[first - 1..last]); }
      case EmptyRange(_, _) =>
    }
  }

  /** The same, in terms of the lines asked for: a file_read call on a readable file answers with
      exactly the lines numbered `start` to `end` that exist, unless it says that it truncated
      them; it is refused exactly if the file has lines and none of them was asked for. */
  lemma ReadCallShows(h: Host, args: map<string, Arg>, files: Workspace, target: string, text: string,
                      start: int, end: int)
    requires PathGiven(args) && h.resolve(TextArg(args, "path").value) == Some(target) && target in files
    requires |files[target]| <= MAX_FILE_BYTES && Decode(files[target]) == Some(text)
    requires IntArgOr(args, "start_line", 1) == Some(start)
    requires IntArgOr(args, "end_line", |FileRead.ReadLines(text)|) == Some(end)
    ensures var ls, r := FileRead.ReadLines(text), Call(h, "file_read", args, files).outcome;
            && r.Returns?
            && (r.value.isError <==> ls != [] && forall k :: !FileRead.Asked(k, |ls|, start, end))
            && (ls == [] ==> r.value.content == "")
            && (ls != [] && !r.value.isError && !r.value.truncated ==> FileRead.Shows(r.value.content, ls, start, end))
  {
    hide Decode, Encode, Show, FileRead.ReadLines, FileRead.Shows, FileRead.Listed;
    assert Call(h, "file_read", args, files).outcome == ClampOutcome(ReadFile(args, text).outcome);
    FileRead.ListingShows(text, start, end);
    match FileRead.Listed(FileRead.ReadLines(text), start, end) {
      case Listing(out) => TruncationExact(out);
      case EmptyRange(_, _) =>
    }
  }

  // ---- When the tools do their work ----

  /** The event for a file that is about to hold `bytes`. */
  function Mutation(h: Host, files: Workspace, target: string, bytes: seq<byte>): Body {
    if target in files then FileMutation(target, "edit", |files[target]|, |bytes|, "sha256:" + h.sha(bytes))
    else FileMutation(target, "create", 0, |bytes|, "sha256:" + h.sha(bytes))
  }

  /** An error answer, and nothing done. */
  predicate Refused(e: Effect) {
    && e.outcome.Returns? && e.outcome.value.isError && e.outcome.value.exitCode == 2
    && e.files.None? && e.mutation.None?
  }

  /** A success answer, exactly one file changed, and the event for it. */
  predicate Stored(e: Effect, h: Host, files: Workspace, target: string, bytes: seq<byte>) {
    && e.outcome.Returns? && !e.outcome.value.isError && e.outcome.value.exitCode == 0
    && e.files == Some(files[target := bytes]) && e.mutation == Some(Mutation(h, files, target, bytes))
  }

  /** A line number is an integer argument; Python's booleans are the integers 0 and 1. */
  lemma LineNumbers(args: map<string, Arg>, key: string, n: int, default: int)
    ensures IntArg(args, key) == Some(n) <==>
              && key in args
              && (args[key] == Number(n) || (n == 1 && args[key] == Flag(true)) || (n == 0 && args[key] == Flag(false)))
    ensures IntArgOr(args, key, default) == Some(n) <==> if key in args then IntArg(args, key) == Some(n) else n == default
    ensures forall text :: TextArg(args, key) == Some(text) <==> key in args && args[key] == Text(text)
  {
  }

  /** file_read refuses everything else: no path, a path that leaves the workspace or leads to no file,
      a file of more than 1 MiB or not in UTF-8, and line numbers that are no integers. */
  lemma ReadCallRefuses(h: Host, args: map<string, Arg>, files: Workspace)
    ensures var e, path := Call(h, "file_read", args, files), TextArg(args, "path");
            var target := if path.Some? && path.value != "" then h.resolve(path.value) else None;
            var small := target.Some? && target.value in files && |files[target.value]| <= 1048576;
            var text := if small then Decode(files[target.value]) else None;
            text.None? || IntArgOr(args, "start_line", 1).None? || IntArgOr(args, "end_line", 0).None? ==>
              e.outcome.Returns? && e.outcome.value.isError && e.outcome.value.exitCode == 2
  {
    hide Encode, Decode, Show, Clamp, FileRead.ReadLines, FileRead.Listed;
  }

  /** file_write writes exactly if a path and a text are given and the path stays in the workspace;
      then the file the path resolves to holds the text, and every other file is as before. */
  lemma WriteCallIff(h: Host, args: map<string, Arg>, files: Workspace)
    ensures var e := Call(h, "file_write", args, files);
            var path, content := TextArg(args, "path"), TextArg(args, "content");
            if path.Some? && path.value != "" && content.Some? && h.resolve(path.value).Some?
            then Stored(e, h, files, h.resolve(path.value).value, Encode(content.value))
            else Refused(e)
  {
    hide Encode, Show;
  }

  /** The part of file_edit on a file that was found and decoded. */
  lemma EditFileIff(h: Host, files: Workspace, target: string, text: string, start: int, end: int, content: string)
    requires target in files && 1 <= start <= end
    ensures var e := EditFile(h, files, target, text, start, end, content);
            var r := FileEdit.EditText(text, start, end, content);
            && (start > |FileEdit.ContentLines(text)| + 1 ==> Refused(e))
            && (start <= |FileEdit.ContentLines(text)| + 1 ==> r.Edited? && Stored(e, h, files, target, Encode(r.text)))
  {
    hide Encode, Show, FileEdit.ContentLines, FileEdit.Spliced, FileEdit.Render;
  }

  /** Clamping the answer changes nothing else. */
  lemma ClampKeeps(e: Effect, h: Host, files: Workspace, target: string, bytes: seq<byte>)
    ensures var e' := e.(outcome := ClampOutcome(e.outcome));
            && (Refused(e) ==> Refused(e'))
            && (Stored(e, h, files, target, bytes) ==> Stored(e', h, files, target, bytes))
  {
    hide Clamp, Mutation;
  }

  /** file_edit edits exactly if a path, two line numbers in order, the first at least 1, and a text are
      given, the path leads to a UTF-8 file in the workspace, and the first line number is at most
      one past its last line; then the file holds the edited text, every other file is as before,
      and the event says so. */
  lemma EditCallIff(h: Host, args: map<string, Arg>, files: Workspace)
    ensures var e := Call(h, "file_edit", args, files);
            var path, content := TextArg(args, "path"), TextArg(args, "new_content");
            var start, end := IntArg(args, "start_line"), IntArg(args, "end_line");
            var given := path.Some? && path.value != "" && content.Some? && start.Some? && end.Some?;
            var target := if given then h.resolve(path.value) else None;
            var text := if target.Some? && target.value in files then Decode(files[target.value]) else None;
            if && text.Some? && 1 <= start.value <= end.value
               && start.value <= |FileEdit.ContentLines(text.value)| + 1
            then
              var r := FileEdit.EditText(text.value, start.value, end.value, content.value);
              r.Edited? && Stored(e, h, files, target.value, Encode(r.text))
            else Refused(e)
  {
    hide Encode, Decode, Show, FileEdit.ContentLines, FileEdit.EditText, EditFile, Mutation, Clamp, ReadTool, WriteTool;
    var a, e := CheckEditArgs(args), EditTool(h, args, files);
    if a.EditArgs? && h.resolve(a.path).Some? && h.resolve(a.path).value in files
       && Decode(files[h.resolve(a.path).value]).Some? {
      var target := h.resolve(a.path).value;
      var text := Decode(files[target]).value;
      EditFileIff(h, files, target, text, a.start, a.end, a.content);
      var r := FileEdit.EditText(text, a.start, a.end, a.content);
      ClampKeeps(e, h, files, target, if r.Edited? then Encode(r.text) else []);
    } else {
      assert Refused(e);
      ClampKeeps(e, h, files, "", []);
    }
  }

  /** Whatever a tool answers, what Tool.run passes on is at most 65550 bytes long, and nothing but the
      content and the flag changes. */
  lemma AnswersAreBounded(h: Host, tool: string, args: map<string, Arg>, files: Workspace)
    requires tool !in FILE_TOOLS
    ensures var e, (raw, files') := Call(h, tool, args, files), h.shell(tool, args, files);
            && e.files == Some(files') && e.mutation.None?
            && match raw
               case Raises(_, _) => e.outcome == raw
               case Returns(r) =>
                 && e.outcome.Returns? && |Encode(e.outcome.value.content)| <= 65550
                 && (|Encode(r.content)| <= 65536 ==> e.outcome == raw)
                 && (|Encode(r.content)| > 65536 ==>
                       e.outcome.value == r.(content := Clamp(r.content).content, truncated := true))
  {
    hide Encode, WriteTool, EditTool, ReadTool, Clamp;
    var (raw, _) := h.shell(tool, args, files);
    if raw.Returns? { TruncationExact(raw.value.content); }
  }

  /** What was written is what a following file_read of the same path lists, in full if the file and
      the listing are within their limits. */
  lemma WriteThenRead(h: Host, args: map<string, Arg>, readArgs: map<string, Arg>, files: Workspace)
    requires Call(h, "file_write", args, files).files.Some?
    requires TextArg(readArgs, "path") == TextArg(args, "path")
    requires "start_line" !in readArgs && "end_line" !in readArgs
    ensures TextArg(args, "content").Some?
    ensures var content := TextArg(args, "content").value;
            var r := Call(h, "file_read", readArgs, Call(h, "file_write", args, files).files.value).outcome;
            var ls := FileRead.ReadLines(content);
            && r.Returns?
            && (r.value.isError <==> |Encode(content)| > 1048576)
            && (!r.value.isError && ls == [] ==> r.value.content == "")
            && (!r.value.isError && ls != [] && !r.value.truncated ==> FileRead.Shows(r.value.content, ls, 1, |ls|))
  {
    hide FileRead.ReadLines, FileRead.Shows, FileRead.Listed, Encode, Decode, Show, Clamp, EditTool;
    WriteCallIff(h, args, files);
    var content, target := TextArg(args, "content").value, h.resolve(TextArg(args, "path").value).value;
    var files1 := files[target := Encode(content)];
    DecodeEncode(content);
    var ls := FileRead.ReadLines(content);
    if |Encode(content)| <= MAX_FILE_BYTES {
      ReadCallShows(h, readArgs, files1, target, content, 1, |ls|);
      if ls != [] { assert FileRead.Asked(1, |ls|, 1, |ls|); }
    } else {
      RefusalIsShort(h, readArgs, files1);
    }
  }

  lemma RefusalIsShort(h: Host, args: map<string, Arg>, files: Workspace)
    requires ReadTool(h, args, files).outcome.Returns? && ReadTool(h, args, files).outcome.value.isError
    ensures Call(h, "file_read", args, files).outcome.Returns? && Call(h, "file_read", args, files).outcome.value.isError
  {
    hide ReadTool, Clamp;
  }

  // ---- What the tools say ----

  predicate Says(e: Effect, text: string) {
    e.outcome.Returns? && e.outcome.value.content == text
  }

  /** The texts of file_write: what is wrong first, or how much was written where. */
  lemma WriteSays(h: Host, args: map<string, Arg>, files: Workspace)
    ensures var e, path, content := WriteTool(h, args, files), TextArg(args, "path"), TextArg(args, "content");
            if path.None? || path.value == "" then Says(e, "file_write: missing 'path'")
            else if content.None? then Says(e, "file_write: 'content' must be a string")
            else if h.resolve(path.value).None? then Says(e, "file_write: path escapes workspace: " + path.value)
            else Says(e, "file_write: wrote " + FileRead.Decimal(|Encode(content.value)|) + " bytes to " + path.value)
  {
    hide Encode, FileRead.Decimal;
  }

  /** The texts of file_edit; an accepted edit reports the lines it replaced, at most up to the last one,
      and the sizes of the file before and after. */
  lemma EditSays(h: Host, args: map<string, Arg>, files: Workspace)
    ensures var e, path, content := EditTool(h, args, files), TextArg(args, "path"), TextArg(args, "new_content");
            var start, end := IntArg(args, "start_line"), IntArg(args, "end_line");
            if path.None? || path.value == "" then Says(e, "file_edit: missing 'path'")
            else if start.None? || end.None? then Says(e, "file_edit: start_line / end_line must be integers")
            else if content.None? then Says(e, "file_edit: 'new_content' must be a string")
            else if start.value < 1 || end.value < start.value then
              Says(e, "file_edit: invalid range start_line=" + Show(start.value) + " end_line=" + Show(end.value))
            else if h.resolve(path.value).None? then Says(e, "file_edit: path escapes workspace: " + path.value)
            else
              var target := h.resolve(path.value).value;
              if target !in files then Says(e, "file_edit: not found: " + path.value)
              else if Decode(files[target]).None? then
                Says(e, "file_edit: not utf-8 decodable: " + h.badUtf8(files[target]))
              else EditReports(e, files[target], Decode(files[target]).value, start.value, end.value, content.value)
  {
    hide Encode, Decode, Show, FileEdit.EditText, FileEdit.ContentLines;
    if CheckEditArgs(args).EditArgs? {
      var a := CheckEditArgs(args);
      var found := h.resolve(a.path);
      if found.Some? && found.value in files && Decode(files[found.value]).Some? {
        FileSays(h, files, found.value, Decode(files[found.value]).value, a.start, a.end, a.content);
      }
    }
    hide EditReports;
  }

  predicate EditReports(e: Effect, bytes: seq<byte>, text: string, start: int, end: int, content: string) {
    var n, r := |FileEdit.ContentLines(text)|, FileEdit.EditText(text, start, end, content);
    if start > n + 1 then
      Says(e, "file_edit: start_line " + Show(start) + " is past EOF (file has " + Show(n)
              + " lines). To append, use start_line=" + Show(n + 1) + ".")
    else
      var last := if start == n + 1 || end < n then end else n;
      && r.Edited?
      && Says(e, "file_edit: replaced lines " + Show(start) + "-" + Show(last) + " (" + Show(|bytes|) + " -> "
                 + Show(|Encode(r.text)|) + " bytes)")
  }

  lemma FileSays(h: Host, files: Workspace, target: string, text: string, start: int, end: int, content: string)
    requires target in files && 1 <= start <= end
    ensures EditReports(EditFile(h, files, target, text, start, end, content), files[target], text, start, end, content)
  {
    hide Encode, Show, FileEdit.ContentLines, FileEdit.Render, FileEdit.Spliced;
  }

  /** The texts with which file_read refuses. */
  lemma ReadSays(h: Host, args: map<string, Arg>, files: Workspace)
    ensures var e, path := ReadTool(h, args, files), TextArg(args, "path");
            if path.None? || path.value == "" then Says(e, "file_read: missing 'path'")
            else if h.resolve(path.value).None? then Says(e, "file_read: path escapes workspace: " + path.value)
            else
              var target := h.resolve(path.value).value;
              if target !in files then Says(e, "file_read: not found: " + path.value)
              else if |files[target]| > 1048576 then
                Says(e, "file_read: file too large (" + Show(|files[target]|) + " bytes, max " + Show(1048576) + ")")
              else if Decode(files[target]).None? then
                Says(e, "file_read: not utf-8 decodable: " + h.badUtf8(files[target]))
              else if IntArgOr(args, "start_line", 1).None? || IntArgOr(args, "end_line", 0).None? then
                Says(e, "file_read: start_line / end_line must be integers")
              else
                var n := |FileRead.ReadLines(Decode(files[target]).value)|;
                var start, end := IntArgOr(args, "start_line", 1).value, IntArgOr(args, "end_line", n).value;
                var first, last := if start > 1 then start else 1, if end < n then end else n;
                n > 0 && first > last ==>
                  Says(e, "file_read: empty range start_line=" + Show(first) + " end_line=" + Show(last))
  {
    hide Decode, Show, FileRead.ReadLines;
  }
}
