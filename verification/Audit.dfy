/** The file_mutation log against the workspace. An auditor who knows only the sizes and hashes of
    the files before the run follows the log and ends up with exactly those after it. */
module Audit {
  import opened Options
  import opened Utf8
  import opened Events
  import opened Tools
  import opened Plan
  import opened Trace
  import FileEdit

  datatype Print = Print(size: nat, hash: string)
  type Prints = map<string, Print>

  function PrintsOf(h: Host, files: Workspace): Prints {
    map p | p in files :: Print(|files[p]|, Hash(h, files[p]))
  }

  /** One mutation event, checked against what the auditor knows: "create" exactly for unknown
      files, and the right size before. None is an objection. */
  function Follow(known: Prints, b: Body): Option<Prints> {
    if !b.FileMutation? then Some(known)
    else if b.operation == (if b.path in known then "edit" else "create")
            && b.sizeBefore == (if b.path in known then known[b.path].size else 0)
    then Some(known[b.path := Print(b.sizeAfter, b.hashAfter)])
    else None
  }

  function FollowAll(known: Prints, notes: seq<Note>): Option<Prints>
    decreases notes
  {
    if notes == [] then Some(known)
    else
      match Follow(known, notes[0].body)
      case None => None
      case Some(known') => FollowAll(known', notes[1..])
  }

  lemma {:induction false} FollowConcat(known: Prints, a: seq<Note>, b: seq<Note>)
    ensures FollowAll(known, a + b) ==
              match FollowAll(known, a) case None => None case Some(known') => FollowAll(known', b)
    decreases a
  {
    if a == [] {
      assert a + b == b;
    } else {
      assert (a + b)[1..] == a[1..] + b;
      match Follow(known, a[0].body)
      case None =>
      case Some(known') => FollowConcat(known', a[1..], b);
    }
  }

  // ---- Tools keep the log honest ----

  /** The files after an effect. */
  function Left(files: Workspace, changed: Option<Workspace>): Workspace {
    if changed.Some? then changed.value else files
  }

  /** The mutation event of an effect, if any, is what the auditor needs to follow it. */
  predicate Honest(h: Host, files: Workspace, changed: Option<Workspace>, mutation: Option<Body>) {
    match mutation
    case None => Left(files, changed) == files
    case Some(b) => b.FileMutation? && Follow(PrintsOf(h, files), b) == Some(PrintsOf(h, Left(files, changed)))
  }

  lemma WriteHonest(h: Host, files: Workspace, target: string, bytes: seq<byte>)
    ensures var before := if target in files then |files[target]| else 0;
            var operation := if target in files then "edit" else "create";
            Honest(h, files, Some(files[target := bytes]),
                   Some(FileMutation(target, operation, before, |bytes|, Hash(h, bytes))))
  {
    var prints, prints' := PrintsOf(h, files), PrintsOf(h, files[target := bytes]);
    assert prints' == prints[target := Print(|bytes|, Hash(h, bytes))];
  }

  lemma FileWriteHonest(h: Host, args: map<string, Arg>, files: Workspace)
    ensures Honest(h, files, WriteTool(h, args, files).files, WriteTool(h, args, files).mutation)
  {
    var e := WriteTool(h, args, files);
    hide Encode, Show;
    if e.mutation.Some? {
      WriteHonest(h, files, e.mutation.value.path, Encode(TextArg(args, "content").value));
    }
  }

  lemma EditFileHonest(h: Host, files: Workspace, target: string, text: string, start: int, end: int, content: string)
    requires target in files && 1 <= start <= end
    ensures var e := EditFile(h, files, target, text, start, end, content);
            Honest(h, files, e.files, e.mutation)
  {
    hide Encode, Show, FileEdit.EditText, FileEdit.ContentLines;
    var e := EditFile(h, files, target, text, start, end, content);
    if e.mutation.Some? {
      WriteHonest(h, files, target, e.files.value[target]);
    }
  }

  lemma FileEditHonest(h: Host, args: map<string, Arg>, files: Workspace)
    ensures Honest(h, files, EditTool(h, args, files).files, EditTool(h, args, files).mutation)
  {
    hide EditFile, EditTool;
    var target, text, start, end, content := FileEditCases(h, args, files);
    if !IsRefusal(EditTool(h, args, files)) {
      EditFileHonest(h, files, target, text, start, end, content);
    }
  }

  /** What a call logs is honest; a call that logs nothing keeps the files if it is a file tool. */
  lemma CallHonest(h: Host, tool: string, args: map<string, Arg>, files: Workspace)
    ensures var e := Call(h, tool, args, files);
            tool in FILE_TOOLS || e.mutation.Some? ==> Honest(h, files, e.files, e.mutation)
  {
    hide WriteTool, EditTool, ReadTool, Clamp;
    FileWriteHonest(h, args, files);
    FileEditHonest(h, args, files);
    FileReadTidy(h, args, files);
  }

  // ---- Plans keep the log honest ----

  /** The files after one action that is carried out in full. */
  function FilesAfter1(a: Action, files: Workspace): Workspace {
    if a.Timed? then Left(files, a.files) else files
  }

  function FilesAfter(actions: seq<Action>, files: Workspace): Workspace
    decreases actions
  {
    if actions == [] then files else FilesAfter(actions[1..], FilesAfter1(actions[0], files))
  }

  /** A call that logs no mutation leaves the files as they are. */
  predicate KeepsOrLogs(a: Action, files: Workspace) {
    a.Timed? && a.mutation.None? ==> Left(files, a.files) == files
  }

  /** No call of the plan changes files without logging it; in a run, only the shell could. */
  predicate NothingUnlogged(actions: seq<Action>, files: Workspace)
    decreases actions
  {
    actions != [] ==> KeepsOrLogs(actions[0], files) && NothingUnlogged(actions[1..], FilesAfter1(actions[0], files))
  }

  /** Mutations are logged by tool calls only, and honestly; with `strict`, nothing goes unlogged. */
  predicate HonestAction(h: Host, a: Action, files: Workspace, strict: bool) {
    match a
    case Emit(b) => !b.FileMutation?
    case Timed(changed, mutation, end) =>
      !end.FileMutation? && (mutation.Some? || strict ==> Honest(h, files, changed, mutation))
    case _ => true
  }

  predicate HonestPlan(h: Host, actions: seq<Action>, files: Workspace, strict: bool)
    decreases actions
  {
    actions != [] ==>
      && HonestAction(h, actions[0], files, strict)
      && HonestPlan(h, actions[1..], FilesAfter1(actions[0], files), strict)
  }

  lemma {:induction false} HonestConcat(h: Host, a: seq<Action>, b: seq<Action>, files: Workspace, strict: bool)
    ensures FilesAfter(a + b, files) == FilesAfter(b, FilesAfter(a, files))
    ensures HonestPlan(h, a + b, files, strict) <==>
            HonestPlan(h, a, files, strict) && HonestPlan(h, b, FilesAfter(a, files), strict)
    decreases a
  {
    hide HonestAction;
    if a == [] {
      assert a + b == b;
    } else {
      assert (a + b)[0] == a[0] && (a + b)[1..] == a[1..] + b;
      HonestConcat(h, a[1..], b, FilesAfter1(a[0], files), strict);
    }
  }

  lemma {:induction false} StrictKeeps(h: Host, actions: seq<Action>, files: Workspace)
    requires HonestPlan(h, actions, files, true)
    ensures NothingUnlogged(actions, files)
    decreases actions
  {
    if actions != [] {
      StrictKeeps(h, actions[1..], FilesAfter1(actions[0], files));
    }
  }

  /** Actions other than tool calls with effects. */
  predicate Plain(a: Action) {
    match a
    case Emit(b) => !b.FileMutation?
    case Timed(changed, mutation, end) => changed.None? && mutation.None? && !end.FileMutation?
    case _ => true
  }

  lemma {:induction false} PlainHonest(h: Host, actions: seq<Action>, files: Workspace, strict: bool)
    requires forall i :: 0 <= i < |actions| ==> Plain(actions[i])
    ensures HonestPlan(h, actions, files, strict) && FilesAfter(actions, files) == files
    decreases actions
  {
    if actions != [] {
      PlainHonest(h, actions[1..], files, strict);
    }
  }

  /** Only file tools can be called. */
  predicate FileToolsOnly(t: Task) {
    forall n :: n in Known(t.tools) ==> n in FILE_TOOLS
  }

  lemma OneToolHonest(t: Task, env: Env, use: ToolUse, files: Workspace, strict: bool)
    requires strict ==> FileToolsOnly(t)
    ensures var p := OneTool(t, env, use, files);
            HonestPlan(env.host, p.actions, files, strict) && FilesAfter(p.actions, files) == p.files
  {
    hide Known, Call;
    var p := OneTool(t, env, use, files);
    if use.name !in Known(t.tools) {
      PlainHonest(env.host, p.actions, files, strict);
    } else {
      CallHonest(env.host, use.name, use.input, files);
      hide Honest;
      var first, second := [p.actions[0]], [p.actions[1]];
      assert p.actions == first + second && second[1..] == [];
      PlainHonest(env.host, first, files, strict);
      assert FilesAfter(second, files) == FilesAfter([], FilesAfter1(p.actions[1], files)) == p.files;
      assert HonestPlan(env.host, second, files, strict);
      HonestConcat(env.host, first, second, files, strict);
    }
  }

  lemma {:induction false} AllToolsHonest(t: Task, env: Env, uses: seq<ToolUse>, files: Workspace, strict: bool)
    requires strict ==> FileToolsOnly(t)
    ensures var p := AllTools(t, env, uses, files);
            HonestPlan(env.host, p.actions, files, strict) && FilesAfter(p.actions, files) == p.files
    decreases uses
  {
    if uses == [] {
      PlainHonest(env.host, [], files, strict);
    } else {
      hide OneTool, FileToolsOnly, HonestPlan, FilesAfter;
      var first := OneTool(t, env, uses[0], files);
      OneToolHonest(t, env, uses[0], files, strict);
      AllToolsHonest(t, env, uses[1..], first.files, strict);
      HonestConcat(env.host, first.actions, AllTools(t, env, uses[1..], first.files).actions, files, strict);
    }
  }

  lemma TurnHonest(t: Task, env: Env, s: Loop, strict: bool)
    requires strict ==> FileToolsOnly(t)
    ensures var turn := OneTurn(t, env, s);
            HonestPlan(env.host, turn.actions, s.files, strict) && FilesAfter(turn.actions, s.files) == turn.next.files
  {
    var h, o, turn := env.host, Opening(t, env, s), OneTurn(t, env, s);
    hide FileToolsOnly, HonestPlan, FilesAfter, AllTools, RequestOf;
    match env.client(s.step, RequestOf(t, s.messages))
    case Raises(_, _) => PlainHonest(h, turn.actions, s.files, strict);
    case Returns(resp) =>
      var asked, end := o + [Timed(None, None, AnswerEvent(t, env, s, resp))], [Emit(StepEnd(s.step))];
      PlainHonest(h, asked, s.files, strict);
      if Continues(resp) {
        var tools := AllTools(t, env, resp.toolUses, s.files);
        AllToolsHonest(t, env, resp.toolUses, s.files, strict);
        HonestConcat(h, asked, tools.actions, s.files, strict);
        PlainHonest(h, end, tools.files, strict);
        HonestConcat(h, asked + tools.actions, end, s.files, strict);
      } else {
        PlainHonest(h, end, s.files, strict);
        HonestConcat(h, asked, end, s.files, strict);
      }
  }

  lemma {:induction false} FromHonest(t: Task, env: Env, s: Loop, strict: bool)
    requires strict ==> FileToolsOnly(t)
    ensures HonestPlan(env.host, From(t, env, s), s.files, strict)
    decreases MaxSteps(t) - s.step
  {
    hide FileToolsOnly, HonestPlan, FilesAfter, DoneEvent;
    DoneIsPlain();
    if s.step >= MaxSteps(t) {
      PlainHonest(env.host, From(t, env, s), s.files, strict);
    } else {
      var turn := OneTurn(t, env, s);
      TurnHonest(t, env, s, strict);
      assert turn.signal.Continue? ==> turn.next.step == s.step + 1;
      hide OneTurn;
      var rest := match turn.signal
        case Continue => From(t, env, turn.next)
        case Finish(o) => [Emit(DoneEvent(turn.next, o))]
        case Crash(kind, message) => [Emit(AgentError(kind, message)), Emit(DoneEvent(s, "failed"))];
      if turn.signal.Continue? {
        FromHonest(t, env, turn.next, strict);
      } else {
        PlainHonest(env.host, rest, turn.next.files, strict);
      }
      HonestConcat(env.host, turn.actions, rest, s.files, strict);
    }
  }

  lemma DoneIsPlain()
    ensures forall s, o :: Plain(Emit(DoneEvent(s, o)))
  {
  }

  lemma WholeHonest(t: Task, env: Env, files: Workspace, strict: bool)
    requires strict ==> FileToolsOnly(t)
    ensures HonestPlan(env.host, Whole(t, env, files), files, strict)
  {
    hide From;
    var opening := [SetStep(0), Emit(StartEvent(t))];
    PlainHonest(env.host, opening, files, strict);
    FromHonest(t, env, Start(t, files), strict);
    hide HonestPlan, FileToolsOnly;
    HonestConcat(env.host, opening, From(t, env, Start(t, files)), files, strict);
  }

  /** With file tools only, nothing goes unlogged. */
  lemma FileToolsLogAll(t: Task, env: Env, files: Workspace)
    requires FileToolsOnly(t)
    ensures NothingUnlogged(Whole(t, env, files), files)
  {
    WholeHonest(t, env, files, true);
    hide Whole;
    StrictKeeps(env.host, Whole(t, env, files), files);
  }

  // ---- Executions, complete or cut short ----

  /** The log so far leads from what was known at the start to the files as they are now. */
  predicate Explained(h: Host, known: Prints, w: World) {
    FollowAll(known, EraseAll(w.log)) == Some(PrintsOf(h, w.files))
  }

  lemma AppendExplained(h: Host, known: Prints, w: World, b: Body)
    requires Explained(h, known, w) && !b.FileMutation?
    ensures Explained(h, known, Append(w, b))
  {
    var w' := Append(w, b);
    if w'.log != w.log {
      FollowLogged(known, w, b);
    }
  }

  /** The auditor after one more event. */
  lemma FollowLogged(known: Prints, w: World, b: Body)
    requires !w.halted && !Append(w, b).halted && FollowAll(known, EraseAll(w.log)).Some?
    ensures FollowAll(known, EraseAll(Append(w, b).log)) == Follow(FollowAll(known, EraseAll(w.log)).value, b)
  {
    var w', n := Append(w, b), Note(w.step, WithLatency(b, 0));
    assert EraseAll(w'.log) == EraseAll(w.log) + [n];
    FollowConcat(known, EraseAll(w.log), [n]);
    var mid := FollowAll(known, EraseAll(w.log)).value;
    assert [n][1..] == [];
    assert Follow(mid, n.body) == Follow(mid, b);
  }

  /** A tool's effect: the reading before it went well, so its event can be stamped too, and the
      files never change without it. */
  lemma PerformExplained(h: Host, known: Prints, w: World, a: Action)
    requires a.Timed? && !w.halted && HonestAction(h, a, w.files, false) && KeepsOrLogs(a, w.files) && Explained(h, known, w)
    ensures var w1 := Performed(Read(w), a.files, a.mutation);
            Explained(h, known, w1) && (!w1.halted ==> w1.files == FilesAfter1(a, w.files))
  {
    var r := Read(w);
    if !r.halted && a.mutation.Some? {
      var w0 := Store(r, a.files);
      assert !Append(w0, a.mutation.value).halted;
      FollowLogged(known, w0, a.mutation.value);
    }
  }

  lemma Exec1Explained(h: Host, known: Prints, w: World, a: Action)
    requires !w.halted && HonestAction(h, a, w.files, false) && KeepsOrLogs(a, w.files) && Explained(h, known, w)
    ensures Explained(h, known, Exec1(w, a))
    ensures !Exec1(w, a).halted ==> Exec1(w, a).files == FilesAfter1(a, w.files)
  {
    match a {
      case Emit(b) => AppendExplained(h, known, w, b);
      case Timed(changed, mutation, end) =>
        var w1 := Performed(Read(w), changed, mutation);
        PerformExplained(h, known, w, a);
        hide Performed;
        AppendExplained(h, known, Read(w1), WithLatency(end, Latency(Reading(w), Reading(w1))));
      case _ =>
    }
  }

  lemma {:induction false} ExecExplained(h: Host, known: Prints, w: World, actions: seq<Action>)
    requires HonestPlan(h, actions, w.files, false) && NothingUnlogged(actions, w.files) && Explained(h, known, w)
    ensures Explained(h, known, Exec(w, actions))
    decreases actions
  {
    if w.halted {
      HaltedStays(w, actions);
    } else if actions != [] {
      var w1 := Exec1(w, actions[0]);
      Exec1Explained(h, known, w, actions[0]);
      hide Exec1, Explained, HonestAction, KeepsOrLogs;
      if w1.halted {
        HaltedStays(w1, actions[1..]);
      } else {
        ExecExplained(h, known, w1, actions[1..]);
      }
    }
  }

  /** For every run in which nothing but the file tools changes files, with every clock, also one
      that gives out in the middle: from the sizes and hashes of the files before it, the
      file_mutation events of its trace can be followed without objection, and they lead to the
      sizes and hashes of the files it leaves. */
  lemma LogExplainsFiles(t: Task, env: Env, files: Workspace, clock: Clock)
    requires NothingUnlogged(Whole(t, env, files), files)
    ensures var w := Exec(Fresh(clock, files), Whole(t, env, files));
            FollowAll(PrintsOf(env.host, files), EraseAll(w.log)) == Some(PrintsOf(env.host, w.files))
  {
    WholeHonest(t, env, files, false);
    assert EraseAll([]) == [];
    hide Whole, Exec;
    ExecExplained(env.host, PrintsOf(env.host, files), Fresh(clock, files), Whole(t, env, files));
  }

  // ---- What following a log means for one file ----

  /** The mutations of one path, in order. */
  function Only(notes: seq<Note>, p: string): (bs: seq<Body>)
    ensures forall i :: 0 <= i < |bs| ==> bs[i].FileMutation? && bs[i].path == p
    decreases notes
  {
    if notes == [] then []
    else
      (if notes[0].body.FileMutation? && notes[0].body.path == p then [notes[0].body] else []) + Only(notes[1..], p)
  }

  predicate Linked(b: Body, b': Body) {
    b.FileMutation? && b'.FileMutation? && b'.operation == "edit" && b'.sizeBefore == b.sizeAfter
  }

  /** What the mutations `mine` of path `p` must look like between two states of knowledge. */
  predicate Chain(known: Prints, end: Prints, mine: seq<Body>, p: string) {
    && (forall i :: 0 <= i < |mine| ==> mine[i].FileMutation?)
    && (mine == [] ==> (p in end <==> p in known) && (p in known ==> end[p] == known[p]))
    && (mine != [] ==>
          && mine[0].operation == (if p in known then "edit" else "create")
          && mine[0].sizeBefore == (if p in known then known[p].size else 0)
          && p in end && end[p] == Print(mine[|mine| - 1].sizeAfter, mine[|mine| - 1].hashAfter))
    && (forall i :: 0 < i < |mine| ==> Linked(mine[i - 1], mine[i]))
  }

  lemma ChainCons(known: Prints, end: Prints, b: Body, mine: seq<Body>, p: string)
    requires b.FileMutation? && b.path == p && Follow(known, b).Some? && Chain(Follow(known, b).value, end, mine, p)
    ensures Chain(known, end, [b] + mine, p)
  {
    var all := [b] + mine;
    if mine != [] { assert Linked(b, mine[0]); }
    forall i | 0 < i < |all| ensures Linked(all[i - 1], all[i]) {
      if i > 1 { assert Linked(mine[i - 2], mine[i - 1]); }
    }
  }

  lemma ChainSkip(known: Prints, known': Prints, end: Prints, mine: seq<Body>, p: string)
    requires (p in known <==> p in known') && (p in known ==> known'[p] == known[p]) && Chain(known', end, mine, p)
    ensures Chain(known, end, mine, p)
  {
  }

  /** Mutations of one path that can be followed form a chain: the first is a "create" exactly if
      the file was not there, every other is an "edit" whose size before is the size after of the
      previous one, and the last one carries the final size and hash. */
  lemma {:induction false} FollowedChain(known: Prints, notes: seq<Note>, p: string)
    requires FollowAll(known, notes).Some?
    ensures Chain(known, FollowAll(known, notes).value, Only(notes, p), p)
    decreases notes
  {
    if notes != [] {
      var b := notes[0].body;
      var known' := Follow(known, b).value;
      FollowedChain(known', notes[1..], p);
      if b.FileMutation? && b.path == p {
        hide Chain;
        ChainCons(known, FollowAll(known, notes).value, b, Only(notes[1..], p), p);
      } else {
        hide Chain;
        ChainSkip(known, known', FollowAll(known, notes).value, Only(notes[1..], p), p);
        assert Only(notes, p) == Only(notes[1..], p);
      }
    }
  }
}
