/** What the model is shown: the message history at every LLM call of a run. */
module Conversation {
  import opened Events
  import opened Tools
  import opened Plan
  import opened Trace
  import Replay

  /** The histories sent by the LLM calls from the given variables on, in order. */
  function Histories(t: Task, env: Env, s: Loop): seq<seq<Message>>
    decreases MaxSteps(t) - s.step
  {
    if s.step >= MaxSteps(t) then []
    else
      var turn := OneTurn(t, env, s);
      [s.messages] + (if turn.signal.Continue? then Histories(t, env, turn.next) else [])
  }

  // ---- Alternation and answered tool uses ----

  /** The ids of the tool uses in an assistant turn, in order. */
  function AskedIds(blocks: seq<Block>): seq<string> {
    if blocks == [] then []
    else (if blocks[0].ToolUseBlock? then [blocks[0].id] else []) + AskedIds(blocks[1..])
  }

  function AnsweredIds(results: seq<ResultBlock>): seq<string> {
    seq(|results|, i requires 0 <= i < |results| => results[i].toolUseId)
  }

  /** A user turn that answers the assistant turn before it, use by use. */
  predicate Answers(asked: Message, answer: Message) {
    && asked.Assistant? && answer.Results?
    && AnsweredIds(answer.results) == AskedIds(asked.blocks)
    && answer.results != []
  }

  /** The history before step `k`: the prompt, then k pairs of assistant and answering user turns. */
  predicate GoodHistory(ms: seq<Message>, k: nat) {
    && |ms| == 2 * k + 1
    && ms[0].Prompt?
    && forall i :: 0 <= i < k ==> Answers(ms[2 * i + 1], ms[2 * i + 2])
  }

  lemma {:induction false} ResultsMatch(t: Task, env: Env, uses: seq<ToolUse>, files: Workspace)
    ensures var results := AllTools(t, env, uses, files).results;
            && |results| == |uses|
            && forall i :: 0 <= i < |uses| ==> results[i].toolUseId == uses[i].id
    decreases uses
  {
    if uses != [] {
      hide Call, Known;
      ResultsMatch(t, env, uses[1..], OneTool(t, env, uses[0], files).files);
    }
  }

  lemma {:induction false} AskedConcat(a: seq<Block>, b: seq<Block>)
    ensures AskedIds(a + b) == AskedIds(a) + AskedIds(b)
  {
    if a == [] {
      assert a + b == b;
    } else {
      var first := if a[0].ToolUseBlock? then [a[0].id] else [];
      assert (a + b)[0] == a[0] && (a + b)[1..] == a[1..] + b;
      AskedConcat(a[1..], b);
      assert AskedIds(a + b) == first + (AskedIds(a[1..]) + AskedIds(b));
      assert AskedIds(a) == first + AskedIds(a[1..]);
    }
  }

  lemma {:induction false} TextsAskNothing(blocks: seq<Block>)
    requires forall i :: 0 <= i < |blocks| ==> blocks[i].TextBlock?
    ensures AskedIds(blocks) == []
  {
    if blocks != [] {
      TextsAskNothing(blocks[1..]);
    }
  }

  lemma {:induction false} UsesAskAll(blocks: seq<Block>)
    requires forall i :: 0 <= i < |blocks| ==> blocks[i].ToolUseBlock?
    ensures |AskedIds(blocks)| == |blocks|
    ensures forall i :: 0 <= i < |blocks| ==> AskedIds(blocks)[i] == blocks[i].id
  {
    if blocks != [] {
      UsesAskAll(blocks[1..]);
    }
  }

  lemma MessageAsks(resp: Response)
    ensures var ids := AskedIds(AssistantMessage(resp).blocks);
            |ids| == |resp.toolUses| && forall i :: 0 <= i < |ids| ==> ids[i] == resp.toolUses[i].id
  {
    var blocks := AssistantMessage(resp).blocks;
    var n := |resp.texts|;
    assert blocks == blocks[..n] + blocks[n..];
    AskedConcat(blocks[..n], blocks[n..]);
    TextsAskNothing(blocks[..n]);
    UsesAskAll(blocks[n..]);
    assert AskedIds(blocks) == [] + AskedIds(blocks[n..]) == AskedIds(blocks[n..]);
    hide AskedIds;
  }

  /** A continuing turn adds one assistant turn and its answer. */
  lemma TurnExtends(t: Task, env: Env, s: Loop)
    requires OneTurn(t, env, s).signal.Continue?
    ensures var next := OneTurn(t, env, s).next;
            && next.step == s.step + 1
            && |next.messages| == |s.messages| + 2 && s.messages <= next.messages
            && Answers(next.messages[|s.messages|], next.messages[|s.messages| + 1])
  {
    var resp := env.client(s.step, RequestOf(t, s.messages)).value;
    ResultsMatch(t, env, resp.toolUses, s.files);
    MessageAsks(resp);
    hide AllTools, AskedIds, AssistantMessage, RequestOf;
  }

  /** The history grown by a continuing turn. */
  lemma NextIsGood(t: Task, env: Env, s: Loop)
    requires GoodHistory(s.messages, s.step) && OneTurn(t, env, s).signal.Continue?
    ensures var next := OneTurn(t, env, s).next;
            && next.step == s.step + 1 && s.messages <= next.messages
            && GoodHistory(next.messages, next.step)
  {
    TurnExtends(t, env, s);
    hide OneTurn, Answers;
    var next := OneTurn(t, env, s).next;
    forall k | 0 <= k < next.step ensures Answers(next.messages[2 * k + 1], next.messages[2 * k + 2]) {
      if k < s.step { assert Answers(s.messages[2 * k + 1], s.messages[2 * k + 2]); }
    }
  }

  lemma {:induction false} HistoriesGood(t: Task, env: Env, s: Loop, i: nat, j: nat)
    requires GoodHistory(s.messages, s.step)
    requires i <= j < |Histories(t, env, s)|
    ensures GoodHistory(Histories(t, env, s)[j], s.step + j)
    ensures Histories(t, env, s)[i] <= Histories(t, env, s)[j]
    ensures s.messages <= Histories(t, env, s)[i]
    decreases MaxSteps(t) - s.step
  {
    hide OneTurn, GoodHistory;
    if j > 0 {
      NextIsGood(t, env, s);
      HistoriesGood(t, env, OneTurn(t, env, s).next, if i == 0 then 0 else i - 1, j - 1);
    }
  }

  // ---- The histories are the ones in the trace ----

  /** The request hashes logged by llm_call_start, in order. */
  function LoggedHashes(notes: seq<Note>): seq<string>
    decreases notes
  {
    if notes == [] then []
    else (if notes[0].body.LlmStart? then [notes[0].body.requestHash] else []) + LoggedHashes(notes[1..])
  }

  lemma {:induction false} HashesConcat(a: seq<Note>, b: seq<Note>)
    ensures LoggedHashes(a + b) == LoggedHashes(a) + LoggedHashes(b)
    decreases a
  {
    if a == [] {
      assert a + b == b;
    } else {
      var first := if a[0].body.LlmStart? then [a[0].body.requestHash] else [];
      assert (a + b)[0] == a[0] && (a + b)[1..] == a[1..] + b;
      HashesConcat(a[1..], b);
      assert LoggedHashes(a + b) == first + (LoggedHashes(a[1..]) + LoggedHashes(b));
      assert LoggedHashes(a) == first + LoggedHashes(a[1..]);
    }
  }

  function HashesOf(t: Task, env: Env, histories: seq<seq<Message>>): seq<string> {
    seq(|histories|, i requires 0 <= i < |histories| => env.hashRequest(RequestOf(t, histories[i])))
  }

  predicate NoCall(a: Action) {
    match a
    case Emit(b) => !b.LlmStart?
    case Timed(_, mutation, end) => (mutation.Some? ==> !mutation.value.LlmStart?) && !end.LlmStart?
    case _ => true
  }

  lemma {:induction false} NoCallNoHash(actions: seq<Action>, step: int)
    requires forall i :: 0 <= i < |actions| ==> NoCall(actions[i])
    ensures LoggedHashes(Notes(actions, step)) == []
    decreases actions
  {
    if actions != [] {
      var notes := Notes1(actions[0], step);
      NoCallNoHash(actions[1..], StepAfter(actions[0], step));
      HashesConcat(notes, Notes(actions[1..], StepAfter(actions[0], step)));
      if notes != [] { assert notes[1..] == [] || (|notes| == 2 && notes[1..][1..] == []); }
    }
  }

  predicate AllNoCall(actions: seq<Action>) {
    forall i :: 0 <= i < |actions| ==> NoCall(actions[i])
  }

  lemma OneToolNoCall(t: Task, env: Env, use: ToolUse, files: Workspace)
    ensures AllNoCall(OneTool(t, env, use, files).actions)
  {
    hide Call, Known;
    Replay.CallMutates(env.host, use.name, use.input, files);
  }

  lemma {:induction false} ToolsNoCall(t: Task, env: Env, uses: seq<ToolUse>, files: Workspace)
    ensures AllNoCall(AllTools(t, env, uses, files).actions)
    decreases uses
  {
    hide OneTool, NoCall;
    if uses != [] {
      OneToolNoCall(t, env, uses[0], files);
      ToolsNoCall(t, env, uses[1..], OneTool(t, env, uses[0], files).files);
    }
  }

  /** Every turn logs exactly the hash of the request it sends. */
  lemma TurnHash(t: Task, env: Env, s: Loop, step: int)
    ensures LoggedHashes(Notes(OneTurn(t, env, s).actions, step)) == [env.hashRequest(RequestOf(t, s.messages))]
  {
    var o, ask, after := Opening(t, env, s), AskAction(t, env, s), AfterAsk(t, env, s);
    var rest := [ask] + after;
    assert OneTurn(t, env, s).actions == o + rest;
    var answer := env.client(s.step, RequestOf(t, s.messages));
    if answer.Returns? { ToolsNoCall(t, env, answer.value.toolUses, s.files); }
    hide AllTools, OneTurn;
    assert AllNoCall(rest);
    NoCallNoHash(rest, LastStep(o, step));
    NotesConcat(o, rest, step);
    HashesConcat(Notes(o, step), Notes(rest, LastStep(o, step)));
    OpeningHash(t, env, s, step);
  }

  lemma OpeningHash(t: Task, env: Env, s: Loop, step: int)
    ensures LoggedHashes(Notes(Opening(t, env, s), step)) == [env.hashRequest(RequestOf(t, s.messages))]
  {
    var o := Opening(t, env, s);
    hide Notes, LoggedHashes, RequestOf;
    assert o == [o[0]] + ([o[1]] + [o[2]]);
    NotesCons(o[0], [o[1]] + [o[2]], step);
    NotesCons(o[1], [o[2]], s.step);
    NotesOne(o[2], s.step);
    var a, b := Note(s.step, o[1].body), Note(s.step, o[2].body);
    assert Notes(o, step) == [] + ([a] + [b]) == [a] + [b];
    HashesConcat([a], [b]);
    OneHash(a);
    OneHash(b);
  }

  lemma OneHash(n: Note)
    ensures LoggedHashes([n]) == if n.body.LlmStart? then [n.body.requestHash] else []
  {
    assert [n][1..] == [];
    assert LoggedHashes([]) == [];
  }

  /** The hash of a turn and those of what follows it. */
  lemma HashesAfterTurn(t: Task, env: Env, s: Loop, step: int, rest: seq<Action>, tail: seq<seq<Message>>)
    requires LoggedHashes(Notes(rest, LastStep(OneTurn(t, env, s).actions, step))) == HashesOf(t, env, tail)
    ensures LoggedHashes(Notes(OneTurn(t, env, s).actions + rest, step)) == HashesOf(t, env, [s.messages] + tail)
  {
    var actions := OneTurn(t, env, s).actions;
    TurnHash(t, env, s, step);
    hide OneTurn, Notes, LastStep, LoggedHashes, RequestOf;
    NotesConcat(actions, rest, step);
    HashesConcat(Notes(actions, step), Notes(rest, LastStep(actions, step)));
    assert HashesOf(t, env, [s.messages] + tail) == [env.hashRequest(RequestOf(t, s.messages))] + HashesOf(t, env, tail);
  }

  lemma {:induction false} FromHashes(t: Task, env: Env, s: Loop, step: int)
    ensures LoggedHashes(Notes(From(t, env, s), step)) == HashesOf(t, env, Histories(t, env, s))
    decreases MaxSteps(t) - s.step
  {
    hide Notes, LastStep, LoggedHashes, DoneEvent, OneTurn, HashesOf;
    DoneNoCall();
    NoHashes(t, env);
    if s.step >= MaxSteps(t) {
      NoCallNoHash(From(t, env, s), step);
    } else {
      var turn := OneTurn(t, env, s);
      var k := LastStep(turn.actions, step);
      match turn.signal
      case Continue =>
        TurnExtends(t, env, s);
        FromHashes(t, env, turn.next, k);
        HashesAfterTurn(t, env, s, step, From(t, env, turn.next), Histories(t, env, turn.next));
      case Finish(o) =>
        var rest := [Emit(DoneEvent(turn.next, o))];
        NoCallNoHash(rest, k);
        HashesAfterTurn(t, env, s, step, rest, []);
      case Crash(kind, message) =>
        var rest := [Emit(AgentError(kind, message)), Emit(DoneEvent(s, "failed"))];
        NoCallNoHash(rest, k);
        HashesAfterTurn(t, env, s, step, rest, []);
    }
  }

  lemma NoHashes(t: Task, env: Env)
    ensures HashesOf(t, env, []) == []
  {
  }

  lemma DoneNoCall()
    ensures forall s, o :: NoCall(Emit(DoneEvent(s, o)))
  {
  }

  /** For every run: llm_call_start number k logs the hash of a request whose history is k pairs of
      turns after the prompt, in which every tool use of an earlier assistant turn is answered
      in the next user turn, in order and under its id; later histories extend earlier ones. */
  lemma HistoryOfEveryCall(t: Task, env: Env, files: Workspace, i: nat, j: nat)
    requires i <= j < |Histories(t, env, Start(t, files))|
    ensures var hs := Histories(t, env, Start(t, files));
            && LoggedHashes(Story(t, env, files)) == HashesOf(t, env, hs)
            && GoodHistory(hs[j], j)
            && hs[i] <= hs[j]
  {
    var s, opening := Start(t, files), [SetStep(0), Emit(StartEvent(t))];
    HistoriesGood(t, env, s, i, j);
    NoCallNoHash(opening, 0);
    FromHashes(t, env, s, LastStep(opening, 0));
    hide From, Histories, Notes, LastStep, GoodHistory;
    NotesConcat(opening, From(t, env, s), 0);
    HashesConcat(Notes(opening, 0), Notes(From(t, env, s), LastStep(opening, 0)));
  }

  /** No two LLM calls of a run send the same request, so two equal request hashes in one trace
      would be a collision of the hash function. */
  lemma RequestsAreDistinct(t: Task, env: Env, files: Workspace, i: nat, j: nat)
    requires i < j < |Histories(t, env, Start(t, files))|
    ensures var hs := Histories(t, env, Start(t, files));
            var hashes := LoggedHashes(Story(t, env, files));
            && RequestOf(t, hs[i]) != RequestOf(t, hs[j])
            && |hashes| == |hs|
            && hashes[i] == env.hashRequest(RequestOf(t, hs[i])) && hashes[j] == env.hashRequest(RequestOf(t, hs[j]))
  {
    HistoryOfEveryCall(t, env, files, i, i);
    HistoryOfEveryCall(t, env, files, i, j);
    hide Histories, Story, LoggedHashes;
    var hs := Histories(t, env, Start(t, files));
    assert |hs[i]| == 2 * i + 1 && |hs[j]| == 2 * j + 1;
  }
}
