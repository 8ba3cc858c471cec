/** The chat-turn streamer of fl-stream-gradio.py: `generate_response`, which
    turns the conversation history and the model's streamed reply into a
    sequence of UI snapshots, and `clear_fields`, which resets the chat. */
module Streamer {
  import opened PyStr

  datatype Option<T> = None | Some(value: T)

  // ---------------------------------------------------------------------------
  // History and the message list sent to the model
  // ---------------------------------------------------------------------------

  /** One `(user_turn, assistant_turn)` pair of the history. */
  datatype Turn = Turn(prompt: string, reply: string)

  /** The conversation history: the mutable list that Gradio keeps as the
      chat state and hands to `generate_response`, which appends to it and
      overwrites its last entry in place. */
  class History {
    var turns: seq<Turn>

    constructor (initial: seq<Turn>)
      ensures turns == initial
    {
      turns := initial;
    }
  }

  datatype Role = User | Assistant

  /** One `{"role": ..., "content": ...}` entry of the request. */
  datatype Message = Message(role: Role, content: string)

  function UserMessage(prompt: string): Message {
    Message(User, "User: " + prompt)
  }

  function AssistantMessage(reply: string): Message {
    Message(Assistant, "Assistant: " + reply)
  }

  /** The messages one history pair contributes: its user entry, then its
      assistant entry unless the reply is empty. */
  function TurnMessages(t: Turn): seq<Message> {
    [UserMessage(t.prompt)] + (if t.reply != "" then [AssistantMessage(t.reply)] else [])
  }

  /** The messages the whole history contributes, in history order. */
  function Projection(h: seq<Turn>): seq<Message> {
    if h == [] then [] else Projection(h[..|h| - 1]) + TurnMessages(h[|h| - 1])
  }

  /** The prompts of the history, in order. */
  function Prompts(h: seq<Turn>): (r: seq<string>)
    ensures |r| == |h|
    ensures forall i :: 0 <= i < |h| ==> r[i] == h[i].prompt
  {
    if h == [] then [] else Prompts(h[..|h| - 1]) + [h[|h| - 1].prompt]
  }

  /** The non-empty replies of the history, in order. */
  function NonEmptyReplies(h: seq<Turn>): (r: seq<string>)
    ensures |r| <= |h|
    ensures forall i :: 0 <= i < |r| ==> r[i] != ""
  {
    if h == [] then []
    else NonEmptyReplies(h[..|h| - 1]) + (if h[|h| - 1].reply != "" then [h[|h| - 1].reply] else [])
  }

  /** Each string of `xs` with `tag` in front. */
  function Labelled(tag: string, xs: seq<string>): (r: seq<string>)
    ensures |r| == |xs|
    ensures forall i :: 0 <= i < |xs| ==> r[i] == tag + xs[i]
  {
    if xs == [] then [] else Labelled(tag, xs[..|xs| - 1]) + [tag + xs[|xs| - 1]]
  }

  /** The contents of the messages with the given role, in order. */
  function ContentsWithRole(ms: seq<Message>, role: Role): seq<string> {
    if ms == [] then []
    else ContentsWithRole(ms[..|ms| - 1], role) + (if ms[|ms| - 1].role == role then [ms[|ms| - 1].content] else [])
  }

  lemma {:induction false} ContentsWithRoleAppend(a: seq<Message>, b: seq<Message>, role: Role)
    ensures ContentsWithRole(a + b, role) == ContentsWithRole(a, role) + ContentsWithRole(b, role)
  {
    if b != [] {
      assert (a + b)[..|a + b| - 1] == a + b[..|b| - 1];
      ContentsWithRoleAppend(a, b[..|b| - 1], role);
    } else {
      assert a + b == a;
    }
  }

  lemma {:induction false} TurnContents(t: Turn)
    ensures ContentsWithRole(TurnMessages(t), User) == ["User: " + t.prompt]
    ensures ContentsWithRole(TurnMessages(t), Assistant) == if t.reply != "" then ["Assistant: " + t.reply] else []
  {
    var u := [UserMessage(t.prompt)];
    assert u[..0] == [];
    if t.reply != "" {
      ContentsWithRoleAppend(u, [AssistantMessage(t.reply)], User);
      ContentsWithRoleAppend(u, [AssistantMessage(t.reply)], Assistant);
      assert [AssistantMessage(t.reply)][..0] == [];
    } else {
      assert TurnMessages(t) == u;
    }
  }

  lemma LabelledAppend(tag: string, xs: seq<string>, ys: seq<string>)
    ensures Labelled(tag, xs + ys) == Labelled(tag, xs) + Labelled(tag, ys)
  {
    var l, r := Labelled(tag, xs + ys), Labelled(tag, xs) + Labelled(tag, ys);
    forall i | 0 <= i < |l| ensures l[i] == r[i] {
      if i < |xs| {
        assert (xs + ys)[i] == xs[i];
      } else {
        assert (xs + ys)[i] == ys[i - |xs|];
      }
    }
  }

  /** The projected history has one entry per pair plus one per non-empty
      reply. */
  lemma {:induction false} ProjectionLength(h: seq<Turn>)
    ensures |Projection(h)| == |h| + |NonEmptyReplies(h)|
  {
    if h != [] {
      ProjectionLength(h[..|h| - 1]);
    }
  }

  /** The `user` entries of the projected history are the history's prompts,
      each labelled "User: ", in order. */
  lemma {:induction false} ProjectionUsers(h: seq<Turn>)
    ensures ContentsWithRole(Projection(h), User) == Labelled("User: ", Prompts(h))
  {
    if h != [] {
      var init, t := h[..|h| - 1], h[|h| - 1];
      ProjectionUsers(init);
      ContentsWithRoleAppend(Projection(init), TurnMessages(t), User);
      TurnContents(t);
      LabelledAppend("User: ", Prompts(init), [t.prompt]);
    }
  }

  /** The `assistant` entries of the projected history are exactly its
      non-empty replies, each labelled "Assistant: ", in order: a pair whose
      reply is empty contributes none. */
  lemma {:induction false} ProjectionAssistants(h: seq<Turn>)
    ensures ContentsWithRole(Projection(h), Assistant) == Labelled("Assistant: ", NonEmptyReplies(h))
  {
    if h != [] {
      var init, t := h[..|h| - 1], h[|h| - 1];
      ProjectionAssistants(init);
      ContentsWithRoleAppend(Projection(init), TurnMessages(t), Assistant);
      TurnContents(t);
      LabelledAppend("Assistant: ", NonEmptyReplies(init), if t.reply != "" then [t.reply] else []);
    }
  }

  /** The message list of a request: the projected history, then the new
      prompt as a `user` entry. Built from the history as it was before the
      new turn is appended, so the prompt is the last entry and appears
      there once. */
  method BuildMessages(history: seq<Turn>, userPrompt: string) returns (messages: seq<Message>)
    ensures messages == Projection(history) + [UserMessage(userPrompt)]
    ensures |messages| == |history| + |NonEmptyReplies(history)| + 1
    ensures messages[|messages| - 1] == Message(User, "User: " + userPrompt)
    ensures ContentsWithRole(messages, User) == Labelled("User: ", Prompts(history) + [userPrompt])
    ensures ContentsWithRole(messages, Assistant) == Labelled("Assistant: ", NonEmptyReplies(history))
  {
    messages := [];
    for i := 0 to |history|
      invariant messages == Projection(history[..i])
    {
      var t := history[i];
      messages := messages + [UserMessage(t.prompt)];
      if t.reply != "" {
        messages := messages + [AssistantMessage(t.reply)];
      }
      assert history[..i + 1][..i] == history[..i];
    }
    assert history[..|history|] == history;
    ghost var projected := messages;
    messages := messages + [UserMessage(userPrompt)];
    ProjectionLength(history);
    ProjectionUsers(history);
    ProjectionAssistants(history);
    ContentsWithRoleAppend(projected, [UserMessage(userPrompt)], User);
    ContentsWithRoleAppend(projected, [UserMessage(userPrompt)], Assistant);
    assert [UserMessage(userPrompt)][..0] == [];
    LabelledAppend("User: ", Prompts(history), [userPrompt]);
  }

  // ---------------------------------------------------------------------------
  // The streamed reply
  // ---------------------------------------------------------------------------

  /** `chunk.choices[0].delta.content`: a delta may be missing, and so may
      its content. */
  datatype Delta = Delta(content: Option<string>)
  datatype Chunk = Chunk(delta: Option<Delta>)

  /** The text a chunk carries; "" when the delta or its content is missing,
      which the streamer treats the same as empty content. */
  function Content(c: Chunk): string {
    match c.delta
    case None => ""
    case Some(d) => match d.content
      case None => ""
      case Some(s) => s
  }

  /** The loop state of `generate_response`: `partial_answer`, `first_chunk`,
      and the replies shown so far, one per snapshot the loop yielded. */
  datatype Progress = Progress(partial: string, first: bool, shown: seq<string>)

  const Start := Progress("", true, [])

  /** One iteration of the `for chunk in stream` loop. */
  function Step(p: Progress, c: Chunk): Progress {
    if Content(c) == "" then p
    else
      var piece := if p.first then LStrip(Content(c)) else Content(c);
      Progress(p.partial + piece, false, p.shown + [p.partial + piece])
  }

  /** The loop state after consuming `cs`. */
  function Run(cs: seq<Chunk>): Progress {
    if cs == [] then Start else Step(Run(cs[..|cs| - 1]), cs[|cs| - 1])
  }

  lemma {:induction false} RunAppend(cs: seq<Chunk>, c: Chunk)
    ensures Run(cs + [c]) == Step(Run(cs), c)
  {
    assert (cs + [c])[..|cs|] == cs;
  }

  lemma {:induction false} RunStep(cs: seq<Chunk>, i: nat)
    requires i < |cs|
    ensures Run(cs[..i + 1]) == Step(Run(cs[..i]), cs[i])
  {
    assert cs[..i + 1] == cs[..i] + [cs[i]];
    RunAppend(cs[..i], cs[i]);
  }

  /** The non-empty fragments of the stream, in order. */
  function Fragments(cs: seq<Chunk>): (r: seq<string>)
    ensures |r| <= |cs|
    ensures forall i :: 0 <= i < |r| ==> r[i] != ""
  {
    if cs == [] then []
    else Fragments(cs[..|cs| - 1]) + (if Content(cs[|cs| - 1]) != "" then [Content(cs[|cs| - 1])] else [])
  }

  lemma {:induction false} FragmentsAppend(cs: seq<Chunk>, c: Chunk)
    ensures Fragments(cs + [c]) == Fragments(cs) + (if Content(c) != "" then [Content(c)] else [])
  {
    assert (cs + [c])[..|cs|] == cs;
  }

  function Concat(ts: seq<string>): string {
    if ts == [] then "" else Concat(ts[..|ts| - 1]) + ts[|ts| - 1]
  }

  lemma {:induction false} ConcatAppend(ts: seq<string>, t: string)
    ensures Concat(ts + [t]) == Concat(ts) + t
  {
    assert (ts + [t])[..|ts|] == ts;
  }

  /** The reply the fragments `f1, ..., fn` should produce:
      `f1.lstrip() + f2 + ... + fn`. */
  function ExpectedReply(ts: seq<string>): string {
    if ts == [] then "" else LStrip(ts[0]) + Concat(ts[1..])
  }

  lemma {:induction false} ExpectedReplyAppend(ts: seq<string>, t: string)
    ensures ExpectedReply(ts + [t]) == if ts == [] then LStrip(t) else ExpectedReply(ts) + t
  {
    if ts != [] {
      assert (ts + [t])[1..] == ts[1..] + [t];
      ConcatAppend(ts[1..], t);
    } else {
      assert [] + [t] == [t];
      assert [t][1..] == [];
    }
  }

  /** The replies the reference shows: one per fragment, the reference reply
      of the fragments received so far. */
  function ExpectedShown(ts: seq<string>): (r: seq<string>)
    ensures |r| == |ts|
  {
    if ts == [] then [] else ExpectedShown(ts[..|ts| - 1]) + [ExpectedReply(ts)]
  }

  lemma {:induction false} ExpectedShownAt(ts: seq<string>, k: nat)
    requires k < |ts|
    ensures ExpectedShown(ts)[k] == ExpectedReply(ts[..k + 1])
  {
    if k < |ts| - 1 {
      ExpectedShownAt(ts[..|ts| - 1], k);
      assert ts[..|ts| - 1][..k + 1] == ts[..k + 1];
    } else {
      assert ts[..k + 1] == ts;
    }
  }

  lemma {:induction false} ExpectedShownAppend(ts: seq<string>, t: string)
    ensures ExpectedShown(ts + [t]) == ExpectedShown(ts) + [ExpectedReply(ts + [t])]
  {
    assert (ts + [t])[..|ts|] == ts;
  }

  /** The loop computes the reference reply: after any prefix of the stream,
      `partial_answer` is the first non-empty fragment left-stripped followed
      by the later ones verbatim, and `first_chunk` is still set exactly when
      no non-empty fragment has arrived (an all-whitespace first fragment
      clears it too). */
  lemma {:induction false} RunMatchesReference(cs: seq<Chunk>)
    ensures Run(cs).partial == ExpectedReply(Fragments(cs))
    ensures Run(cs).first <==> Fragments(cs) == []
  {
    if cs != [] {
      var init, c := cs[..|cs| - 1], cs[|cs| - 1];
      assert cs == init + [c];
      RunMatchesReference(init);
      RunAppend(init, c);
      FragmentsAppend(init, c);
      var fs, x := Fragments(init), Content(c);
      if x != "" {
        assert Fragments(cs) == fs + [x];
        ExpectedReplyAppend(fs, x);
        if fs == [] {
          assert "" + LStrip(x) == LStrip(x);
        }
      } else {
        assert Fragments(cs) == fs;
        assert Run(cs) == Run(init);
      }
    }
  }

  /** One reply is shown per non-empty fragment: the reference reply of the
      fragments up to it. */
  lemma {:induction false} RunShownMatchesReference(cs: seq<Chunk>)
    ensures Run(cs).shown == ExpectedShown(Fragments(cs))
  {
    if cs != [] {
      var init, c := cs[..|cs| - 1], cs[|cs| - 1];
      assert cs == init + [c];
      RunShownMatchesReference(init);
      RunAppend(init, c);
      FragmentsAppend(init, c);
      var fs, x := Fragments(init), Content(c);
      if x != "" {
        assert Fragments(cs) == fs + [x];
        RunMatchesReference(cs);
        ExpectedShownAppend(fs, x);
      } else {
        assert Fragments(cs) == fs;
        assert Run(cs) == Run(init);
      }
    }
  }

  /** The k-th reply shown is the reference reply of the first k non-empty
      fragments. */
  lemma ShownMatchesReference(cs: seq<Chunk>)
    ensures |Run(cs).shown| == |Fragments(cs)|
    ensures forall k :: 0 <= k < |Run(cs).shown| ==> Run(cs).shown[k] == ExpectedReply(Fragments(cs)[..k + 1])
  {
    RunShownMatchesReference(cs);
    forall k | 0 <= k < |Run(cs).shown| ensures Run(cs).shown[k] == ExpectedReply(Fragments(cs)[..k + 1]) {
      ExpectedShownAt(Fragments(cs), k);
    }
  }

  /** Every reply shown is a prefix of every later one and of the current
      partial answer, and the last one shown is the current partial answer. */
  lemma {:induction false} RunRepliesGrow(cs: seq<Chunk>)
    ensures forall i, j :: 0 <= i <= j < |Run(cs).shown| ==> Run(cs).shown[i] <= Run(cs).shown[j]
    ensures forall i :: 0 <= i < |Run(cs).shown| ==> Run(cs).shown[i] <= Run(cs).partial
    ensures Run(cs).shown != [] ==> Run(cs).shown[|Run(cs).shown| - 1] == Run(cs).partial
    ensures Run(cs).shown == [] ==> Run(cs).partial == ""
  {
    if cs != [] {
      var init, c := cs[..|cs| - 1], cs[|cs| - 1];
      assert cs == init + [c];
      RunRepliesGrow(init);
      RunAppend(init, c);
      var p := Run(init);
      if Content(c) != "" {
        var piece := if p.first then LStrip(Content(c)) else Content(c);
        var q := p.partial + piece;
        assert Run(cs) == Progress(q, false, p.shown + [q]);
        assert p.partial <= q;
        forall i | 0 <= i < |p.shown| ensures p.shown[i] <= q {
        }
      }
    }
  }

  /** A chunk without content changes nothing, wherever it occurs in the
      stream: no reply is shown for it, `partial_answer` is unchanged and
      `first_chunk` is not cleared. */
  lemma {:induction false} EmptyChunkIgnored(before: seq<Chunk>, c: Chunk, after: seq<Chunk>)
    requires Content(c) == ""
    ensures Run(before + [c] + after) == Run(before + after)
  {
    if after == [] {
      assert before + [c] + after == before + [c];
      assert before + after == before;
      RunAppend(before, c);
    } else {
      var init, last := after[..|after| - 1], after[|after| - 1];
      EmptyChunkIgnored(before, c, init);
      assert before + [c] + after == (before + [c] + init) + [last];
      assert before + after == (before + init) + [last];
      RunAppend(before + [c] + init, last);
      RunAppend(before + init, last);
    }
  }

  /** When the first non-empty fragment is all whitespace, the reply is the
      later fragments verbatim: stripping is not applied to the next one, so
      its leading whitespace is kept. */
  lemma WhitespaceFirstFragment(cs: seq<Chunk>)
    requires Fragments(cs) != [] && LStrip(Fragments(cs)[0]) == ""
    ensures Run(cs).partial == Concat(Fragments(cs)[1..])
    ensures !Run(cs).first
  {
    RunMatchesReference(cs);
  }

  /** The first reply shown has no leading whitespace. */
  lemma FirstShownReplyStripped(cs: seq<Chunk>)
    requires Fragments(cs) != []
    ensures Run(cs).shown != []
    ensures Run(cs).shown[0] == LStrip(Fragments(cs)[0])
    ensures Run(cs).shown[0] == [] || !IsSpace(Run(cs).shown[0][0])
  {
    RunShownMatchesReference(cs);
    ExpectedShownAt(Fragments(cs), 0);
    assert Fragments(cs)[..1] == [Fragments(cs)[0]];
  }

  // ---------------------------------------------------------------------------
  // UI snapshots
  // ---------------------------------------------------------------------------

  /** One yielded tuple: the chatbot content, the input box value, whether the
      Submit and Clear buttons are interactive, and the chat state. */
  datatype Snapshot = Snapshot(
    chatbot: seq<Turn>,
    inputValue: string,
    submitInteractive: bool,
    clearInteractive: bool,
    state: seq<Turn>)

  /** What every yield sends: the history as chatbot and as state, the input
      cleared, both buttons set alike. */
  function View(h: seq<Turn>, interactive: bool): Snapshot {
    Snapshot(h, "", interactive, interactive, h)
  }

  /** The snapshots yielded inside the loop, one per reply shown. */
  function Busy(h0: seq<Turn>, prompt: string, shown: seq<string>): (r: seq<Snapshot>)
    ensures |r| == |shown|
  {
    if shown == [] then []
    else Busy(h0, prompt, shown[..|shown| - 1]) + [View(h0 + [Turn(prompt, shown[|shown| - 1])], false)]
  }

  lemma {:induction false} BusyAt(h0: seq<Turn>, prompt: string, shown: seq<string>, k: nat)
    requires k < |shown|
    ensures Busy(h0, prompt, shown)[k] == View(h0 + [Turn(prompt, shown[k])], false)
  {
    if k < |shown| - 1 {
      BusyAt(h0, prompt, shown[..|shown| - 1], k);
    }
  }

  lemma {:induction false} BusyAppend(h0: seq<Turn>, prompt: string, shown: seq<string>, reply: string)
    ensures Busy(h0, prompt, shown + [reply]) == Busy(h0, prompt, shown) + [View(h0 + [Turn(prompt, reply)], false)]
  {
    assert (shown + [reply])[..|shown|] == shown;
  }

  /** All snapshots of one call: one with the new empty turn and the buttons
      disabled, one per reply shown, and a last one with the buttons enabled
      again. */
  function Snapshots(h0: seq<Turn>, prompt: string, cs: seq<Chunk>): (r: seq<Snapshot>)
    ensures |r| == |Run(cs).shown| + 2
  {
    [View(h0 + [Turn(prompt, "")], false)]
    + Busy(h0, prompt, Run(cs).shown)
    + [View(h0 + [Turn(prompt, Run(cs).partial)], true)]
  }

  /** The reply of the turn in flight, as a snapshot shows it. */
  function InFlightReply(s: Snapshot): string {
    if s.chatbot == [] then "" else s.chatbot[|s.chatbot| - 1].reply
  }

  lemma {:induction false} SnapshotAt(h0: seq<Turn>, prompt: string, cs: seq<Chunk>, i: nat)
    requires i < |Snapshots(h0, prompt, cs)|
    ensures Snapshots(h0, prompt, cs)[i] ==
      if i == 0 then View(h0 + [Turn(prompt, "")], false)
      else if i <= |Run(cs).shown| then View(h0 + [Turn(prompt, Run(cs).shown[i - 1])], false)
      else View(h0 + [Turn(prompt, Run(cs).partial)], true)
  {
    if 0 < i <= |Run(cs).shown| {
      BusyAt(h0, prompt, Run(cs).shown, i - 1);
    }
  }

  /** There are two more snapshots than non-empty fragments. */
  lemma SnapshotCount(h0: seq<Turn>, prompt: string, cs: seq<Chunk>)
    ensures |Snapshots(h0, prompt, cs)| == |Fragments(cs)| + 2
  {
    RunShownMatchesReference(cs);
  }

  /** Every snapshot clears the input and sends the same history as
      chatbot content and as state; the buttons are interactive in the last
      snapshot and in no other. */
  lemma SnapshotFlags(h0: seq<Turn>, prompt: string, cs: seq<Chunk>)
    ensures forall i :: 0 <= i < |Snapshots(h0, prompt, cs)| ==>
      var s := Snapshots(h0, prompt, cs)[i];
      && s.inputValue == ""
      && s.chatbot == s.state
      && (s.submitInteractive <==> i == |Snapshots(h0, prompt, cs)| - 1)
      && (s.clearInteractive <==> i == |Snapshots(h0, prompt, cs)| - 1)
  {
    forall i | 0 <= i < |Snapshots(h0, prompt, cs)|
      ensures var s := Snapshots(h0, prompt, cs)[i];
        && s.inputValue == ""
        && s.chatbot == s.state
        && (s.submitInteractive <==> i == |Snapshots(h0, prompt, cs)| - 1)
        && (s.clearInteractive <==> i == |Snapshots(h0, prompt, cs)| - 1)
    {
      SnapshotAt(h0, prompt, cs, i);
    }
  }

  /** Every snapshot shows the earlier history unchanged followed by one turn
      for the new prompt: only the last entry is ever written. */
  lemma SnapshotHistoryShape(h0: seq<Turn>, prompt: string, cs: seq<Chunk>)
    ensures forall i :: 0 <= i < |Snapshots(h0, prompt, cs)| ==>
      var h := Snapshots(h0, prompt, cs)[i].chatbot;
      |h| == |h0| + 1 && h[..|h0|] == h0 && h[|h0|].prompt == prompt
  {
    forall i | 0 <= i < |Snapshots(h0, prompt, cs)|
      ensures var h := Snapshots(h0, prompt, cs)[i].chatbot;
        |h| == |h0| + 1 && h[..|h0|] == h0 && h[|h0|].prompt == prompt
    {
      SnapshotAt(h0, prompt, cs, i);
    }
  }

  /** The first snapshot is sent before any fragment: the new turn with an
      empty reply, the input cleared and both buttons disabled. */
  lemma FirstSnapshot(h0: seq<Turn>, prompt: string, cs: seq<Chunk>)
    ensures Snapshots(h0, prompt, cs)[0] == Snapshot(h0 + [Turn(prompt, "")], "", false, false, h0 + [Turn(prompt, "")])
  {
  }

  /** The last snapshot carries the reference reply with both buttons
      enabled. */
  lemma FinalSnapshot(h0: seq<Turn>, prompt: string, cs: seq<Chunk>)
    ensures var ss := Snapshots(h0, prompt, cs);
      ss[|ss| - 1] == Snapshot(h0 + [Turn(prompt, ExpectedReply(Fragments(cs)))], "", true, true,
                               h0 + [Turn(prompt, ExpectedReply(Fragments(cs)))])
  {
    RunMatchesReference(cs);
    SnapshotAt(h0, prompt, cs, |Run(cs).shown| + 1);
  }

  /** The last snapshot repeats the history of the one before it, which still
      has both buttons disabled: only the buttons change at the end. */
  lemma FinalRepeatsPrevious(h0: seq<Turn>, prompt: string, cs: seq<Chunk>)
    ensures var ss := Snapshots(h0, prompt, cs);
      && ss[|ss| - 1].chatbot == ss[|ss| - 2].chatbot
      && !ss[|ss| - 2].submitInteractive && !ss[|ss| - 2].clearInteractive
  {
    RunRepliesGrow(cs);
    var n := |Run(cs).shown|;
    SnapshotAt(h0, prompt, cs, n);
    SnapshotAt(h0, prompt, cs, n + 1);
  }

  lemma {:induction false} InFlightAt(h0: seq<Turn>, prompt: string, cs: seq<Chunk>, i: nat)
    requires i < |Snapshots(h0, prompt, cs)|
    ensures InFlightReply(Snapshots(h0, prompt, cs)[i]) ==
      if i == 0 then ""
      else if i <= |Run(cs).shown| then Run(cs).shown[i - 1]
      else Run(cs).partial
  {
    SnapshotAt(h0, prompt, cs, i);
  }

  /** The reply in flight only grows: in each snapshot it is a prefix of the
      reply in every later one. */
  lemma SnapshotRepliesGrow(h0: seq<Turn>, prompt: string, cs: seq<Chunk>)
    ensures forall i, j :: 0 <= i <= j < |Snapshots(h0, prompt, cs)| ==>
      InFlightReply(Snapshots(h0, prompt, cs)[i]) <= InFlightReply(Snapshots(h0, prompt, cs)[j])
  {
    RunRepliesGrow(cs);
    var ss := Snapshots(h0, prompt, cs);
    forall i, j | 0 <= i <= j < |ss| ensures InFlightReply(ss[i]) <= InFlightReply(ss[j]) {
      InFlightAt(h0, prompt, cs, i);
      InFlightAt(h0, prompt, cs, j);
    }
  }

  /** The snapshot yielded for the k-th non-empty fragment shows the
      reference reply of the first k fragments. */
  lemma SnapshotReplyAt(h0: seq<Turn>, prompt: string, cs: seq<Chunk>)
    ensures |Snapshots(h0, prompt, cs)| == |Fragments(cs)| + 2
    ensures forall k :: 1 <= k <= |Fragments(cs)| ==>
      InFlightReply(Snapshots(h0, prompt, cs)[k]) == ExpectedReply(Fragments(cs)[..k])
  {
    ShownMatchesReference(cs);
    var ss := Snapshots(h0, prompt, cs);
    forall k | 1 <= k <= |Fragments(cs)| ensures InFlightReply(ss[k]) == ExpectedReply(Fragments(cs)[..k]) {
      InFlightAt(h0, prompt, cs, k);
    }
  }

  // ---------------------------------------------------------------------------
  // The two handlers
  // ---------------------------------------------------------------------------

  /** The part of `generate_response` after the message list is built:
      appends `(user_prompt, "")` to `history`, yields, then folds the
      stream into the reply, overwriting the last history entry and yielding
      after each non-empty fragment, and yields once more with the buttons
      enabled. */
  method StreamTurn(userPrompt: string, history: History, stream: seq<Chunk>) returns (snapshots: seq<Snapshot>)
    modifies history
    ensures history.turns == old(history.turns) + [Turn(userPrompt, Run(stream).partial)]
    ensures snapshots == Snapshots(old(history.turns), userPrompt, stream)
  {
    ghost var h0 := history.turns;
    var partialAnswer, firstChunk := "", true;
    ghost var shown: seq<string> := [];
    history.turns := history.turns + [Turn(userPrompt, "")];
    snapshots := [View(history.turns, false)];
    // the streaming request is opened here; its chunks are `stream`
    for i := 0 to |stream|
      invariant Run(stream[..i]) == Progress(partialAnswer, firstChunk, shown)
      invariant history.turns == h0 + [Turn(userPrompt, partialAnswer)]
      invariant snapshots == [View(h0 + [Turn(userPrompt, "")], false)] + Busy(h0, userPrompt, shown)
    {
      RunStep(stream, i);
      var content := Content(stream[i]);
      if content != "" {
        var piece := if firstChunk then LStrip(content) else content;
        firstChunk := false;
        partialAnswer := partialAnswer + piece;
        history.turns := history.turns[|history.turns| - 1 := Turn(userPrompt, partialAnswer)];
        snapshots := snapshots + [View(history.turns, false)];
        BusyAppend(h0, userPrompt, shown, partialAnswer);
        shown := shown + [partialAnswer];
      }
    }
    assert stream[..|stream|] == stream;
    snapshots := snapshots + [View(history.turns, true)];
  }

  /** `generate_response(user_prompt, history)`. The model's answer arrives as
      `stream`; the message list handed to the request is returned as
      `messages` and is built from the history before the new turn is
      appended; the yielded tuples are returned, in order, as `snapshots`.
      Leaves `history` one turn longer, holding the finished reply. */
  method GenerateResponse(userPrompt: string, history: History, stream: seq<Chunk>)
    returns (messages: seq<Message>, snapshots: seq<Snapshot>)
    modifies history
    ensures messages == Projection(old(history.turns)) + [UserMessage(userPrompt)]
    ensures history.turns == old(history.turns) + [Turn(userPrompt, ExpectedReply(Fragments(stream)))]
    ensures snapshots == Snapshots(old(history.turns), userPrompt, stream)
  {
    messages := BuildMessages(history.turns, userPrompt);
    snapshots := StreamTurn(userPrompt, history, stream);
    RunMatchesReference(stream);
  }

  /** What `clear_fields` returns: the chatbot content, the input box value
      and the new chat state. */
  datatype Cleared = Cleared(chatbot: seq<Turn>, inputValue: string, state: seq<Turn>)

  /** `clear_fields()`: an empty chatbot, an empty input and an empty history,
      whatever came before. */
  function ClearFields(): (r: Cleared)
    ensures r.chatbot == [] && r.inputValue == "" && r.state == []
  {
    Cleared([], "", [])
  }

  /** After a clear, the next request carries the new prompt alone and every
      snapshot of it shows a one-turn history. */
  lemma SubmitAfterClear(prompt: string, cs: seq<Chunk>)
    ensures Projection(ClearFields().state) + [UserMessage(prompt)] == [Message(User, "User: " + prompt)]
    ensures forall i :: 0 <= i < |Snapshots(ClearFields().state, prompt, cs)| ==>
      |Snapshots(ClearFields().state, prompt, cs)[i].chatbot| == 1
  {
    SnapshotHistoryShape(ClearFields().state, prompt, cs);
  }

  // ---------------------------------------------------------------------------
  // Worked examples
  // ---------------------------------------------------------------------------

  function TextChunk(s: string): Chunk {
    Chunk(Some(Delta(Some(s))))
  }

  /** Fragments " Hello", " there", "!" give the reply "Hello there!". */
  lemma HelloThereExample()
    ensures Run([TextChunk(" Hello"), TextChunk(" there"), TextChunk("!")]).partial == "Hello there!"
  {
    var c1, c2, c3 := TextChunk(" Hello"), TextChunk(" there"), TextChunk("!");
    HelloThereSteps();
    RunAppend([], c1);
    RunAppend([c1], c2);
    RunAppend([c1, c2], c3);
    assert [] + [c1] == [c1];
    assert [c1] + [c2] == [c1, c2];
    assert [c1, c2] + [c3] == [c1, c2, c3];
  }

  lemma HelloThereSteps()
    ensures Step(Step(Step(Start, TextChunk(" Hello")), TextChunk(" there")), TextChunk("!")).partial == "Hello there!"
  {
    var c1, c2, c3 := TextChunk(" Hello"), TextChunk(" there"), TextChunk("!");
    StripHello();
    assert Content(c1) == " Hello" && Content(c2) == " there" && Content(c3) == "!";
    assert "" + "Hello" == "Hello";
    var p1 := Step(Start, c1);
    assert p1.partial == "Hello" && !p1.first;
    var p2 := Step(p1, c2);
    assert "Hello" + " there" == "Hello there";
    assert p2.partial == "Hello there" && !p2.first;
    assert "Hello there" + "!" == "Hello there!";
  }

  lemma StripHello()
    ensures LStrip(" Hello") == "Hello"
  {
    LStripUnique(" ", "Hello");
    assert " " + "Hello" == " Hello";
  }

  /** The first request of a session: a fresh, empty chat state, the prompt
      "hi" and a stream with no content. The request is the prompt alone and
      the chat state ends with one turn whose reply is empty. */
  method FirstTurnExample() returns (messages: seq<Message>, turns: seq<Turn>, snapshots: seq<Snapshot>)
    ensures messages == [Message(User, "User: hi")]
    ensures turns == [Turn("hi", "")]
    ensures |snapshots| == 2 && snapshots[1] == View([Turn("hi", "")], true)
  {
    var history := new History([]);
    messages, snapshots := GenerateResponse("hi", history, [Chunk(None)]);
    turns := history.turns;
    var c := Chunk(None);
    RunAppend([], c);
    assert [] + [c] == [c];
    assert "User: " + "hi" == "User: hi";
  }

  /** An immediately ending stream leaves the reply empty and re-enables the
      buttons in the second and last snapshot. */
  lemma EmptyStreamExample(h0: seq<Turn>)
    ensures Snapshots(h0, "x", []) == [View(h0 + [Turn("x", "")], false), View(h0 + [Turn("x", "")], true)]
  {
  }

  /** History `[("a", "b")]` and prompt "c" give the request
      `user "User: a"`, `assistant "Assistant: b"`, `user "User: c"`. */
  lemma TwoTurnExample()
    ensures Projection([Turn("a", "b")]) + [UserMessage("c")] ==
      [Message(User, "User: a"), Message(Assistant, "Assistant: b"), Message(User, "User: c")]
  {
    assert [Turn("a", "b")][..0] == [];
    assert "User: " + "a" == "User: a";
    assert "Assistant: " + "b" == "Assistant: b";
    assert "User: " + "c" == "User: c";
  }
}
