/**
 * `POST /api/turn_response`: the conversion of Responses-style messages to
 * Chat Completions messages, and the translator that turns the streamed
 * completion chunks into the Responses-style events the client reads.
 *
 * The translator keeps one open tool call (`currentToolCall`) and its
 * accumulated arguments (`currentToolCallArgs`) across chunks. The opening
 * chunk's argument fragment is appended a second time right after the call
 * is opened; `OpeningFragmentCountedTwice` shows it and `CallStepCorrected`
 * counts every fragment once.
 */
module TurnResponse {
  import opened Wrappers
  import opened Text

  // ---------------------------------------------------------------------------
  // Message conversion

  datatype Part = Part(text: Option<string>)

  /** A message's content: plain text or a list of parts. */
  datatype Content = Str(s: string) | Parts(parts: seq<Part>)

  datatype InputMessage = InputMessage(
    role: Option<string>,
    kind: Option<string>,
    content: Content,
    output: Option<string>,
    callId: Option<string>)

  datatype ChatMessage =
    | Chat(role: string, content: Content)
    | ToolResult(output: Option<string>, toolCallId: Option<string>)
    | Unchanged(message: InputMessage)

  /** `msg.content[0]?.text || msg.content`: the first part's text when there is one, else the content as it was. */
  function FirstText(c: Content): (r: Content)
    ensures c.Parts? && |c.parts| > 0 && Truthy(c.parts[0].text) ==> r == Str(c.parts[0].text.value)
    ensures !(c.Parts? && |c.parts| > 0 && Truthy(c.parts[0].text)) ==> r == c
  {
    match c
    case Str(_) => c
    case Parts(ps) => if |ps| > 0 && Truthy(ps[0].text) then Str(ps[0].text.value) else c
  }

  /**
   * One message in the completion API's form; a `developer` message is sent
   * as `system`. Only a message with none of the three roles that is not a
   * function output passes through as it was.
   */
  function Convert(m: InputMessage): (c: ChatMessage)
    ensures Role(c) != Some("developer")
    ensures c.Unchanged? <==> !HasChatRole(m) && m.kind != Some("function_call_output")
    ensures c.Unchanged? ==> c.message == m
    ensures c.Chat? ==> c.role in {"system", "user", "assistant"}
  {
    if m.role == Some("developer") then Chat("system", m.content)
    else if m.role == Some("user") then Chat("user", FirstText(m.content))
    else if m.role == Some("assistant") then Chat("assistant", FirstText(m.content))
    else if m.kind == Some("function_call_output") then ToolResult(m.output, m.callId)
    else Unchanged(m)
  }

  /** The message carries one of the roles the conversion rewrites. */
  predicate HasChatRole(m: InputMessage) {
    m.role == Some("developer") || m.role == Some("user") || m.role == Some("assistant")
  }

  /** The role a converted message is sent with. */
  function Role(c: ChatMessage): Option<string> {
    match c
    case Chat(role, _) => Some(role)
    case ToolResult(_, _) => Some("tool")
    case Unchanged(m) => m.role
  }

  /** `messages.map(...)`: one converted message per message, in order. */
  function ConvertMessages(ms: seq<InputMessage>): (cs: seq<ChatMessage>)
    ensures |cs| == |ms|
    ensures forall i :: 0 <= i < |ms| ==> cs[i] == Convert(ms[i])
  {
    seq(|ms|, i requires 0 <= i < |ms| => Convert(ms[i]))
  }

  /**
   * What the conversion does to each message: `developer` becomes `system`,
   * the chat roles are kept with their first part's text, a function output
   * becomes a `tool` message, anything else passes through, and no
   * `developer` message reaches the completion API.
   */
  lemma ConvertRoles(ms: seq<InputMessage>)
    ensures forall i :: 0 <= i < |ms| ==> Role(ConvertMessages(ms)[i]) != Some("developer")
    ensures forall i :: 0 <= i < |ms| && ms[i].role == Some("developer") ==>
              ConvertMessages(ms)[i] == Chat("system", ms[i].content)
    ensures forall i :: 0 <= i < |ms| && (ms[i].role == Some("user") || ms[i].role == Some("assistant")) ==>
              ConvertMessages(ms)[i] == Chat(ms[i].role.value, FirstText(ms[i].content))
    ensures forall i :: 0 <= i < |ms| && ms[i].kind == Some("function_call_output") && !HasChatRole(ms[i]) ==>
              ConvertMessages(ms)[i] == ToolResult(ms[i].output, ms[i].callId)
    ensures forall i :: 0 <= i < |ms| && ms[i].kind != Some("function_call_output") && !HasChatRole(ms[i]) ==>
              ConvertMessages(ms)[i] == Unchanged(ms[i])
  {
    forall i | 0 <= i < |ms|
      ensures Role(ConvertMessages(ms)[i]) != Some("developer")
    {
      assert ConvertMessages(ms)[i] == Convert(ms[i]);
    }
  }

  // ---------------------------------------------------------------------------
  // Stream chunks and events

  datatype FunctionDelta = FunctionDelta(name: Option<string>, arguments: Option<string>)
  datatype ToolCallDelta = ToolCallDelta(id: Option<string>, index: int, fn: Option<FunctionDelta>)
  datatype Delta = Delta(content: Option<string>, toolCalls: Option<seq<ToolCallDelta>>)
  datatype Choice = Choice(delta: Option<Delta>, finishReason: Option<string>)

  /** A streamed chunk, reduced to its first choice (`None` when `choices` is empty). */
  datatype Chunk = Chunk(choice: Option<Choice>)

  datatype StreamEvent =
    | OutputTextDelta(delta: string, itemId: string)
    | OutputItemAdded(id: string, name: string, arguments: string)
    | ArgumentsDelta(delta: string, itemId: string)
    | ArgumentsDone(itemId: string, arguments: string)
    | OutputItemDone(id: string, name: string, arguments: string)
    | ResponseDone

  datatype ToolCall = ToolCall(id: string, name: string, arguments: string)

  /** The translator's two variables: the open tool call and its accumulated arguments. */
  datatype StreamState = StreamState(current: Option<ToolCall>, args: string)

  const Initial := StreamState(None, "")

  function MessageId(now: int): string { "msg_" + IntToString(now) }

  function Name(tc: ToolCallDelta): Option<string> {
    if tc.fn.Some? then tc.fn.value.name else None
  }

  function Arguments(tc: ToolCallDelta): Option<string> {
    if tc.fn.Some? then tc.fn.value.arguments else None
  }

  /** `toolCall.id || currentToolCall?.id || \`call_${now}_${index}\``. */
  function CallId(tc: ToolCallDelta, current: Option<ToolCall>, now: int): string {
    if Truthy(tc.id) then tc.id.value
    else if current.Some? && current.value.id != "" then current.value.id
    else "call_" + IntToString(now) + "_" + IntToString(tc.index)
  }


  /** Opening: with no call open, a named entry opens one whose arguments start as its own fragment. */
  function Open(st: StreamState, tc: ToolCallDelta, now: int): (StreamState, seq<StreamEvent>) {
    if Truthy(Name(tc)) && st.current.None? then
      var (id, a) := (CallId(tc, st.current, now), OrElse(Arguments(tc), ""));
      (StreamState(Some(ToolCall(id, Name(tc).value, a)), a), [OutputItemAdded(id, Name(tc).value, a)])
    else (st, [])
  }

  /** Taking a fragment: with a call open, the entry's fragment is appended to the arguments and announced. */
  function Take(st: StreamState, tc: ToolCallDelta): (StreamState, seq<StreamEvent>) {
    if Truthy(Arguments(tc)) && st.current.Some? then
      var args := st.args + Arguments(tc).value;
      (StreamState(Some(st.current.value.(arguments := args)), args), [ArgumentsDelta(Arguments(tc).value, st.current.value.id)])
    else (st, [])
  }

  /** One entry of `delta.tool_calls`, as written: the opening test, then the fragment test, on the state the first left. */
  function CallStep(st: StreamState, tc: ToolCallDelta, now: int): (StreamState, seq<StreamEvent>) {
    var o := Open(st, tc, now);
    var t := Take(o.0, tc);
    (t.0, o.1 + t.1)
  }

  /** The inner loop over `delta.tool_calls`. */
  function CallsStep(st: StreamState, tcs: seq<ToolCallDelta>, now: int): (StreamState, seq<StreamEvent>)
    decreases |tcs|
  {
    if tcs == [] then (st, [])
    else
      var r := CallsStep(st, tcs[..|tcs| - 1], now);
      var s := CallStep(r.0, tcs[|tcs| - 1], now);
      (s.0, r.1 + s.1)
  }

  function DeltaOf(c: Chunk): Option<Delta> {
    if c.choice.Some? then c.choice.value.delta else None
  }

  function TextEvents(c: Chunk, messageId: string): seq<StreamEvent> {
    var d := DeltaOf(c);
    if d.Some? && Truthy(d.value.content) then [OutputTextDelta(d.value.content.value, messageId)] else []
  }

  function CallsOf(st: StreamState, c: Chunk, now: int): (StreamState, seq<StreamEvent>) {
    var d := DeltaOf(c);
    if d.Some? && d.value.toolCalls.Some? then CallsStep(st, d.value.toolCalls.value, now) else (st, [])
  }

  predicate Finishes(c: Chunk) {
    c.choice.Some? && Truthy(c.choice.value.finishReason)
  }

  /** The closing events of a chunk with a finish reason: the open call's two closing events for `tool_calls`, then `response.done`. */
  function Closing(st: StreamState, c: Chunk): seq<StreamEvent> {
    if !Finishes(c) then []
    else if c.choice.value.finishReason.value == "tool_calls" && st.current.Some? then
      var tc := st.current.value;
      [ArgumentsDone(tc.id, tc.arguments), OutputItemDone(tc.id, tc.name, tc.arguments), ResponseDone]
    else [ResponseDone]
  }

  /** One chunk: its text, then its tool calls, then the closing events. */
  function ChunkStep(st: StreamState, c: Chunk, messageId: string, now: int): (StreamState, seq<StreamEvent>) {
    var r := CallsOf(st, c, now);
    (r.0, TextEvents(c, messageId) + r.1 + Closing(r.0, c))
  }

  /** The whole stream, from the initial state. */
  function Translate(cs: seq<Chunk>, now: int): (StreamState, seq<StreamEvent>)
    decreases |cs|
  {
    if cs == [] then (Initial, [])
    else
      var r := Translate(cs[..|cs| - 1], now);
      var s := ChunkStep(r.0, cs[|cs| - 1], MessageId(now), now);
      (s.0, r.1 + s.1)
  }

  // ---------------------------------------------------------------------------
  // What the translator promises

  const TextTag: nat := 0
  const AddedTag: nat := 1
  const DeltaTag: nat := 2
  const DoneTag: nat := 5

  /** Which of the six event kinds an event is. */
  function Tag(ev: StreamEvent): nat {
    match ev
    case OutputTextDelta(_, _) => TextTag
    case OutputItemAdded(_, _, _) => AddedTag
    case ArgumentsDelta(_, _) => DeltaTag
    case ArgumentsDone(_, _) => 3
    case OutputItemDone(_, _, _) => 4
    case ResponseDone => DoneTag
  }

  /** How many events of one kind a sequence holds. */
  function Count(e: seq<StreamEvent>, tag: nat): nat
    decreases |e|
  {
    if e == [] then 0 else Count(e[..|e| - 1], tag) + (if Tag(e[|e| - 1]) == tag then 1 else 0)
  }

  lemma {:induction false} CountAppend(a: seq<StreamEvent>, b: seq<StreamEvent>, tag: nat)
    ensures Count(a + b, tag) == Count(a, tag) + Count(b, tag)
    decreases |b|
  {
    if b == [] {
      assert a + b == a;
    } else {
      assert (a + b)[..|a + b| - 1] == a + b[..|b| - 1];
      CountAppend(a, b[..|b| - 1], tag);
    }
  }

  lemma CountOne(ev: StreamEvent, tag: nat)
    ensures Count([ev], tag) == (if Tag(ev) == tag then 1 else 0)
  {
    assert [ev][..0] == [];
  }

  /** The open call's stored arguments mirror the accumulated ones. */
  ghost predicate Mirrored(st: StreamState) {
    st.current.Some? ==> st.current.value.arguments == st.args
  }

  /** Whether `st2` still holds the call `st` had open, if any. */
  ghost predicate Keeps(st: StreamState, st2: StreamState) {
    st.current.Some? ==>
      && st2.current.Some?
      && st2.current.value.id == st.current.value.id
      && st2.current.value.name == st.current.value.name
  }

  /** The tool-call events of one entry: at most one opening, no text and no `response.done`. */
  lemma CallStepFacts(st: StreamState, tc: ToolCallDelta, now: int)
    ensures var r := CallStep(st, tc, now);
      && Keeps(st, r.0)
      && Count(r.1, AddedTag) == (if st.current.None? && r.0.current.Some? then 1 else 0)
      && Count(r.1, TextTag) == 0 && Count(r.1, DoneTag) == 0
      && (Mirrored(st) ==> Mirrored(r.0))
  {
    var o := Open(st, tc, now);
    var t := Take(o.0, tc);
    OpenFacts(st, tc, now);
    TakeFacts(o.0, tc);
    CountAppend(o.1, t.1, AddedTag);
    CountAppend(o.1, t.1, TextTag);
    CountAppend(o.1, t.1, DoneTag);
  }

  /** The opening half of an entry: it opens a call only when none is open, and announces it once. */
  lemma OpenFacts(st: StreamState, tc: ToolCallDelta, now: int)
    ensures var o := Open(st, tc, now);
      && (st.current.Some? ==> o == (st, []))
      && Count(o.1, AddedTag) == (if st.current.None? && o.0.current.Some? then 1 else 0)
      && Count(o.1, TextTag) == 0 && Count(o.1, DoneTag) == 0
      && Mirrored(o.0) == (Mirrored(st) || o.0 != st)
  {
    var o := Open(st, tc, now);
    if o.1 != [] {
      CountOne(o.1[0], AddedTag);
      CountOne(o.1[0], TextTag);
      CountOne(o.1[0], DoneTag);
    }
  }

  /** The fragment half of an entry: it keeps the open call, if any, and announces no opening, text or `response.done`. */
  lemma TakeFacts(st: StreamState, tc: ToolCallDelta)
    ensures var t := Take(st, tc);
      && Keeps(st, t.0) && (t.0.current.Some? <==> st.current.Some?)
      && Count(t.1, AddedTag) == 0 && Count(t.1, TextTag) == 0 && Count(t.1, DoneTag) == 0
      && (Mirrored(st) ==> Mirrored(t.0))
  {
    var t := Take(st, tc);
    if t.1 != [] {
      CountOne(t.1[0], AddedTag);
      CountOne(t.1[0], TextTag);
      CountOne(t.1[0], DoneTag);
    }
  }

  /**
   * With a call open, an entry's fragment is appended to the accumulated
   * arguments (an absent or empty fragment appends nothing), and a non-empty
   * one is announced by exactly one `function_call_arguments.delta` for the
   * open call; the stored call mirrors the new arguments.
   */
  lemma TakeAppendsFragment(st: StreamState, tc: ToolCallDelta)
    requires st.current.Some?
    ensures var t := Take(st, tc);
      && Keeps(st, t.0)
      && t.0.args == st.args + OrElse(Arguments(tc), "")
      && (Truthy(Arguments(tc)) ==> t.1 == [ArgumentsDelta(Arguments(tc).value, st.current.value.id)] && Mirrored(t.0))
      && (!Truthy(Arguments(tc)) ==> t == (st, []))
      && Count(t.1, DeltaTag) == (if Truthy(Arguments(tc)) then 1 else 0)
  {
    var t := Take(st, tc);
    if Truthy(Arguments(tc)) {
      CountOne(t.1[0], DeltaTag);
    } else {
      assert st.args + OrElse(Arguments(tc), "") == st.args;
    }
  }

  /**
   * The inner loop opens a call only if none is open, never replaces an
   * open call, announces an opening once, and sends neither text nor
   * `response.done`.
   */
  lemma {:induction false} CallsStepFacts(st: StreamState, tcs: seq<ToolCallDelta>, now: int)
    ensures var r := CallsStep(st, tcs, now);
      && Keeps(st, r.0)
      && Count(r.1, AddedTag) == (if st.current.None? && r.0.current.Some? then 1 else 0)
      && Count(r.1, TextTag) == 0 && Count(r.1, DoneTag) == 0
      && (Mirrored(st) ==> Mirrored(r.0))
    decreases |tcs|
  {
    if tcs != [] {
      var r := CallsStep(st, tcs[..|tcs| - 1], now);
      CallsStepFacts(st, tcs[..|tcs| - 1], now);
      CallStepFacts(r.0, tcs[|tcs| - 1], now);
      var s := CallStep(r.0, tcs[|tcs| - 1], now);
      CountAppend(r.1, s.1, AddedTag);
      CountAppend(r.1, s.1, TextTag);
      CountAppend(r.1, s.1, DoneTag);
    }
  }

  lemma CallsOfFacts(st: StreamState, c: Chunk, now: int)
    ensures var r := CallsOf(st, c, now);
      && Keeps(st, r.0)
      && Count(r.1, AddedTag) == (if st.current.None? && r.0.current.Some? then 1 else 0)
      && Count(r.1, TextTag) == 0 && Count(r.1, DoneTag) == 0
      && (Mirrored(st) ==> Mirrored(r.0))
  {
    var d := DeltaOf(c);
    if d.Some? && d.value.toolCalls.Some? {
      CallsStepFacts(st, d.value.toolCalls.value, now);
    }
  }

  /** The text events carry no opening and no `response.done`, and one text event exactly when the delta has text. */
  lemma TextCounts(c: Chunk, messageId: string)
    ensures var d := DeltaOf(c);
      && Count(TextEvents(c, messageId), TextTag) == (if d.Some? && Truthy(d.value.content) then 1 else 0)
      && Count(TextEvents(c, messageId), AddedTag) == 0 && Count(TextEvents(c, messageId), DoneTag) == 0
      && Count(TextEvents(c, messageId), DeltaTag) == 0
  {
    var text := TextEvents(c, messageId);
    if text != [] {
      assert text[..0] == [];
    }
  }

  /** The closing events carry no text and no opening, and one `response.done` exactly when the chunk finishes. */
  lemma ClosingCounts(st: StreamState, c: Chunk)
    ensures Count(Closing(st, c), TextTag) == 0 && Count(Closing(st, c), AddedTag) == 0
    ensures Count(Closing(st, c), DeltaTag) == 0
    ensures Count(Closing(st, c), DoneTag) == (if Finishes(c) then 1 else 0)
  {
    if Finishes(c) && c.choice.value.finishReason.value == "tool_calls" && st.current.Some? {
      var tc := st.current.value;
      var (x, y, z) := (ArgumentsDone(tc.id, tc.arguments), OutputItemDone(tc.id, tc.name, tc.arguments), ResponseDone);
      assert Closing(st, c) == [x] + [y] + [z];
      forall tag: nat
        ensures Count([x] + [y] + [z], tag) == Count([x], tag) + Count([y], tag) + Count([z], tag)
      {
        CountAppend([x], [y], tag);
        CountAppend([x] + [y], [z], tag);
      }
      CountOne(x, TextTag); CountOne(y, TextTag); CountOne(z, TextTag);
      CountOne(x, AddedTag); CountOne(y, AddedTag); CountOne(z, AddedTag);
      CountOne(x, DoneTag); CountOne(y, DoneTag); CountOne(z, DoneTag);
      CountOne(x, DeltaTag); CountOne(y, DeltaTag); CountOne(z, DeltaTag);
    } else if Finishes(c) {
      CountOne(ResponseDone, TextTag);
      CountOne(ResponseDone, AddedTag);
      CountOne(ResponseDone, DoneTag);
      CountOne(ResponseDone, DeltaTag);
    }
  }

  /** A chunk's counts are those of its text, its tool calls and its closing events. */
  lemma ChunkCounts(st: StreamState, c: Chunk, messageId: string, now: int, tag: nat)
    ensures var r := CallsOf(st, c, now);
      Count(ChunkStep(st, c, messageId, now).1, tag)
        == Count(TextEvents(c, messageId), tag) + Count(r.1, tag) + Count(Closing(r.0, c), tag)
  {
    var r := CallsOf(st, c, now);
    CountAppend(TextEvents(c, messageId), r.1, tag);
    CountAppend(TextEvents(c, messageId) + r.1, Closing(r.0, c), tag);
  }

  /**
   * A chunk's events: its text first, exactly one text event when the delta
   * has text and none otherwise; `response.done` last and exactly once when
   * it carries a finish reason, never otherwise; and for `tool_calls` the
   * open call's `arguments.done` and `output_item.done` right before it.
   */
  lemma ChunkEvents(st: StreamState, c: Chunk, messageId: string, now: int)
    ensures var (r, d) := (ChunkStep(st, c, messageId, now), DeltaOf(c));
      && (d.Some? && Truthy(d.value.content) ==> |r.1| >= 1 && r.1[0] == OutputTextDelta(d.value.content.value, messageId))
      && Count(r.1, TextTag) == (if d.Some? && Truthy(d.value.content) then 1 else 0)
      && (Finishes(c) ==> |r.1| >= 1 && r.1[|r.1| - 1] == ResponseDone)
      && Count(r.1, DoneTag) == (if Finishes(c) then 1 else 0)
      && (Finishes(c) && c.choice.value.finishReason.value == "tool_calls" && r.0.current.Some? ==>
            var tc := r.0.current.value;
            |r.1| >= 3 && r.1[|r.1| - 3..] == [ArgumentsDone(tc.id, tc.arguments), OutputItemDone(tc.id, tc.name, tc.arguments), ResponseDone])
  {
    var calls := CallsOf(st, c, now);
    CallsOfFacts(st, c, now);
    TextCounts(c, messageId);
    ClosingCounts(calls.0, c);
    ChunkCounts(st, c, messageId, now, TextTag);
    ChunkCounts(st, c, messageId, now, DoneTag);
  }

  /**
   * Over a whole stream, `output_item.added` is sent exactly once if a named
   * tool call ever arrives and never otherwise, and the open call's stored
   * arguments always equal the accumulated ones.
   */
  lemma {:induction false} OneOpeningPerStream(cs: seq<Chunk>, now: int)
    ensures var r := Translate(cs, now);
      Count(r.1, AddedTag) == (if r.0.current.Some? then 1 else 0) && Mirrored(r.0)
    decreases |cs|
  {
    if cs != [] {
      var c := cs[|cs| - 1];
      var r := Translate(cs[..|cs| - 1], now);
      OneOpeningPerStream(cs[..|cs| - 1], now);
      CallsOfFacts(r.0, c, now);
      TextCounts(c, MessageId(now));
      ClosingCounts(CallsOf(r.0, c, now).0, c);
      ChunkCounts(r.0, c, MessageId(now), now, AddedTag);
      CountAppend(r.1, ChunkStep(r.0, c, MessageId(now), now).1, AddedTag);
    }
  }

  // ---------------------------------------------------------------------------
  // The opening fragment is counted twice

  /**
   * As written: a first named call whose entry already carries a fragment
   * `a` is opened with `a` as its arguments, and the same fragment is then
   * appended again, so the accumulated arguments are `a + a`.
   */
  lemma OpeningFragmentCountedTwice(tc: ToolCallDelta, now: int)
    requires Truthy(Name(tc)) && Truthy(Arguments(tc))
    ensures var r := CallStep(Initial, tc, now);
      var (a, id) := (Arguments(tc).value, CallId(tc, None, now));
      && r.0.args == a + a
      && r.0.current == Some(ToolCall(id, Name(tc).value, a + a))
      && r.1 == [OutputItemAdded(id, Name(tc).value, a), ArgumentsDelta(a, id)]
  {
  }

  /** Concretely: the fragment `{}` ends up as `{}{}`, which is not a JSON object. */
  lemma OpeningFragmentExample(now: int)
    ensures CallStep(Initial, ToolCallDelta(Some("call_1"), 0, Some(FunctionDelta(Some("search"), Some("{}")))), now).0.args == "{}{}"
  {
  }

  /** The evident intent: an entry that opens a call contributes its fragment as the start of the arguments, and only then. */
  function CallStepCorrected(st: StreamState, tc: ToolCallDelta, now: int): (StreamState, seq<StreamEvent>) {
    if Truthy(Name(tc)) && st.current.None? then Open(st, tc, now) else Take(st, tc)
  }

  function CallsStepCorrected(st: StreamState, tcs: seq<ToolCallDelta>, now: int): (StreamState, seq<StreamEvent>)
    decreases |tcs|
  {
    if tcs == [] then (st, [])
    else
      var r := CallsStepCorrected(st, tcs[..|tcs| - 1], now);
      var s := CallStepCorrected(r.0, tcs[|tcs| - 1], now);
      (s.0, r.1 + s.1)
  }

  /** The fragments of a run of tool-call entries, each once, in order. */
  function Fragments(tcs: seq<ToolCallDelta>): string
    decreases |tcs|
  {
    if tcs == [] then "" else Fragments(tcs[..|tcs| - 1]) + OrElse(Arguments(tcs[|tcs| - 1]), "")
  }

  /**
   * Corrected: a stream of entries whose first is named opens one call, and
   * that call's arguments are every fragment received, each once, in order,
   * mirrored in the stored call.
   */
  lemma {:induction false} CorrectedCountsEachFragmentOnce(tc: ToolCallDelta, rest: seq<ToolCallDelta>, now: int)
    requires Truthy(Name(tc))
    ensures var r := CallsStepCorrected(Initial, [tc] + rest, now);
      && r.0.current.Some? && r.0.current.value.id == CallId(tc, None, now)
      && r.0.args == Fragments([tc] + rest) && Mirrored(r.0)
    decreases |rest|
  {
    var all := [tc] + rest;
    if rest == [] {
      assert all[..0] == [];
    } else {
      assert all[..|all| - 1] == [tc] + rest[..|rest| - 1];
      CorrectedCountsEachFragmentOnce(tc, rest[..|rest| - 1], now);
    }
  }

  // ---------------------------------------------------------------------------
  // Across the whole stream

  /** A chunk's `delta.tool_calls` entries (none when it has no delta or no list). */
  function ToolCallsOf(c: Chunk): seq<ToolCallDelta> {
    var d := DeltaOf(c);
    if d.Some? && d.value.toolCalls.Some? then d.value.toolCalls.value else []
  }

  /** Every tool-call entry of the stream, chunk after chunk. */
  function Entries(cs: seq<Chunk>): seq<ToolCallDelta>
    decreases |cs|
  {
    if cs == [] then [] else Entries(cs[..|cs| - 1]) + ToolCallsOf(cs[|cs| - 1])
  }

  /** How many entries carry a non-empty fragment. */
  function FragmentCount(tcs: seq<ToolCallDelta>): nat
    decreases |tcs|
  {
    if tcs == [] then 0 else FragmentCount(tcs[..|tcs| - 1]) + (if Truthy(Arguments(tcs[|tcs| - 1])) then 1 else 0)
  }

  /** Entries with no name and no call open change nothing. */
  predicate Unnamed(tcs: seq<ToolCallDelta>) {
    forall i :: 0 <= i < |tcs| ==> !Truthy(Name(tcs[i]))
  }

  /** The inner loop over two runs of entries is the loop over the first, then over the second. */
  lemma {:induction false} CallsStepAppend(st: StreamState, a: seq<ToolCallDelta>, b: seq<ToolCallDelta>, now: int)
    ensures var (ra, rb) := (CallsStep(st, a, now), CallsStep(CallsStep(st, a, now).0, b, now));
      CallsStep(st, a + b, now) == (rb.0, ra.1 + rb.1)
    decreases |b|
  {
    if b == [] {
      assert a + b == a;
      assert CallsStep(st, a, now).1 + [] == CallsStep(st, a, now).1;
    } else {
      var b0 := b[..|b| - 1];
      assert (a + b)[..|a + b| - 1] == a + b0;
      assert (a + b)[|a + b| - 1] == b[|b| - 1];
      CallsStepAppend(st, a, b0, now);
      var ra := CallsStep(st, a, now);
      var rb0 := CallsStep(ra.0, b0, now);
      var last := CallStep(rb0.0, b[|b| - 1], now);
      Assoc(ra.1, rb0.1, last.1);
    }
  }

  lemma {:induction false} CallsStepUnnamed(pre: seq<ToolCallDelta>, now: int)
    requires Unnamed(pre)
    ensures CallsStep(Initial, pre, now) == (Initial, [])
    decreases |pre|
  {
    if pre != [] {
      var front := pre[..|pre| - 1];
      assert forall i :: 0 <= i < |front| ==> front[i] == pre[i];
      CallsStepUnnamed(front, now);
      var x := pre[|pre| - 1];
      assert !Truthy(Name(x));
      assert Open(Initial, x, now) == (Initial, []);
      assert Take(Initial, x) == (Initial, []);
      var none: seq<StreamEvent> := [];
      assert none + none == none;
      assert CallStep(Initial, x, now) == (Initial, none);
    }
  }

  /** The translator's state after a stream, and its count of fragment events, are those of the inner loop over all entries. */
  lemma {:induction false} TranslateIsEntries(cs: seq<Chunk>, now: int)
    ensures Translate(cs, now).0 == CallsStep(Initial, Entries(cs), now).0
    ensures Count(Translate(cs, now).1, DeltaTag) == Count(CallsStep(Initial, Entries(cs), now).1, DeltaTag)
    decreases |cs|
  {
    if cs != [] {
      var (front, c) := (cs[..|cs| - 1], cs[|cs| - 1]);
      TranslateIsEntries(front, now);
      var r := Translate(front, now);
      var e := CallsStep(Initial, Entries(front), now);
      CallsStepAppend(Initial, Entries(front), ToolCallsOf(c), now);
      var calls := CallsOf(r.0, c, now);
      assert calls == CallsStep(e.0, ToolCallsOf(c), now);
      TextCounts(c, MessageId(now));
      ClosingCounts(calls.0, c);
      ChunkCounts(r.0, c, MessageId(now), now, DeltaTag);
      CountAppend(r.1, ChunkStep(r.0, c, MessageId(now), now).1, DeltaTag);
      CountAppend(e.1, calls.1, DeltaTag);
    }
  }

  /** As written, once a call is open: each later entry's fragment is appended once and announced once. */
  lemma {:induction false} WrittenAfterOpen(st: StreamState, rest: seq<ToolCallDelta>, now: int)
    requires st.current.Some?
    ensures AppendedOnce(st, rest, now)
    decreases |rest|
  {
    if rest == [] {
      assert st.args + "" == st.args;
    } else {
      var front := rest[..|rest| - 1];
      WrittenAfterOpen(st, front, now);
      WrittenAfterOpenStep(st, front, rest[|rest| - 1], now);
      assert front + [rest[|rest| - 1]] == rest;
    }
  }

  /** From `st`, the entries `tcs` keep the open call and add their fragments and fragment events once each. */
  predicate AppendedOnce(st: StreamState, tcs: seq<ToolCallDelta>, now: int)
    requires st.current.Some?
  {
    var r := CallsStep(st, tcs, now);
    && r.0.current.Some? && r.0.current.value.id == st.current.value.id
    && r.0.args == st.args + Fragments(tcs)
    && Count(r.1, DeltaTag) == FragmentCount(tcs)
  }

  lemma WrittenAfterOpenStep(st: StreamState, front: seq<ToolCallDelta>, last: ToolCallDelta, now: int)
    requires st.current.Some? && AppendedOnce(st, front, now)
    ensures AppendedOnce(st, front + [last], now)
  {
    var all := front + [last];
    var r := CallsStep(st, front, now);
    var next := CallStep(r.0, last, now);
    var whole := CallsStep(st, all, now);
    var (f, g) := (Fragments(front), OrElse(Arguments(last), ""));
    assert whole.0 == next.0 && whole.1 == r.1 + next.1
        && Fragments(all) == f + g
        && FragmentCount(all) == FragmentCount(front) + (if Truthy(Arguments(last)) then 1 else 0) by {
      assert all[..|all| - 1] == front && all[|all| - 1] == last;
    }
    WrittenNextEntry(r.0, last, now);
    CountAppend(r.1, next.1, DeltaTag);
    assert (st.args + f) + g == st.args + (f + g);
  }

  /**
   * As written, from the opening entry `tc` on: every non-empty fragment is
   * announced by one `function_call_arguments.delta`, but the accumulated
   * arguments hold `tc`'s fragment twice.
   */
  lemma WrittenEntriesFacts(tc: ToolCallDelta, rest: seq<ToolCallDelta>, now: int)
    requires Truthy(Name(tc))
    ensures var (r, a) := (CallsStep(Initial, [tc] + rest, now), OrElse(Arguments(tc), ""));
      && r.0.current.Some? && r.0.current.value.id == CallId(tc, None, now)
      && r.0.args == a + a + Fragments(rest)
      && Count(r.1, DeltaTag) == (if Truthy(Arguments(tc)) then 1 else 0) + FragmentCount(rest)
  {
    CallsStepAppend(Initial, [tc], rest, now);
    var first := CallsStep(Initial, [tc], now);
    assert [tc][..0] == [];
    assert first.1 == [] + CallStep(Initial, tc, now).1;
    WrittenFirstEntry(tc, now);
    WrittenAfterOpen(first.0, rest, now);
    CountAppend(first.1, CallsStep(first.0, rest, now).1, DeltaTag);
  }

  /** A later entry, as written, while a call is open: its fragment is appended once. */
  lemma WrittenNextEntry(st: StreamState, tc: ToolCallDelta, now: int)
    requires st.current.Some?
    ensures var r := CallStep(st, tc, now);
      && r.0.current.Some? && r.0.current.value.id == st.current.value.id
      && r.0.args == st.args + OrElse(Arguments(tc), "")
      && Count(r.1, DeltaTag) == (if Truthy(Arguments(tc)) then 1 else 0)
  {
    OpenFacts(st, tc, now);
    TakeAppendsFragment(st, tc);
    assert CallStep(st, tc, now).1 == [] + Take(st, tc).1;
  }

  /** The opening entry, as written: its fragment is taken as the start and then appended. */
  lemma WrittenFirstEntry(tc: ToolCallDelta, now: int)
    requires Truthy(Name(tc))
    ensures var r := CallStep(Initial, tc, now);
      && r.0.current.Some? && r.0.current.value.id == CallId(tc, None, now)
      && r.0.args == OrElse(Arguments(tc), "") + OrElse(Arguments(tc), "")
      && Count(r.1, DeltaTag) == (if Truthy(Arguments(tc)) then 1 else 0)
  {
    var o := Open(Initial, tc, now);
    CountOne(o.1[0], DeltaTag);
    TakeAppendsFragment(o.0, tc);
    CountAppend(o.1, Take(o.0, tc).1, DeltaTag);
  }

  /** Unnamed entries before the first named one leave no trace. */
  lemma WrittenSkipsUnnamed(cs: seq<Chunk>, pre: seq<ToolCallDelta>, tc: ToolCallDelta, rest: seq<ToolCallDelta>, now: int)
    requires Entries(cs) == pre + [tc] + rest && Unnamed(pre)
    ensures CallsStep(Initial, Entries(cs), now) == CallsStep(Initial, [tc] + rest, now)
  {
    assert pre + [tc] + rest == pre + ([tc] + rest);
    CallsStepAppend(Initial, pre, [tc] + rest, now);
    CallsStepUnnamed(pre, now);
    assert [] + CallsStep(Initial, [tc] + rest, now).1 == CallsStep(Initial, [tc] + rest, now).1;
  }

  /** Over a stream whose first named entry is `tc`, after unnamed entries `pre`: the as-written counts. */
  lemma WrittenStreamFacts(cs: seq<Chunk>, pre: seq<ToolCallDelta>, tc: ToolCallDelta, rest: seq<ToolCallDelta>, now: int)
    requires Entries(cs) == pre + [tc] + rest && Unnamed(pre) && Truthy(Name(tc))
    ensures var (r, a) := (Translate(cs, now), OrElse(Arguments(tc), ""));
      && r.0.args == a + a + Fragments(rest)
      && Count(r.1, DeltaTag) == (if Truthy(Arguments(tc)) then 1 else 0) + FragmentCount(rest)
  {
    TranslateIsEntries(cs, now);
    WrittenSkipsUnnamed(cs, pre, tc, rest, now);
    WrittenEntriesFacts(tc, rest, now);
  }

  /** The corrected translator: each chunk's entries go through the corrected entry step. */
  function ChunkStepCorrected(st: StreamState, c: Chunk, messageId: string, now: int): (StreamState, seq<StreamEvent>) {
    var r := CallsStepCorrected(st, ToolCallsOf(c), now);
    (r.0, TextEvents(c, messageId) + r.1 + Closing(r.0, c))
  }

  function TranslateCorrected(cs: seq<Chunk>, now: int): (StreamState, seq<StreamEvent>)
    decreases |cs|
  {
    if cs == [] then (Initial, [])
    else
      var r := TranslateCorrected(cs[..|cs| - 1], now);
      var s := ChunkStepCorrected(r.0, cs[|cs| - 1], MessageId(now), now);
      (s.0, r.1 + s.1)
  }

  lemma {:induction false} CallsStepCorrectedAppend(st: StreamState, a: seq<ToolCallDelta>, b: seq<ToolCallDelta>, now: int)
    ensures var (ra, rb) := (CallsStepCorrected(st, a, now), CallsStepCorrected(CallsStepCorrected(st, a, now).0, b, now));
      CallsStepCorrected(st, a + b, now) == (rb.0, ra.1 + rb.1)
    decreases |b|
  {
    if b == [] {
      assert a + b == a;
      assert CallsStepCorrected(st, a, now).1 + [] == CallsStepCorrected(st, a, now).1;
    } else {
      var b0 := b[..|b| - 1];
      assert (a + b)[..|a + b| - 1] == a + b0;
      assert (a + b)[|a + b| - 1] == b[|b| - 1];
      CallsStepCorrectedAppend(st, a, b0, now);
      var ra := CallsStepCorrected(st, a, now);
      var rb0 := CallsStepCorrected(ra.0, b0, now);
      var last := CallStepCorrected(rb0.0, b[|b| - 1], now);
      Assoc(ra.1, rb0.1, last.1);
    }
  }

  lemma {:induction false} CallsStepCorrectedUnnamed(pre: seq<ToolCallDelta>, now: int)
    requires Unnamed(pre)
    ensures CallsStepCorrected(Initial, pre, now) == (Initial, [])
    decreases |pre|
  {
    if pre != [] {
      var front := pre[..|pre| - 1];
      assert forall i :: 0 <= i < |front| ==> front[i] == pre[i];
      CallsStepCorrectedUnnamed(front, now);
      var x := pre[|pre| - 1];
      assert !Truthy(Name(x));
      assert Take(Initial, x) == (Initial, []);
      assert CallStepCorrected(Initial, x, now) == (Initial, []);
      var none: seq<StreamEvent> := [];
      assert none + none == none;
    }
  }

  lemma {:induction false} TranslateCorrectedIsEntries(cs: seq<Chunk>, now: int)
    ensures TranslateCorrected(cs, now).0 == CallsStepCorrected(Initial, Entries(cs), now).0
    ensures Count(TranslateCorrected(cs, now).1, DeltaTag) == Count(CallsStepCorrected(Initial, Entries(cs), now).1, DeltaTag)
    decreases |cs|
  {
    if cs != [] {
      var (front, c) := (cs[..|cs| - 1], cs[|cs| - 1]);
      TranslateCorrectedIsEntries(front, now);
      var r := TranslateCorrected(front, now);
      var e := CallsStepCorrected(Initial, Entries(front), now);
      CallsStepCorrectedAppend(Initial, Entries(front), ToolCallsOf(c), now);
      var calls := CallsStepCorrected(r.0, ToolCallsOf(c), now);
      var text := TextEvents(c, MessageId(now));
      TextCounts(c, MessageId(now));
      ClosingCounts(calls.0, c);
      CountAppend(text, calls.1, DeltaTag);
      CountAppend(text + calls.1, Closing(calls.0, c), DeltaTag);
      CountAppend(r.1, ChunkStepCorrected(r.0, c, MessageId(now), now).1, DeltaTag);
      CountAppend(e.1, calls.1, DeltaTag);
    }
  }

  /** Corrected: entries after the opening one announce one fragment event each when their fragment is non-empty. */
  lemma {:induction false} CorrectedDeltaCount(tc: ToolCallDelta, rest: seq<ToolCallDelta>, now: int)
    requires Truthy(Name(tc))
    ensures var r := CallsStepCorrected(Initial, [tc] + rest, now);
      r.0.current.Some? && Count(r.1, DeltaTag) == FragmentCount(rest)
    decreases |rest|
  {
    var all := [tc] + rest;
    if rest == [] {
      assert all[..0] == [] && all[0] == tc;
      var o := Open(Initial, tc, now);
      CountOne(o.1[0], DeltaTag);
      CountAppend([], o.1, DeltaTag);
      assert [] + o.1 == o.1;
    } else {
      var front := [tc] + rest[..|rest| - 1];
      var last := rest[|rest| - 1];
      assert all[..|all| - 1] == front && all[|all| - 1] == last;
      CorrectedDeltaCount(tc, rest[..|rest| - 1], now);
      var r := CallsStepCorrected(Initial, front, now);
      TakeAppendsFragment(r.0, last);
      CountAppend(r.1, Take(r.0, last).1, DeltaTag);
    }
  }

  /**
   * Corrected, over a whole stream whose first named entry is `tc` (after
   * unnamed entries `pre`): one call is open, with `tc`'s id, its arguments
   * are every fragment from `tc` on, each once and in order, mirrored in
   * the stored call, and each later non-empty fragment is announced once.
   */
  lemma CorrectedStreamCountsEachFragmentOnce(cs: seq<Chunk>, pre: seq<ToolCallDelta>, tc: ToolCallDelta,
                                              rest: seq<ToolCallDelta>, now: int)
    requires Entries(cs) == pre + [tc] + rest && Unnamed(pre) && Truthy(Name(tc))
    ensures var r := TranslateCorrected(cs, now);
      && r.0.current.Some? && r.0.current.value.id == CallId(tc, None, now)
      && r.0.args == Fragments([tc] + rest) && Mirrored(r.0)
      && Count(r.1, DeltaTag) == FragmentCount(rest)
  {
    TranslateCorrectedIsEntries(cs, now);
    CorrectedSkipsUnnamed(cs, pre, tc, rest, now);
    CorrectedCountsEachFragmentOnce(tc, rest, now);
    CorrectedDeltaCount(tc, rest, now);
  }

  lemma CorrectedSkipsUnnamed(cs: seq<Chunk>, pre: seq<ToolCallDelta>, tc: ToolCallDelta, rest: seq<ToolCallDelta>, now: int)
    requires Entries(cs) == pre + [tc] + rest && Unnamed(pre)
    ensures CallsStepCorrected(Initial, Entries(cs), now) == CallsStepCorrected(Initial, [tc] + rest, now)
  {
    assert pre + [tc] + rest == pre + ([tc] + rest);
    CallsStepCorrectedAppend(Initial, pre, [tc] + rest, now);
    CallsStepCorrectedUnnamed(pre, now);
    assert [] + CallsStepCorrected(Initial, [tc] + rest, now).1 == CallsStepCorrected(Initial, [tc] + rest, now).1;
  }

  // ---------------------------------------------------------------------------
  // The translation loop

  lemma Assoc(a: seq<StreamEvent>, b: seq<StreamEvent>, c: seq<StreamEvent>)
    ensures a + b + c == a + (b + c)
  {
  }

  lemma TranslateSnoc(cs: seq<Chunk>, c: Chunk, now: int)
    ensures var (r, s) := (Translate(cs, now), ChunkStep(Translate(cs, now).0, c, MessageId(now), now));
      Translate(cs + [c], now) == (s.0, r.1 + s.1)
  {
    assert (cs + [c])[..|cs|] == cs;
  }

  /** The inner `for` over one delta's `tool_calls`, on the translator's two variables. */
  method TakeToolCalls(st: StreamState, calls: seq<ToolCallDelta>, now: int) returns (st2: StreamState, emitted: seq<StreamEvent>)
    ensures (st2, emitted) == CallsStep(st, calls, now)
  {
    var currentToolCall := st.current;
    var currentToolCallArgs := st.args;
    emitted := [];
    var j := 0;
    while j < |calls|
      invariant 0 <= j <= |calls|
      invariant CallsStep(st, calls[..j], now) == (StreamState(currentToolCall, currentToolCallArgs), emitted)
    {
      assert calls[..j + 1][..j] == calls[..j];
      var toolCall := calls[j];
      ghost var o := Open(StreamState(currentToolCall, currentToolCallArgs), toolCall, now);
      ghost var mark := emitted;
      if Truthy(Name(toolCall)) && currentToolCall.None? {
        var toolCallId := CallId(toolCall, currentToolCall, now);
        currentToolCall := Some(ToolCall(toolCallId, Name(toolCall).value, OrElse(Arguments(toolCall), "")));
        currentToolCallArgs := OrElse(Arguments(toolCall), "");
        emitted := emitted + [OutputItemAdded(toolCallId, Name(toolCall).value, currentToolCallArgs)];
      }
      assert StreamState(currentToolCall, currentToolCallArgs) == o.0 && emitted == mark + o.1;
      ghost var t := Take(o.0, toolCall);
      ghost var afterOpen := emitted;
      if Truthy(Arguments(toolCall)) && currentToolCall.Some? {
        currentToolCallArgs := currentToolCallArgs + Arguments(toolCall).value;
        currentToolCall := Some(currentToolCall.value.(arguments := currentToolCallArgs));
        emitted := emitted + [ArgumentsDelta(Arguments(toolCall).value, currentToolCall.value.id)];
      }
      assert StreamState(currentToolCall, currentToolCallArgs) == t.0 && emitted == afterOpen + t.1;
      Assoc(mark, o.1, t.1);
      j := j + 1;
    }
    assert calls[..j] == calls;
    st2 := StreamState(currentToolCall, currentToolCallArgs);
  }

  /** The body of the chunk loop: text, then tool calls, then the closing events. */
  method TranslateChunk(st: StreamState, chunk: Chunk, messageId: string, now: int) returns (st2: StreamState, events: seq<StreamEvent>)
    ensures (st2, events) == ChunkStep(st, chunk, messageId, now)
  {
    var currentToolCall := st.current;
    var currentToolCallArgs := st.args;
    events := [];
    var delta := DeltaOf(chunk);
    if delta.Some? && Truthy(delta.value.content) {
      events := events + [OutputTextDelta(delta.value.content.value, messageId)];
    }
    assert events == TextEvents(chunk, messageId);
    var emitted: seq<StreamEvent> := [];
    if delta.Some? && delta.value.toolCalls.Some? {
      var taken;
      taken, emitted := TakeToolCalls(st, delta.value.toolCalls.value, now);
      currentToolCall, currentToolCallArgs := taken.current, taken.args;
    }
    events := events + emitted;
    st2 := StreamState(currentToolCall, currentToolCallArgs);
    assert CallsOf(st, chunk, now) == (st2, emitted);
    ghost var afterCalls := events;
    if chunk.choice.Some? && Truthy(chunk.choice.value.finishReason) {
      if chunk.choice.value.finishReason.value == "tool_calls" && currentToolCall.Some? {
        events := events + [ArgumentsDone(currentToolCall.value.id, currentToolCall.value.arguments)];
        events := events + [OutputItemDone(currentToolCall.value.id, currentToolCall.value.name, currentToolCall.value.arguments)];
      }
      events := events + [ResponseDone];
    }
    assert events == afterCalls + Closing(st2, chunk);
  }

  /** The stream's `start`: every chunk in order, writing each event as it is produced. */
  method TranslateStream(chunks: seq<Chunk>, now: int) returns (events: seq<StreamEvent>)
    ensures events == Translate(chunks, now).1
  {
    var st := Initial;
    var messageId := MessageId(now);
    events := [];
    var i := 0;
    while i < |chunks|
      invariant 0 <= i <= |chunks|
      invariant Translate(chunks[..i], now) == (st, events)
    {
      var chunkEvents;
      assert chunks[..i + 1] == chunks[..i] + [chunks[i]];
      TranslateSnoc(chunks[..i], chunks[i], now);
      st, chunkEvents := TranslateChunk(st, chunks[i], messageId, now);
      events := events + chunkEvents;
      i := i + 1;
    }
    assert chunks[..i] == chunks;
  }
}
