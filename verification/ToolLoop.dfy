/**
 The chat tool loop: the model is asked, its tool calls are run and answered on
 the wire, and it is asked again, for at most six rounds. The model, the
 operator's cancel and the tools answer anything at all.
 */
module ToolLoop {
  import opened Wrappers
  import opened Text
  import opened Decimal

  const MAX_TOOL_ROUNDS: nat := 6

  datatype Call = Call(id: string, name: string, arguments: string)

  datatype WireMessage =
    | User(content: string)
    | Assistant(text: Option<string>, calls: Option<seq<Call>>)
    | Tool(callId: string, content: string)

  datatype PendingToolCall = PendingToolCall(pendingId: string, name: string, args: seq<string>, description: string)

  datatype InvokeResult = Ran(detail: string) | Pending(pending: PendingToolCall) | Failed(message: string)

  /** What asking the model yields: text, tool calls, an empty answer, or another error. */
  datatype Turn =
    | Message(text: string)
    | ToolCalls(content: Option<string>, calls: seq<Call>)
    | Empty(error: string)
    | Broken(error: string)

  datatype Reply = Said(text: string) | Waiting(message: string, pending: PendingToolCall)

  /** An advertised tool schema, opaque here. */
  type Schema = string

  /**
   Everything outside the loop. A turn may depend on all that was sent; a tool's
   answer on the round, its place among the calls, and all that ran before.
   */
  datatype Env = Env(
    cancelled: nat -> bool,
    turn: (nat, seq<WireMessage>, seq<Schema>) -> Turn,
    parseArgs: Call -> Result<seq<string>, string>,
    isMcpTool: string -> bool,
    invoke: (nat, nat, string, seq<string>) -> InvokeResult)

  // ---------- One call ----------

  /** The arguments a call is invoked with, or the message that stands for its failure. */
  function CallArgs(env: Env, call: Call): Result<seq<string>, string> {
    match env.parseArgs(call)
    case Ok(args) => Ok(args)
    case Err(message) => if env.isMcpTool(call.name) then Ok([call.arguments]) else Err(message)
  }

  /** `dispatch_one` for call number `k` of a round. */
  function Dispatch(env: Env, round: nat, k: nat, call: Call): InvokeResult {
    match CallArgs(env, call)
    case Ok(args) => env.invoke(round, k, call.name, args)
    case Err(message) => Failed(message)
  }

  /** The first call of a round that is left waiting for the operator, or their number. */
  function FirstPending(env: Env, round: nat, calls: seq<Call>, k: nat): (r: nat)
    requires k <= |calls|
    ensures k <= r <= |calls|
    ensures forall i :: k <= i < r ==> !Dispatch(env, round, i, calls[i]).Pending?
    ensures r < |calls| ==> Dispatch(env, round, r, calls[r]).Pending?
    decreases |calls| - k
  {
    if k == |calls| || Dispatch(env, round, k, calls[k]).Pending? then k else FirstPending(env, round, calls, k + 1)
  }

  function Answer(result: InvokeResult): string {
    match result
    case Ran(detail) => detail
    case Failed(message) => message
    case Pending(p) => "pending confirmation " + p.pendingId + ": waiting for operator Approve"
  }

  function Skipped(p: PendingToolCall): string {
    "skipped: confirmation " + p.pendingId + " for " + p.name + " is already pending"
  }

  /** The tool message that answers call `k`: its own result, or a skip behind the first pending call. */
  function ToolMessage(env: Env, round: nat, calls: seq<Call>, k: nat): WireMessage
    requires k < |calls|
  {
    var stop := FirstPending(env, round, calls, 0);
    Tool(calls[k].id,
      if k <= stop then Answer(Dispatch(env, round, k, calls[k]))
      else Skipped(Dispatch(env, round, stop, calls[stop]).pending))
  }

  /** All a round with tool calls adds to the wire: the request, then one answer per call. */
  function Block(env: Env, round: nat, content: Option<string>, calls: seq<Call>): seq<WireMessage> {
    [Assistant(content, Some(calls))]
    + seq(|calls|, k requires 0 <= k < |calls| => ToolMessage(env, round, calls, k))
  }

  // ---------- All rounds ----------

  function RoundTools(tools: seq<Schema>, round: nat): seq<Schema> {
    if round + 1 == MAX_TOOL_ROUNDS then [] else tools
  }

  /** The round goes on to another: it made tool calls, none of them is waiting, and it is not the last. */
  predicate Continues(env: Env, tools: seq<Schema>, round: nat, wire: seq<WireMessage>) {
    && !env.cancelled(round)
    && round + 1 < MAX_TOOL_ROUNDS
    && var turn := env.turn(round, wire, RoundTools(tools, round));
    turn.ToolCalls? && FirstPending(env, round, turn.calls, 0) == |turn.calls|
  }

  /** The wire at the start of a round, when every round before it went on. */
  function WireAt(env: Env, messages: seq<WireMessage>, tools: seq<Schema>, round: nat): seq<WireMessage> {
    if round == 0 then messages
    else
      var before := WireAt(env, messages, tools, round - 1);
      var turn := env.turn(round - 1, before, RoundTools(tools, round - 1));
      before + (if turn.ToolCalls? then Block(env, round - 1, turn.content, turn.calls) else [])
  }

  /** The round in which the loop returns: the first that does not go on. */
  function LastRound(env: Env, messages: seq<WireMessage>, tools: seq<Schema>, from: nat): (n: nat)
    requires from < MAX_TOOL_ROUNDS
    ensures from <= n < MAX_TOOL_ROUNDS
    ensures forall r: nat :: from <= r < n ==> Continues(env, tools, r, WireAt(env, messages, tools, r))
    ensures !Continues(env, tools, n, WireAt(env, messages, tools, n))
    decreases MAX_TOOL_ROUNDS - from
  {
    if Continues(env, tools, from, WireAt(env, messages, tools, from)) then LastRound(env, messages, tools, from + 1)
    else from
  }

  lemma {:induction false} LastRoundIs(env: Env, messages: seq<WireMessage>, tools: seq<Schema>, from: nat, n: nat)
    requires from <= n < MAX_TOOL_ROUNDS
    requires forall r: nat :: from <= r < n ==> Continues(env, tools, r, WireAt(env, messages, tools, r))
    requires !Continues(env, tools, n, WireAt(env, messages, tools, n))
    ensures LastRound(env, messages, tools, from) == n
    decreases n - from
  {
    hide Continues, WireAt;
    if from < n { LastRoundIs(env, messages, tools, from + 1, n); }
  }

  /** A place in the run where a tool was invoked. */
  datatype Invocation = Invocation(round: nat, k: nat, call: Call)

  function InvocationsIn(env: Env, round: nat, calls: seq<Call>, upTo: nat): seq<Invocation>
    requires upTo <= |calls|
  {
    if upTo == 0 then []
    else
      InvocationsIn(env, round, calls, upTo - 1)
      + (if CallArgs(env, calls[upTo - 1]).Ok? then [Invocation(round, upTo - 1, calls[upTo - 1])] else [])
  }

  function ResultOf(i: Invocation, env: Env): InvokeResult {
    Dispatch(env, i.round, i.k, i.call)
  }

  // ---------- The closing reply ----------

  function NonBlank(content: Option<string>): Option<string> {
    if content.Some? && Trim(content.value) != "" then Some(Trim(content.value)) else None
  }

  function NewestAssistant(wire: seq<WireMessage>): Option<string> {
    if wire == [] then None
    else
      var m := wire[|wire| - 1];
      if m.Assistant? && NonBlank(m.text).Some? then NonBlank(m.text) else NewestAssistant(wire[..|wire| - 1])
  }

  function Clip(s: string): string {
    if |s| > 240 then s[..240] else s
  }

  /** The text of a tool message that is not blank, trimmed and clipped. */
  function Snippet(m: WireMessage): seq<string> {
    if m.Tool? && Trim(m.content) != "" then [Clip(Trim(m.content))] else []
  }

  /** Every tool text on the wire that is not blank, trimmed and clipped, in order. */
  function ToolTexts(wire: seq<WireMessage>): seq<string> {
    if wire == [] then []
    else Snippet(wire[0]) + ToolTexts(wire[1..])
  }

  function LastThree(texts: seq<string>): seq<string> {
    if |texts| <= 3 then texts else texts[|texts| - 3..]
  }

  function JoinLines(lines: seq<string>): string {
    JoinWith(lines, "\n")
  }

  function SoftFinalize(wire: seq<WireMessage>, lastContent: Option<string>): string {
    if NonBlank(lastContent).Some? then NonBlank(lastContent).value
    else if NewestAssistant(wire).Some? then NewestAssistant(wire).value
    else if ToolTexts(wire) == [] then "Tool budget reached before a final reply."
    else "Tool budget reached before a full reply. From tool results:\n" + JoinLines(LastThree(ToolTexts(wire)))
  }

  function Reverse(s: seq<string>): seq<string> {
    if s == [] then [] else Reverse(s[1..]) + [s[0]]
  }

  lemma {:induction false} ReverseSnoc(s: seq<string>, x: string)
    ensures Reverse(s + [x]) == [x] + Reverse(s)
    ensures |Reverse(s)| == |s|
  {
    if s == [] {
      assert [x][1..] == [];
    } else {
      assert (s + [x])[1..] == s[1..] + [x];
      ReverseSnoc(s[1..], x);
    }
  }

  lemma NewestStep(wire: seq<WireMessage>, i: nat)
    requires i < |wire|
    ensures NewestAssistant(wire[..i + 1]) ==
      if wire[i].Assistant? && NonBlank(wire[i].text).Some? then NonBlank(wire[i].text) else NewestAssistant(wire[..i])
  {
    assert wire[..i + 1][..i] == wire[..i];
  }

  lemma SnippetStep(wire: seq<WireMessage>, i: nat, snippets: seq<string>)
    requires i < |wire| && Reverse(snippets) == ToolTexts(wire[i + 1..])
    ensures Reverse(snippets + Snippet(wire[i])) == ToolTexts(wire[i..])
  {
    assert wire[i..][1..] == wire[i + 1..];
    if Snippet(wire[i]) == [] { assert snippets + [] == snippets; }
    else { ReverseSnoc(snippets, Snippet(wire[i])[0]); }
  }

  lemma EmptyWire()
    ensures NewestAssistant([]) == None && ToolTexts([]) == [] && Reverse([]) == []
  {
  }

  /** The newest three snippets, put back in order, are the last three texts of the wire. */
  lemma SnippetsAreLastThree(wire: seq<WireMessage>, i: nat, snippets: seq<string>)
    requires i <= |wire| && Reverse(snippets) == ToolTexts(wire[i..]) && |snippets| <= 3
    requires i == 0 || |snippets| == 3
    ensures Reverse(snippets) == LastThree(ToolTexts(wire))
    ensures ToolTexts(wire) == [] <==> Reverse(snippets) == []
  {
    ToolTextsSplit(wire, i);
    ReverseLength(snippets);
    EmptyWire();
    assert i == 0 ==> wire[..i] == [];
  }

  /** `soft_finalize`. */
  method SoftFinalizeReply(wire: seq<WireMessage>, lastContent: Option<string>) returns (text: string)
    ensures text == SoftFinalize(wire, lastContent)
  {
    hide NonBlank, NewestAssistant, ToolTexts, Reverse, Snippet, JoinLines, LastThree;
    EmptyWire();
    if NonBlank(lastContent).Some? {
      return NonBlank(lastContent).value;
    }
    var i := |wire|;
    assert wire[..i] == wire && wire[i..] == [];
    while i > 0
      invariant 0 <= i <= |wire| && NewestAssistant(wire[..i]) == NewestAssistant(wire)
    {
      i := i - 1;
      NewestStep(wire, i);
      if wire[i].Assistant? && NonBlank(wire[i].text).Some? {
        return NonBlank(wire[i].text).value;
      }
    }
    assert wire[..0] == [];
    var snippets: seq<string> := [];
    i := |wire|;
    while i > 0 && |snippets| < 3
      invariant 0 <= i <= |wire| && |snippets| <= 3 && Reverse(snippets) == ToolTexts(wire[i..])
    {
      i := i - 1;
      SnippetStep(wire, i, snippets);
      SnippetIsShort(wire[i]);
      snippets := snippets + Snippet(wire[i]);
    }
    SnippetsAreLastThree(wire, i, snippets);
    var ordered := Reverse(snippets);
    if ordered == [] {
      return "Tool budget reached before a final reply.";
    }
    return "Tool budget reached before a full reply. From tool results:\n" + JoinLines(ordered);
  }

  lemma SnippetIsShort(m: WireMessage)
    ensures |Snippet(m)| <= 1
  {
  }

  lemma {:induction false} ReverseLength(s: seq<string>)
    ensures |Reverse(s)| == |s|
  {
    if s != [] { ReverseLength(s[1..]); }
  }

  lemma ToolTextsSplit(wire: seq<WireMessage>, i: nat)
    requires i <= |wire|
    ensures ToolTexts(wire) == ToolTexts(wire[..i]) + ToolTexts(wire[i..])
  {
    hide ToolTexts;
    ToolTextsConcat(wire[..i], wire[i..]);
    assert wire == wire[..i] + wire[i..];
  }

  lemma {:induction false} ToolTextsConcat(a: seq<WireMessage>, b: seq<WireMessage>)
    ensures ToolTexts(a + b) == ToolTexts(a) + ToolTexts(b)
  {
    hide Snippet;
    if a == [] {
      assert a + b == b;
    } else {
      assert (a + b)[1..] == a[1..] + b;
      ToolTextsConcat(a[1..], b);
    }
  }

  // ---------- The loop ----------

  datatype Run = Run(
    result: Result<Reply, string>,
    wire: seq<WireMessage>,
    asked: seq<seq<Schema>>,
    invoked: seq<Invocation>)

  function PendingReply(p: PendingToolCall): Reply {
    Waiting("pending confirmation " + p.pendingId + " for " + p.name, p)
  }

  /** What the loop answers in its last round, whose wire is `wire`. */
  function Verdict(env: Env, tools: seq<Schema>, n: nat, wire: seq<WireMessage>): Result<Reply, string>
    requires n < MAX_TOOL_ROUNDS && !Continues(env, tools, n, wire)
  {
    if env.cancelled(n) then Ok(Said(SoftFinalize(wire, None)))
    else
      match env.turn(n, wire, RoundTools(tools, n))
      case Message(text) => Ok(Said(text))
      case Empty(error) => if n + 1 == MAX_TOOL_ROUNDS then Ok(Said(SoftFinalize(wire, None))) else Err(error)
      case Broken(error) => Err(error)
      case ToolCalls(content, calls) =>
        if n + 1 == MAX_TOOL_ROUNDS then Ok(Said(SoftFinalize(wire, content)))
        else
          var stop := FirstPending(env, n, calls, 0);
          Ok(PendingReply(Dispatch(env, n, stop, calls[stop]).pending))
  }

  /** The last round of a run stopped to wait for the operator. */
  predicate StopsPending(env: Env, tools: seq<Schema>, n: nat, wire: seq<WireMessage>) {
    && !env.cancelled(n)
    && n + 1 < MAX_TOOL_ROUNDS
    && var turn := env.turn(n, wire, RoundTools(tools, n));
    turn.ToolCalls? && FirstPending(env, n, turn.calls, 0) < |turn.calls|
  }

  /** All invocations of the rounds before `n`, in order. */
  function InvocationsBefore(env: Env, messages: seq<WireMessage>, tools: seq<Schema>, n: nat): seq<Invocation> {
    if n == 0 then []
    else
      var turn := env.turn(n - 1, WireAt(env, messages, tools, n - 1), RoundTools(tools, n - 1));
      InvocationsBefore(env, messages, tools, n - 1)
      + (if turn.ToolCalls? then InvocationsIn(env, n - 1, turn.calls, |turn.calls|) else [])
  }

  /** The run that returns in round `n`. */
  function RunEndingIn(env: Env, messages: seq<WireMessage>, tools: seq<Schema>, n: nat): Run
    requires n < MAX_TOOL_ROUNDS && !Continues(env, tools, n, WireAt(env, messages, tools, n))
  {
    var wire := WireAt(env, messages, tools, n);
    var asks := if env.cancelled(n) then n else n + 1;
    var turn := env.turn(n, wire, RoundTools(tools, n));
    var waits := StopsPending(env, tools, n, wire);
    Run(
      Verdict(env, tools, n, wire),
      wire + (if waits then Block(env, n, turn.content, turn.calls) else []),
      seq(asks, r requires 0 <= r < asks => RoundTools(tools, r)),
      InvocationsBefore(env, messages, tools, n)
      + (if waits then InvocationsIn(env, n, turn.calls, FirstPending(env, n, turn.calls, 0) + 1) else []))
  }

  function RunOf(env: Env, messages: seq<WireMessage>, tools: seq<Schema>): Run {
    RunEndingIn(env, messages, tools, LastRound(env, messages, tools, 0))
  }

  lemma ToolMessageCases(env: Env, round: nat, calls: seq<Call>, k: nat)
    requires k < |calls|
    ensures var stop := FirstPending(env, round, calls, 0);
      ToolMessage(env, round, calls, k) == Tool(calls[k].id,
        if k <= stop then Answer(Dispatch(env, round, k, calls[k]))
        else Skipped(Dispatch(env, round, stop, calls[stop]).pending))
  {
  }

  lemma BlockIs(env: Env, round: nat, content: Option<string>, calls: seq<Call>, block: seq<WireMessage>)
    requires |block| == |calls| + 1 && block[0] == Assistant(content, Some(calls))
    requires forall i: nat :: i < |calls| ==> block[i + 1] == ToolMessage(env, round, calls, i)
    ensures block == Block(env, round, content, calls)
  {
    hide ToolMessage;
    forall i | 1 <= i < |block| ensures block[i] == Block(env, round, content, calls)[i] {
      assert block[i - 1 + 1] == ToolMessage(env, round, calls, i - 1);
    }
  }

  /** One round's calls: dispatched until one is left waiting, then only answered. */
  method RunCalls(env: Env, round: nat, content: Option<string>, calls: seq<Call>)
    returns (block: seq<WireMessage>, invoked: seq<Invocation>, pendingStop: Option<PendingToolCall>)
    ensures block == Block(env, round, content, calls)
    ensures var stop := FirstPending(env, round, calls, 0);
      if stop == |calls| then pendingStop == None && invoked == InvocationsIn(env, round, calls, stop)
      else
        && pendingStop == Some(Dispatch(env, round, stop, calls[stop]).pending)
        && invoked == InvocationsIn(env, round, calls, stop + 1)
  {
    hide ToolMessage, Skipped, Answer, Dispatch, FirstPending, Block;
    block := [Assistant(content, Some(calls))];
    invoked := [];
    pendingStop := None;
    ghost var stop := FirstPending(env, round, calls, 0);
    for k := 0 to |calls|
      invariant |block| == k + 1 && block[0] == Assistant(content, Some(calls))
      invariant forall i: nat :: i < k ==> block[i + 1] == ToolMessage(env, round, calls, i)
      invariant pendingStop.Some? <==> stop < k
      invariant stop < k ==> pendingStop == Some(Dispatch(env, round, stop, calls[stop]).pending)
      invariant invoked == InvocationsIn(env, round, calls, if stop < k then stop + 1 else k)
    {
      var call := calls[k];
      ToolMessageCases(env, round, calls, k);
      if pendingStop.Some? {
        block := block + [Tool(call.id, Skipped(pendingStop.value))];
        continue;
      }
      if CallArgs(env, call).Ok? {
        invoked := invoked + [Invocation(round, k, call)];
      }
      var result := Dispatch(env, round, k, call);
      block := block + [Tool(call.id, Answer(result))];
      if result.Pending? {
        pendingStop := Some(result.pending);
      }
    }
    BlockIs(env, round, content, calls, block);
  }

  lemma StepOn(env: Env, messages: seq<WireMessage>, tools: seq<Schema>, r: nat)
    requires Continues(env, tools, r, WireAt(env, messages, tools, r))
    ensures var turn := env.turn(r, WireAt(env, messages, tools, r), RoundTools(tools, r));
      && WireAt(env, messages, tools, r + 1) == WireAt(env, messages, tools, r) + Block(env, r, turn.content, turn.calls)
      && InvocationsBefore(env, messages, tools, r + 1)
        == InvocationsBefore(env, messages, tools, r) + InvocationsIn(env, r, turn.calls, |turn.calls|)
  {
    hide Block, InvocationsIn, FirstPending;
  }

  lemma FirstRound(env: Env, messages: seq<WireMessage>, tools: seq<Schema>)
    ensures WireAt(env, messages, tools, 0) == messages && InvocationsBefore(env, messages, tools, 0) == []
  {
  }

  lemma AskedSnoc(tools: seq<Schema>, n: nat)
    ensures seq(n + 1, r requires 0 <= r < n + 1 => RoundTools(tools, r))
      == seq(n, r requires 0 <= r < n => RoundTools(tools, r)) + [RoundTools(tools, n)]
  {
  }

  /** `run_tool_loop_with_hooks`. It returns in some round of the six; there is no way past the last. */
  method RunToolLoop(env: Env, messages: seq<WireMessage>, tools: seq<Schema>)
    returns (run: Run)
    ensures run == RunOf(env, messages, tools)
  {
    hide LastRound, Block, WireAt, InvocationsBefore, InvocationsIn, SoftFinalize, FirstPending;
    FirstRound(env, messages, tools);
    var wire, asked, invoked := messages, [], [];
    for round := 0 to MAX_TOOL_ROUNDS
      invariant round < MAX_TOOL_ROUNDS
      invariant forall r: nat :: r < round ==> Continues(env, tools, r, WireAt(env, messages, tools, r))
      invariant wire == WireAt(env, messages, tools, round)
      invariant asked == seq(round, r requires 0 <= r < round => RoundTools(tools, r))
      invariant invoked == InvocationsBefore(env, messages, tools, round)
    {
      if !Continues(env, tools, round, wire) { LastRoundIs(env, messages, tools, 0, round); }
      var last := round + 1 == MAX_TOOL_ROUNDS;
      var roundTools := if last then [] else tools;
      if env.cancelled(round) {
        var text := SoftFinalizeReply(wire, None);
        return Run(Ok(Said(text)), wire, asked, invoked);
      }
      AskedSnoc(tools, round);
      asked := asked + [roundTools];
      match env.turn(round, wire, roundTools) {
        case Message(text) => return Run(Ok(Said(text)), wire, asked, invoked);
        case Broken(error) => return Run(Err(error), wire, asked, invoked);
        case Empty(error) =>
          if last {
            var text := SoftFinalizeReply(wire, None);
            return Run(Ok(Said(text)), wire, asked, invoked);
          }
          return Run(Err(error), wire, asked, invoked);
        case ToolCalls(content, calls) =>
          if last {
            var text := SoftFinalizeReply(wire, content);
            return Run(Ok(Said(text)), wire, asked, invoked);
          }
          var block, ran, pendingStop := RunCalls(env, round, content, calls);
          wire := wire + block;
          invoked := invoked + ran;
          if pendingStop.Some? {
            return Run(Ok(PendingReply(pendingStop.value)), wire, asked, invoked);
          }
          StepOn(env, messages, tools, round);
      }
    }
    assert false;
  }

  // ---------- Main results ----------

  /** One of the first `upTo` calls of a round; and if it waits, no earlier call of the round does. */
  ghost predicate IsCallOf(env: Env, inv: Invocation, round: nat, calls: seq<Call>, upTo: nat)
    requires upTo <= |calls|
  {
    && inv.round == round && inv.k < upTo && inv.call == calls[inv.k]
    && (ResultOf(inv, env).Pending? ==> FirstPending(env, round, calls, 0) <= inv.k)
  }

  lemma {:induction false} InvocationsOfRound(env: Env, round: nat, calls: seq<Call>, upTo: nat)
    requires upTo <= |calls|
    ensures forall inv <- InvocationsIn(env, round, calls, upTo) :: IsCallOf(env, inv, round, calls, upTo)
  {
    if upTo > 0 {
      InvocationsOfRound(env, round, calls, upTo - 1);
      forall inv <- InvocationsIn(env, round, calls, upTo) ensures IsCallOf(env, inv, round, calls, upTo) {
        if inv in InvocationsIn(env, round, calls, upTo - 1) {
          assert IsCallOf(env, inv, round, calls, upTo - 1);
        }
      }
    }
  }

  /** Made before round `n`, with tools still offered, and not left waiting. */
  ghost predicate IsSettled(env: Env, inv: Invocation, n: nat) {
    inv.round < n && inv.round + 1 < MAX_TOOL_ROUNDS && !ResultOf(inv, env).Pending?
  }

  lemma RoundSettles(env: Env, earlier: seq<Invocation>, round: nat, calls: seq<Call>)
    requires forall inv <- earlier :: IsSettled(env, inv, round)
    requires round + 1 < MAX_TOOL_ROUNDS && FirstPending(env, round, calls, 0) == |calls|
    ensures forall inv <- earlier + InvocationsIn(env, round, calls, |calls|) :: IsSettled(env, inv, round + 1)
  {
    hide InvocationsIn, FirstPending, Dispatch;
    InvocationsOfRound(env, round, calls, |calls|);
    forall inv <- earlier + InvocationsIn(env, round, calls, |calls|) ensures IsSettled(env, inv, round + 1) {
      if inv in earlier { assert IsSettled(env, inv, round); }
      else { assert IsCallOf(env, inv, round, calls, |calls|); }
    }
  }

  /** Rounds that go on leave nothing pending. */
  lemma {:induction false} EarlierInvocations(env: Env, messages: seq<WireMessage>, tools: seq<Schema>, n: nat)
    requires forall r: nat :: r < n ==> Continues(env, tools, r, WireAt(env, messages, tools, r))
    ensures forall inv <- InvocationsBefore(env, messages, tools, n) :: IsSettled(env, inv, n)
  {
    hide InvocationsIn, InvocationsBefore, WireAt, Block, IsSettled, FirstPending;
    if n > 0 {
      var wire := WireAt(env, messages, tools, n - 1);
      assert Continues(env, tools, n - 1, wire);
      EarlierInvocations(env, messages, tools, n - 1);
      StepOn(env, messages, tools, n - 1);
      RoundSettles(env, InvocationsBefore(env, messages, tools, n - 1), n - 1,
        env.turn(n - 1, wire, RoundTools(tools, n - 1)).calls);
    } else {
      FirstRound(env, messages, tools);
    }
  }

  /** All invocations of a run but a waiting last one are settled, and that one ends the run. */
  lemma InvocationsOfRun(env: Env, messages: seq<WireMessage>, tools: seq<Schema>)
    returns (settled: seq<Invocation>)
    ensures forall inv <- settled :: inv.round + 1 < MAX_TOOL_ROUNDS && !ResultOf(inv, env).Pending?
    ensures var n := LastRound(env, messages, tools, 0);
      var run, wire := RunOf(env, messages, tools), WireAt(env, messages, tools, n);
      if StopsPending(env, tools, n, wire) then
        var calls := env.turn(n, wire, RoundTools(tools, n)).calls;
        var stop := FirstPending(env, n, calls, 0);
        run.invoked == settled + [Invocation(n, stop, calls[stop])]
      else run.invoked == settled
  {
    hide InvocationsBefore, WireAt, Block, Verdict;
    var n := LastRound(env, messages, tools, 0);
    EarlierInvocations(env, messages, tools, n);
    settled := InvocationsBefore(env, messages, tools, n);
    forall inv <- settled ensures inv.round + 1 < MAX_TOOL_ROUNDS && !ResultOf(inv, env).Pending? {
      assert IsSettled(env, inv, n);
    }
    var wire := WireAt(env, messages, tools, n);
    if StopsPending(env, tools, n, wire) {
      var calls := env.turn(n, wire, RoundTools(tools, n)).calls;
      var stop := FirstPending(env, n, calls, 0);
      var before := InvocationsIn(env, n, calls, stop);
      InvocationsOfRound(env, n, calls, stop);
      forall inv <- before ensures inv.round + 1 < MAX_TOOL_ROUNDS && !ResultOf(inv, env).Pending? {
        assert IsCallOf(env, inv, n, calls, stop);
      }
      assert InvocationsIn(env, n, calls, stop + 1) == before + [Invocation(n, stop, calls[stop])];
      settled := settled + before;
    }
  }

  /** At most six turns are asked for, the sixth without tools, and tools run only in the first five rounds. */
  lemma AtMostSixTurns(env: Env, messages: seq<WireMessage>, tools: seq<Schema>)
    ensures var run := RunOf(env, messages, tools);
      && |run.asked| <= MAX_TOOL_ROUNDS
      && (forall r :: 0 <= r < |run.asked| ==> run.asked[r] == if r == MAX_TOOL_ROUNDS - 1 then [] else tools)
      && (forall inv <- run.invoked :: inv.round + 1 < MAX_TOOL_ROUNDS)
  {
    var settled := InvocationsOfRun(env, messages, tools);
  }

  /**
   Nothing is invoked after a result that waits for the operator, and the run
   waits exactly when some invocation did: for that one.
   */
  lemma WaitsExactlyForThePendingCall(env: Env, messages: seq<WireMessage>, tools: seq<Schema>)
    ensures var run := RunOf(env, messages, tools);
      && (forall i :: 0 <= i < |run.invoked| && ResultOf(run.invoked[i], env).Pending? ==> i == |run.invoked| - 1)
      && ((run.result.Ok? && run.result.value.Waiting?) <==>
          (run.invoked != [] && ResultOf(run.invoked[|run.invoked| - 1], env).Pending?))
      && (run.result.Ok? && run.result.value.Waiting? ==>
          run.result.value.pending == ResultOf(run.invoked[|run.invoked| - 1], env).pending)
  {
    hide WireAt, Block, SoftFinalize, InvocationsBefore, InvocationsIn;
    var settled := InvocationsOfRun(env, messages, tools);
    assert forall i :: 0 <= i < |settled| ==> settled[i] in settled;
  }

  /** How many messages belong together: a request for tools and its answers, or a single turn. */
  function GroupSize(m: WireMessage): nat {
    if m.Assistant? && m.calls.Some? then |m.calls.value| + 1 else 1
  }

  /** A turn, or a request followed by one answer per call, ids matching, in the order of the calls. */
  predicate StartsAnswered(wire: seq<WireMessage>)
    requires wire != []
  {
    && !wire[0].Tool?
    && |wire| >= GroupSize(wire[0])
    && forall k :: 1 <= k < GroupSize(wire[0]) ==> wire[k].Tool? && wire[k].callId == wire[0].calls.value[k - 1].id
  }

  predicate WellAnswered(wire: seq<WireMessage>)
    decreases |wire|
  {
    wire == [] || (StartsAnswered(wire) && WellAnswered(wire[GroupSize(wire[0])..]))
  }

  lemma StartsAnsweredStill(a: seq<WireMessage>, b: seq<WireMessage>)
    requires a != [] && StartsAnswered(a)
    ensures StartsAnswered(a + b)
  {
    forall k | 1 <= k < GroupSize(a[0]) ensures (a + b)[k].Tool? && (a + b)[k].callId == a[0].calls.value[k - 1].id {
      assert (a + b)[k] == a[k];
    }
  }

  lemma {:induction false} WellAnsweredConcat(a: seq<WireMessage>, b: seq<WireMessage>)
    requires WellAnswered(a) && WellAnswered(b)
    ensures WellAnswered(a + b)
    decreases |a|
  {
    if a == [] {
      assert a + b == b;
    } else {
      var size := GroupSize(a[0]);
      StartsAnsweredStill(a, b);
      WellAnsweredConcat(a[size..], b);
      assert (a + b)[size..] == a[size..] + b;
    }
  }

  lemma BlockIsWellAnswered(env: Env, round: nat, content: Option<string>, calls: seq<Call>)
    ensures WellAnswered(Block(env, round, content, calls))
  {
    var block := Block(env, round, content, calls);
    assert block[|calls| + 1..] == [];
    forall k | 1 <= k < |calls| + 1 ensures block[k].Tool? && block[k].callId == calls[k - 1].id {
      assert block[k] == ToolMessage(env, round, calls, k - 1);
    }
  }

  lemma {:induction false} WireStaysAnswered(env: Env, messages: seq<WireMessage>, tools: seq<Schema>, n: nat)
    requires WellAnswered(messages)
    ensures WellAnswered(WireAt(env, messages, tools, n))
  {
    hide Block;
    if n > 0 {
      WireStaysAnswered(env, messages, tools, n - 1);
      var before := WireAt(env, messages, tools, n - 1);
      var turn := env.turn(n - 1, before, RoundTools(tools, n - 1));
      if turn.ToolCalls? {
        BlockIsWellAnswered(env, n - 1, turn.content, turn.calls);
        WellAnsweredConcat(before, Block(env, n - 1, turn.content, turn.calls));
      } else {
        assert before + [] == before;
      }
    }
  }

  /** The session turns a loop starts from carry no tool calls. */
  predicate IsPlain(messages: seq<WireMessage>) {
    forall i :: 0 <= i < |messages| ==> messages[i].User? || (messages[i].Assistant? && messages[i].calls == None)
  }

  lemma {:induction false} PlainIsWellAnswered(messages: seq<WireMessage>)
    requires IsPlain(messages)
    ensures WellAnswered(messages)
  {
    if messages != [] { PlainIsWellAnswered(messages[1..]); }
  }

  /** However the run ends, no tool call on the wire is left unanswered, answered twice or out of order. */
  lemma EveryCallIsAnswered(env: Env, messages: seq<WireMessage>, tools: seq<Schema>)
    requires IsPlain(messages)
    ensures WellAnswered(RunOf(env, messages, tools).wire)
  {
    hide Block, WellAnswered;
    var n := LastRound(env, messages, tools, 0);
    PlainIsWellAnswered(messages);
    WireStaysAnswered(env, messages, tools, n);
    var wire := WireAt(env, messages, tools, n);
    var turn := env.turn(n, wire, RoundTools(tools, n));
    if StopsPending(env, tools, n, wire) {
      BlockIsWellAnswered(env, n, turn.content, turn.calls);
      WellAnsweredConcat(wire, Block(env, n, turn.content, turn.calls));
    } else {
      assert wire + [] == wire;
    }
  }

  // ---------- What the closing reply says ----------

  predicate IsQuotable(m: WireMessage) {
    m.Tool? && Trim(m.content) != ""
  }

  predicate SpeaksUp(m: WireMessage) {
    m.Assistant? && NonBlank(m.text).Some?
  }

  /** The positions of the tool messages that are not blank, in order. */
  function Quotable(wire: seq<WireMessage>): seq<nat> {
    if wire == [] then []
    else
      var k := |wire| - 1;
      Quotable(wire[..k]) + (if IsQuotable(wire[k]) then [k] else [])
  }

  predicate QuotesFrom(wire: seq<WireMessage>, places: seq<nat>) {
    && (forall k :: 0 <= k < |places| ==> places[k] < |wire| && IsQuotable(wire[places[k]]))
    && (forall j, k :: 0 <= j < k < |places| ==> places[j] < places[k])
  }

  function Quotes(wire: seq<WireMessage>, places: seq<nat>): (r: seq<string>)
    requires QuotesFrom(wire, places)
    ensures |r| == |places| && forall k :: 0 <= k < |r| ==> r[k] == Beginning(Trim(wire[places[k]].content))
  {
    seq(|places|, k requires 0 <= k < |places| => Beginning(Trim(wire[places[k]].content)))
  }

  /** The first 240 characters, or all there are. */
  function Beginning(s: string): string {
    s[..if |s| < 240 then |s| else 240]
  }

  lemma {:induction false} QuotableAreAll(wire: seq<WireMessage>)
    ensures QuotesFrom(wire, Quotable(wire))
    ensures forall i: nat :: i < |wire| && IsQuotable(wire[i]) ==> i in Quotable(wire)
  {
    hide IsQuotable, QuotesFrom;
    if wire == [] {
      NoQuotes();
    } else {
      var k := |wire| - 1;
      var before := Quotable(wire[..k]);
      QuotableAreAll(wire[..k]);
      QuotesFromLonger(wire, before);
      assert before + [] == before;
      forall i: nat | i < |wire| && IsQuotable(wire[i]) ensures i in Quotable(wire) {
        if i < k { assert wire[..k][i] == wire[i]; }
      }
    }
  }

  lemma NoQuotes()
    ensures QuotesFrom([], [])
  {
  }

  lemma QuotesFromLonger(wire: seq<WireMessage>, before: seq<nat>)
    requires wire != [] && QuotesFrom(wire[..|wire| - 1], before)
    ensures QuotesFrom(wire, before)
    ensures IsQuotable(wire[|wire| - 1]) ==> QuotesFrom(wire, before + [|wire| - 1])
  {
    hide IsQuotable;
    var front := wire[..|wire| - 1];
    assert forall k :: 0 <= k < |before| ==> front[before[k]] == wire[before[k]];
  }

  lemma {:induction false} QuotesAreTexts(wire: seq<WireMessage>)
    requires QuotesFrom(wire, Quotable(wire))
    ensures Quotes(wire, Quotable(wire)) == ToolTexts(wire)
  {
    hide Trim, Clip, QuotesFrom;
    if wire != [] {
      var k := |wire| - 1;
      QuotableAreAll(wire[..k]);
      QuotesAreTexts(wire[..k]);
      ToolTextsSplit(wire, k);
      OneText(wire[k]);
      assert wire[k..] == [wire[k]];
      QuotesOneMore(wire, Quotable(wire[..k]));
    }
  }

  lemma ClipIsBeginning(s: string)
    ensures Clip(s) == Beginning(s)
  {
  }

  lemma QuotesOneMore(wire: seq<WireMessage>, before: seq<nat>)
    requires wire != [] && QuotesFrom(wire[..|wire| - 1], before)
    requires var last := |wire| - 1; QuotesFrom(wire, before + (if IsQuotable(wire[last]) then [last] else []))
    ensures var last := |wire| - 1;
      Quotes(wire, before + (if IsQuotable(wire[last]) then [last] else [])) == Quotes(wire[..last], before) + Snippet(wire[last])
  {
    if wire[|wire| - 1].Tool? { ClipIsBeginning(Trim(wire[|wire| - 1].content)); }
    hide Trim, Clip, Beginning;
    var last := |wire| - 1;
    var all := before + (if IsQuotable(wire[last]) then [last] else []);
    assert forall k :: 0 <= k < |before| ==> all[k] == before[k] && wire[..last][before[k]] == wire[before[k]];
  }

  lemma OneText(m: WireMessage)
    ensures ToolTexts([m]) == Snippet(m)
  {
    assert [m][1..] == [] && Snippet(m) + [] == Snippet(m);
  }

  lemma {:induction false} NewestIsLast(wire: seq<WireMessage>)
    ensures NewestAssistant(wire).None? ==> forall i :: 0 <= i < |wire| ==> !SpeaksUp(wire[i])
    ensures NewestAssistant(wire).Some? ==> exists i :: IsNewest(wire, i, NewestAssistant(wire).value)
  {
    hide NonBlank;
    if wire != [] {
      var k := |wire| - 1;
      if SpeaksUp(wire[k]) {
        assert IsNewest(wire, k, NewestAssistant(wire).value);
      } else {
        NewestIsLast(wire[..k]);
        if NewestAssistant(wire).Some? {
          var i :| IsNewest(wire[..k], i, NewestAssistant(wire[..k]).value);
          assert IsNewest(wire, i, NewestAssistant(wire).value);
        }
      }
    }
  }

  /** `text` is what the assistant said at `i`, and nothing was said after it. */
  ghost predicate IsNewest(wire: seq<WireMessage>, i: int, text: string) {
    && 0 <= i < |wire| && SpeaksUp(wire[i]) && NonBlank(wire[i].text) == Some(text)
    && forall j :: i < j < |wire| ==> !SpeaksUp(wire[j])
  }

  /** The newest three tool messages that are not blank, or as many as there are. */
  ghost predicate NewestThree(wire: seq<WireMessage>, places: seq<nat>) {
    && QuotesFrom(wire, places) && |places| <= 3
    && forall i: nat :: i < |wire| && IsQuotable(wire[i]) && i !in places ==> |places| == 3 && i < places[0]
  }

  /**
   The closing reply invents nothing. It is the last content; else what the
   assistant said last on the wire; else the beginnings of the newest three tool
   messages in their order; and a fixed sentence where there is none of these.
   */
  lemma ClosingReplyOnlyQuotes(wire: seq<WireMessage>, lastContent: Option<string>) returns (places: seq<nat>)
    ensures NewestThree(wire, places)
    ensures var text := SoftFinalize(wire, lastContent);
      if NonBlank(lastContent).Some? then text == NonBlank(lastContent).value
      else if exists i :: 0 <= i < |wire| && SpeaksUp(wire[i]) then exists i :: IsNewest(wire, i, text)
      else if exists i :: 0 <= i < |wire| && IsQuotable(wire[i]) then
        text == "Tool budget reached before a full reply. From tool results:\n" + JoinWith(Quotes(wire, places), "\n")
      else text == "Tool budget reached before a final reply."
  {
    hide NewestThree, QuotesFrom, IsQuotable, SpeaksUp, NonBlank, JoinWith, ToolTexts, NewestAssistant, IsNewest, LastThree;
    NewestIsLast(wire);
    NewestSpeaksUp(wire);
    places := NewestPlaces(wire);
    var text := SoftFinalize(wire, lastContent);
    if NonBlank(lastContent).Some? {
      assert text == NonBlank(lastContent).value;
    } else if NewestAssistant(wire).Some? {
      assert text == NewestAssistant(wire).value;
      var i :| IsNewest(wire, i, text);
      assert 0 <= i < |wire| && SpeaksUp(wire[i]);
      assert exists i :: IsNewest(wire, i, text);
    } else if ToolTexts(wire) == [] {
      assert text == "Tool budget reached before a final reply.";
      assert !exists i :: 0 <= i < |wire| && IsQuotable(wire[i]);
    } else {
      assert text == "Tool budget reached before a full reply. From tool results:\n" + JoinLines(LastThree(ToolTexts(wire)));
    }
  }

  lemma NewestSpeaksUp(wire: seq<WireMessage>)
    ensures forall i, text :: IsNewest(wire, i, text) ==> 0 <= i < |wire| && SpeaksUp(wire[i])
  {
  }

  lemma NewestPlaces(wire: seq<WireMessage>) returns (places: seq<nat>)
    ensures NewestThree(wire, places) && QuotesFrom(wire, places)
    ensures Quotes(wire, places) == LastThree(ToolTexts(wire))
    ensures ToolTexts(wire) != [] <==> exists i :: 0 <= i < |wire| && IsQuotable(wire[i])
  {
    hide ToolTexts, Quotable, IsQuotable, Quotes, QuotesFrom, LastThree, NewestThree;
    QuotableAreAll(wire);
    QuotesAreTexts(wire);
    var all := Quotable(wire);
    places := if |all| <= 3 then all else all[|all| - 3..];
    NewestOfAll(wire, all, places);
    QuotesOfNewest(wire, all, places);
  }

  lemma QuotesOfNewest(wire: seq<WireMessage>, all: seq<nat>, places: seq<nat>)
    requires QuotesFrom(wire, all) && places == if |all| <= 3 then all else all[|all| - 3..]
    requires forall i: nat :: i < |wire| && IsQuotable(wire[i]) ==> i in all
    ensures QuotesFrom(wire, places) && Quotes(wire, places) == LastThree(Quotes(wire, all))
    ensures Quotes(wire, all) != [] <==> exists i :: 0 <= i < |wire| && IsQuotable(wire[i])
  {
    hide Clip, Trim, Beginning;
    SuffixQuotes(wire, all, |all| - |places|);
    hide IsQuotable;
    if all != [] { assert IsQuotable(wire[all[0]]); }
  }

  lemma SuffixQuotes(wire: seq<WireMessage>, all: seq<nat>, skipped: nat)
    requires QuotesFrom(wire, all) && skipped <= |all|
    ensures QuotesFrom(wire, all[skipped..]) && Quotes(wire, all[skipped..]) == Quotes(wire, all)[skipped..]
  {
    hide Clip, Trim, IsQuotable, Beginning;
  }

  lemma NewestOfAll(wire: seq<WireMessage>, all: seq<nat>, places: seq<nat>)
    requires QuotesFrom(wire, all) && places == if |all| <= 3 then all else all[|all| - 3..]
    requires forall i: nat :: i < |wire| && IsQuotable(wire[i]) ==> i in all
    ensures NewestThree(wire, places)
  {
    hide IsQuotable;
    forall i: nat | i < |wire| && IsQuotable(wire[i]) && i !in places ensures |places| == 3 && i < places[0] {
      SkippedAreOlder(all, |all| - |places|, i);
    }
  }

  lemma SkippedAreOlder(all: seq<nat>, skipped: nat, i: nat)
    requires skipped <= |all| && i in all && i !in all[skipped..]
    requires forall j, k :: 0 <= j < k < |all| ==> all[j] < all[k]
    ensures skipped > 0 && (skipped < |all| ==> i < all[skipped])
  {
    var k :| 0 <= k < |all| && all[k] == i;
    assert forall m :: skipped <= m < |all| ==> all[m] in all[skipped..];
    assert k < skipped;
  }

  // ---------- The run as its environment saw it ----------

  /** A call's own outcome: invoked on its parsed arguments, an MCP tool on the raw ones, or failed as unparsed. */
  function Outcome(env: Env, round: nat, k: nat, call: Call): InvokeResult {
    match env.parseArgs(call)
    case Ok(args) => env.invoke(round, k, call.name, args)
    case Err(message) =>
      if env.isMcpTool(call.name) then env.invoke(round, k, call.name, [call.arguments]) else Failed(message)
  }

  predicate IsInvoked(env: Env, call: Call) {
    env.parseArgs(call).Ok? || env.isMcpTool(call.name)
  }

  /** `stop` is the first call of the round that waits for the operator, or the number of calls. */
  predicate IsStop(env: Env, round: nat, calls: seq<Call>, stop: nat) {
    && stop <= |calls|
    && (forall k :: 0 <= k < stop ==> !Outcome(env, round, k, calls[k]).Pending?)
    && (stop < |calls| ==> Outcome(env, round, stop, calls[stop]).Pending?)
  }

  /** What a tool message says: the detail, the failure, that the call waits, or that it was skipped for one that does. */
  function Saying(env: Env, round: nat, calls: seq<Call>, stop: nat, k: nat): string
    requires k < |calls| && IsStop(env, round, calls, stop)
  {
    if k > stop then
      var p := Outcome(env, round, stop, calls[stop]).pending;
      "skipped: confirmation " + p.pendingId + " for " + p.name + " is already pending"
    else
      match Outcome(env, round, k, calls[k])
      case Ran(detail) => detail
      case Failed(message) => message
      case Pending(p) => "pending confirmation " + p.pendingId + ": waiting for operator Approve"
  }

  /** A request for tools and its answers, each call's own under its own id, in order. */
  predicate Answers(env: Env, round: nat, content: Option<string>, calls: seq<Call>, stop: nat, block: seq<WireMessage>) {
    && IsStop(env, round, calls, stop)
    && |block| == |calls| + 1 && block[0] == Assistant(content, Some(calls))
    && forall k :: 0 <= k < |calls| ==> block[k + 1] == Tool(calls[k].id, Saying(env, round, calls, stop, k))
  }

  lemma DispatchIsOutcome(env: Env, round: nat, k: nat, call: Call)
    ensures Dispatch(env, round, k, call) == Outcome(env, round, k, call)
    ensures CallArgs(env, call).Ok? <==> IsInvoked(env, call)
  {
  }

  lemma FirstPendingIsStop(env: Env, round: nat, calls: seq<Call>)
    ensures IsStop(env, round, calls, FirstPending(env, round, calls, 0))
  {
    hide Dispatch, Outcome;
    var stop := FirstPending(env, round, calls, 0);
    forall k: nat | k < |calls| ensures Dispatch(env, round, k, calls[k]) == Outcome(env, round, k, calls[k]) {
      DispatchIsOutcome(env, round, k, calls[k]);
    }
  }

  lemma BlockAnswers(env: Env, round: nat, content: Option<string>, calls: seq<Call>)
    ensures Answers(env, round, content, calls, FirstPending(env, round, calls, 0), Block(env, round, content, calls))
  {
    hide Dispatch, Outcome, FirstPending, IsStop;
    var stop, block := FirstPending(env, round, calls, 0), Block(env, round, content, calls);
    FirstPendingIsStop(env, round, calls);
    forall k | 0 <= k < |calls| ensures block[k + 1] == Tool(calls[k].id, Saying(env, round, calls, stop, k)) {
      ToolMessageCases(env, round, calls, k);
      DispatchIsOutcome(env, round, k, calls[k]);
      if k > stop { DispatchIsOutcome(env, round, stop, calls[stop]); }
    }
  }

  /** A round that goes on: asked with the tools, it called some, all were answered, and none waits. */
  ghost predicate GoesOn(env: Env, tools: seq<Schema>, round: nat, wire: seq<WireMessage>, wire': seq<WireMessage>) {
    && !env.cancelled(round)
    && var turn := env.turn(round, wire, tools);
    && turn.ToolCalls?
    && exists block :: Answers(env, round, turn.content, turn.calls, |turn.calls|, block) && wire' == wire + block
  }

  /** How the last round of a run ends it. */
  ghost predicate EndsWith(env: Env, tools: seq<Schema>, n: nat, wire: seq<WireMessage>, run: Run) {
    if env.cancelled(n) then
      run.result == Ok(Said(SoftFinalize(wire, None))) && run.wire == wire
    else
      match env.turn(n, wire, if n == 5 then [] else tools)
      case Message(text) => run.result == Ok(Said(text)) && run.wire == wire
      case Broken(error) => run.result == Err(error) && run.wire == wire
      case Empty(error) =>
        run.result == (if n == 5 then Ok(Said(SoftFinalize(wire, None))) else Err(error)) && run.wire == wire
      case ToolCalls(content, calls) =>
        if n == 5 then
          run.result == Ok(Said(SoftFinalize(wire, content))) && run.wire == wire
        else
          Waits(env, n, content, calls, wire, run)
  }

  ghost predicate Waits(env: Env, n: nat, content: Option<string>, calls: seq<Call>, wire: seq<WireMessage>, run: Run) {
    exists stop: nat, block :: WaitsAt(env, n, content, calls, wire, run, stop, block)
  }

  /** All calls of the round answered, and the run left waiting for the first that waits. */
  predicate WaitsAt(
    env: Env, n: nat, content: Option<string>, calls: seq<Call>, wire: seq<WireMessage>, run: Run, stop: nat, block: seq<WireMessage>)
  {
    && stop < |calls| && Answers(env, n, content, calls, stop, block) && run.wire == wire + block
    && var p := Outcome(env, n, stop, calls[stop]).pending;
    run.result == Ok(Waiting("pending confirmation " + p.pendingId + " for " + p.name, p))
  }

  /**
   Whatever the environment does, the run is a story of at most six rounds: it
   starts on the messages given, every round but the last goes on, and the last
   ends it as its own turn says.
   */
  lemma RunIsItsStory(env: Env, messages: seq<WireMessage>, tools: seq<Schema>) returns (wires: seq<seq<WireMessage>>)
    ensures 1 <= |wires| <= 6 && wires[0] == messages
    ensures forall r :: 0 <= r < |wires| - 1 ==> GoesOn(env, tools, r, wires[r], wires[r + 1])
    ensures EndsWith(env, tools, |wires| - 1, wires[|wires| - 1], RunOf(env, messages, tools))
    ensures |RunOf(env, messages, tools).asked| == |wires| - (if env.cancelled(|wires| - 1) then 1 else 0)
  {
    hide WireAt, Answers, Block, FirstPending, SoftFinalize, Outcome, Dispatch;
    var n := LastRound(env, messages, tools, 0);
    wires := seq(n + 1, r requires 0 <= r <= n => WireAt(env, messages, tools, r));
    FirstRound(env, messages, tools);
    forall r | 0 <= r < n ensures GoesOn(env, tools, r, wires[r], wires[r + 1]) {
      assert Continues(env, tools, r, WireAt(env, messages, tools, r));
      StepOn(env, messages, tools, r);
      var turn := env.turn(r, wires[r], tools);
      BlockAnswers(env, r, turn.content, turn.calls);
    }
    EndsAsItsTurn(env, messages, tools, n);
  }

  lemma EndsAsItsTurn(env: Env, messages: seq<WireMessage>, tools: seq<Schema>, n: nat)
    requires n == LastRound(env, messages, tools, 0)
    ensures EndsWith(env, tools, n, WireAt(env, messages, tools, n), RunOf(env, messages, tools))
  {
    hide WireAt, LastRound, Block, SoftFinalize, Dispatch, FirstPending, Outcome, Answers, Waits;
    var wire := WireAt(env, messages, tools, n);
    var turn := env.turn(n, wire, RoundTools(tools, n));
    assert wire + [] == wire;
    if StopsPending(env, tools, n, wire) { WaitsAsItsTurn(env, messages, tools, n); }
  }

  lemma WaitsAsItsTurn(env: Env, messages: seq<WireMessage>, tools: seq<Schema>, n: nat)
    requires n == LastRound(env, messages, tools, 0) && StopsPending(env, tools, n, WireAt(env, messages, tools, n))
    ensures var wire := WireAt(env, messages, tools, n);
      var turn := env.turn(n, wire, RoundTools(tools, n));
      Waits(env, n, turn.content, turn.calls, wire, RunOf(env, messages, tools))
  {
    hide WireAt, LastRound, Block, SoftFinalize, Dispatch, FirstPending, Outcome, Answers;
    var wire := WireAt(env, messages, tools, n);
    var turn := env.turn(n, wire, RoundTools(tools, n));
    var stop := FirstPending(env, n, turn.calls, 0);
    BlockAnswers(env, n, turn.content, turn.calls);
    AnswersHaveStop(env, n, turn.content, turn.calls, stop, Block(env, n, turn.content, turn.calls));
    DispatchIsOutcome(env, n, stop, turn.calls[stop]);
    assert WaitsAt(env, n, turn.content, turn.calls, wire, RunOf(env, messages, tools), stop, Block(env, n, turn.content, turn.calls));
  }

  lemma AnswersHaveStop(env: Env, n: nat, content: Option<string>, calls: seq<Call>, stop: nat, block: seq<WireMessage>)
    requires Answers(env, n, content, calls, stop, block) && stop < |calls|
    ensures Outcome(env, n, stop, calls[stop]).Pending?
  {
  }

  /** The invocations of a round, in order: its calls up to the one it stops at that can be invoked at all. */
  lemma {:induction false} InvokedExactly(env: Env, round: nat, calls: seq<Call>, upTo: nat)
    requires upTo <= |calls|
    ensures var invoked := InvocationsIn(env, round, calls, upTo);
      && (forall inv <- invoked :: inv.round == round && inv.k < upTo && inv.call == calls[inv.k])
      && (forall i, j :: 0 <= i < j < |invoked| ==> invoked[i].k < invoked[j].k)
      && (forall k: nat :: k < upTo ==> (Invocation(round, k, calls[k]) in invoked <==> IsInvoked(env, calls[k])))
  {
    hide CallArgs, IsInvoked, Dispatch, InvocationsIn;
    NoInvocations(env, round, calls);
    if upTo > 0 {
      InvokedExactly(env, round, calls, upTo - 1);
      DispatchIsOutcome(env, round, upTo - 1, calls[upTo - 1]);
      InvocationsStep(env, round, calls, upTo);
    }
  }

  lemma NoInvocations(env: Env, round: nat, calls: seq<Call>)
    ensures InvocationsIn(env, round, calls, 0) == []
  {
  }

  lemma InvocationsStep(env: Env, round: nat, calls: seq<Call>, upTo: nat)
    requires 0 < upTo <= |calls|
    ensures var (before, k) := (InvocationsIn(env, round, calls, upTo - 1), upTo - 1);
      InvocationsIn(env, round, calls, upTo) ==
        if CallArgs(env, calls[k]).Ok? then before + [Invocation(round, k, calls[k])] else before
  {
    assert InvocationsIn(env, round, calls, upTo - 1) + [] == InvocationsIn(env, round, calls, upTo - 1);
  }

  /** What counts as said: a text that is not blank, trimmed. */
  lemma NonBlankExactly(content: Option<string>)
    ensures NonBlank(content) ==
      match content
      case None => None
      case Some(text) => if Trim(text) == "" then None else Some(Trim(text))
  {
    hide Trim;
  }
}
