// One conversational turn over its two transports (app/services/turn.py, app/api/chat.py): the
// JSON endpoint reads the state the reducers built, the SSE endpoint folds the updates by hand.
module Turn {
  import opened Prelude
  import opened AgentGraph
  import opened GraphRuns

  // The latest non-blank assistant message among the first n, or "".
  function ReplyIn(messages: seq<Msg>, n: nat): string
    requires n <= |messages|
  {
    if n == 0 then ""
    else if IsReply(messages[n - 1]) then messages[n - 1].text
    else ReplyIn(messages, n - 1)
  }

  function Reply(messages: seq<Msg>): string {
    ReplyIn(messages, |messages|)
  }

  method ExtractReply(final: Dict) returns (reply: string)
    ensures reply == Reply(final.Messages())
  {
    var messages := final.Messages();
    var n: nat := |messages|;
    while n > 0
      invariant n <= |messages| && ReplyIn(messages, |messages|) == ReplyIn(messages, n)
    {
      if IsReply(messages[n - 1]) {
        return messages[n - 1].text;
      }
      n := n - 1;
    }
    return "";
  }

  // ---------------------------------------------------------------- close_turn

  datatype Stored = Stored(role: string, content: string, trace: seq<string>, blocked: bool, blockReason: string,
                           tokens: Usage)

  datatype Payload = Payload(reply: string, trace: seq<string>, blocked: bool, escalated: bool, intake: Intake,
                             usage: Usage)

  // What close_turn writes and answers, from the final dict of either transport.
  datatype Closed = Closed(message: Stored, intake: Intake, escalates: bool, tokens: int, payload: Payload)

  function Close(final: Dict, known: Intake, reply: string): Closed {
    var usage := final.Used();
    Closed(Stored("assistant", reply, final.Trace(), final.Blocked(), OrElse(final.blockReason, ""), usage),
           if final.Known() != map[] then final.Known() else known,
           final.Escalated(),
           usage.input + usage.output,
           Payload(reply, final.Trace(), final.Blocked(), final.Escalated(), final.Known(), usage))
  }

  // The rows a turn touches. The conversation or the tenant may have been deleted meanwhile.
  class Rows {
    var messages: seq<Stored>
    var hasConversation: bool
    var hasTenant: bool
    var intake: Intake
    var status: string
    var tokensUsed: int

    constructor (hasConversation: bool, hasTenant: bool, intake: Intake, status: string, tokensUsed: int)
      ensures this.messages == [] && this.hasConversation == hasConversation && this.hasTenant == hasTenant
      ensures this.intake == intake && this.status == status && this.tokensUsed == tokensUsed
    {
      this.messages, this.hasConversation, this.hasTenant := [], hasConversation, hasTenant;
      this.intake, this.status, this.tokensUsed := intake, status, tokensUsed;
    }

    method CloseTurn(final: Dict, known: Intake, reply: string) returns (payload: Payload)
      modifies this
      ensures var c := Close(final, known, reply);
              && payload == c.payload
              && messages == old(messages) + [c.message]
              && intake == (if hasConversation then c.intake else old(intake))
              && status == (if hasConversation && c.escalates then "escalated" else old(status))
              && tokensUsed == old(tokensUsed) + (if hasTenant then c.tokens else 0)
      ensures hasConversation == old(hasConversation) && hasTenant == old(hasTenant)
    {
      var usage := final.Used();
      messages := messages + [Stored("assistant", reply, final.Trace(), final.Blocked(),
                                     OrElse(final.blockReason, ""), usage)];
      if hasConversation {
        intake := if final.intake.Some? && final.intake.value != map[] then final.intake.value else known;
        if final.Escalated() {
          status := "escalated";
        }
      }
      if hasTenant {
        tokensUsed := tokensUsed + usage.input + usage.output;
      }
      payload := Payload(reply, final.Trace(), final.Blocked(), final.Escalated(), final.Known(), usage);
    }
  }

  // ---------------------------------------------------------------- the SSE fold

  // {**final, **update, "trace": merged}: every key but `trace` is overwritten, `messages` too.
  function Merge(final: Dict, u: Dict): Dict {
    Dict(Last(final.messages, u.messages), Last(final.retrieved, u.retrieved), Last(final.intake, u.intake),
         Last(final.blocked, u.blocked), Last(final.blockReason, u.blockReason), Last(final.escalate, u.escalate),
         Last(final.iterations, u.iterations), Last(final.usage, u.usage), Some(final.Trace() + u.Trace()))
  }

  function Folded(final: Dict, steps: seq<Step>): Dict
    decreases |steps|
  {
    if steps == [] then final else Folded(Merge(final, steps[0].update), steps[1..])
  }

  // What the stream yields: node updates, and text chunks with the node they come from.
  datatype Item = Update(step: Step) | Chunk(node: Node, text: string)

  function Updates(items: seq<Item>, n: nat): seq<Step>
    requires n <= |items|
  {
    if n == 0 then []
    else if items[n - 1].Update? then Updates(items, n - 1) + [items[n - 1].step]
    else Updates(items, n - 1)
  }

  // The text streamed by the agent node.
  function Emitted(items: seq<Item>, n: nat): string
    requires n <= |items|
  {
    if n == 0 then ""
    else if items[n - 1].Chunk? && items[n - 1].node == NAgent then Emitted(items, n - 1) + items[n - 1].text
    else Emitted(items, n - 1)
  }

  lemma {:induction false} FoldedOneMore(final: Dict, steps: seq<Step>, x: Step)
    ensures Folded(final, steps + [x]) == Merge(Folded(final, steps), x.update)
    decreases |steps|
  {
    hide Merge;
    if steps == [] {
      assert ([] + [x])[1..] == [];
    } else {
      assert (steps + [x])[1..] == steps[1..] + [x];
      FoldedOneMore(Merge(final, steps[0].update), steps[1..], x);
    }
  }

  // The body of events(): fold the stream, then extract the reply, or fall back on what was streamed.
  method Events(items: seq<Item>) returns (final: Dict, reply: string)
    ensures final == Folded(EMPTY, Updates(items, |items|))
    ensures reply == SseReply(final, Emitted(items, |items|))
  {
    final := EMPTY;
    var emitted := "";
    for i := 0 to |items|
      invariant final == Folded(EMPTY, Updates(items, i)) && emitted == Emitted(items, i)
    {
      match items[i]
      case Update(step) =>
        FoldedOneMore(EMPTY, Updates(items, i), step);
        final := Merge(final, step.update);
      case Chunk(node, text) =>
        if node == NAgent {
          emitted := emitted + text;
        }
    }
    reply := ExtractReply(final);
    if reply == "" {
      reply := emitted;
    }
  }

  function SseReply(final: Dict, emitted: string): string {
    var r := Reply(final.Messages());
    if r == "" then emitted else r
  }

  // ---------------------------------------------------------------- the two folds agree

  // A key of e, built by Merge, is as in j, built by the reducers from s - or missing from e, and
  // then in j as it was in s.
  predicate AgreeOn<T(==)>(s: Option<T>, j: Option<T>, e: Option<T>) {
    if e.Some? then j == e else j == s
  }

  // e's messages are the tail of j's that came last.
  ghost predicate IsTail(tail: Option<seq<Msg>>, messages: seq<Msg>) {
    tail.Some? ==>
      |tail.value| <= |messages| && messages[|messages| - |tail.value|..] == tail.value
  }

  ghost predicate Agree(s: Dict, j: Dict, e: Dict) {
    && AgreeOn(s.intake, j.intake, e.intake) && AgreeOn(s.blocked, j.blocked, e.blocked)
    && AgreeOn(s.blockReason, j.blockReason, e.blockReason) && AgreeOn(s.escalate, j.escalate, e.escalate)
    && AgreeOn(s.usage, j.usage, e.usage)
    && j.Trace() == s.Trace() + e.Trace()
    && IsTail(e.messages, j.Messages())
  }

  lemma TailGrows(tail: Option<seq<Msg>>, messages: seq<Msg>, new_: Option<seq<Msg>>)
    requires IsTail(tail, messages)
    ensures IsTail(Last(tail, new_), messages + (if new_.Some? then new_.value else []))
  {
    if new_.Some? {
      assert (messages + new_.value)[|messages|..] == new_.value;
    } else {
      assert messages + [] == messages;
    }
  }

  lemma StepKeepsAgree(s: Dict, j: Dict, e: Dict, u: Dict)
    requires Agree(s, j, e)
    ensures Agree(s, Reduce(j, u), Merge(e, u))
  {
    assert s.Trace() + (e.Trace() + u.Trace()) == (s.Trace() + e.Trace()) + u.Trace();
    TailGrows(e.messages, j.Messages(), u.messages);
    hide IsTail;
  }

  lemma {:induction false} FoldsAgree(s: Dict, j: Dict, e: Dict, steps: seq<Step>)
    requires Agree(s, j, e)
    ensures Agree(s, FinalState(j, steps), Folded(e, steps))
    decreases |steps|
  {
    hide Agree, Reduce, Merge;
    if steps != [] {
      StepKeepsAgree(s, j, e, steps[0].update);
      FoldsAgree(s, Reduce(j, steps[0].update), Merge(e, steps[0].update), steps[1..]);
    }
  }

  // ---------------------------------------------------------------- runs over both transports

  // The loop ends with an update of one message, so that is all the SSE fold is left with.
  lemma {:induction false} LoopEndsWithOne(cfg: Config, orc: Oracle, max: int, s: Dict, e: Dict)
    ensures IsOne(Folded(e, Loop(cfg, orc, max, s)))
    decreases max - s.Iterations()
  {
    hide Asked, NextRound, Reduce, Merge, Agent, Tools, GuardOut, AfterAgent, Loop, Folded, IsOne;
    LoopRound(cfg, orc, max, s);
    NextIteration(cfg, orc, s);
    var s1 := Asked(cfg, orc, s);
    var agent, last := Step(NAgent, Agent(cfg, orc, s)), Step(NGuardOut, GuardOut(cfg, orc, s1));
    var tools, rest := Step(NTools, Tools(cfg, orc, s1)), Loop(cfg, orc, max, NextRound(cfg, orc, s));
    AgentSaysOne(cfg, orc, s, e);
    GuardOutSaysOne(cfg, orc, s1, Merge(e, agent.update));
    if AfterAgent(s1, max) == NTools {
      LoopEndsWithOne(cfg, orc, max, NextRound(cfg, orc, s), Merge(Merge(e, agent.update), tools.update));
      FoldedTwo(e, agent, tools, rest);
    } else if AfterAgent(s1, max) == NGuardOut {
      assert [agent] + [last] == [agent] + ([last] + []);
      FoldedTwo(e, agent, last, []);
      FoldedNothing(Merge(Merge(e, agent.update), last.update));
    } else {
      assert [agent] == [agent] + [];
      FoldedCons(e, agent, []);
      FoldedNothing(Merge(e, agent.update));
    }
  }

  predicate IsOne(e: Dict) {
    e.messages.Some? && |e.messages.value| == 1
  }

  lemma AgentSaysOne(cfg: Config, orc: Oracle, s: Dict, e: Dict)
    ensures IsOne(Merge(e, Agent(cfg, orc, s)))
  {}

  lemma GuardOutSaysOne(cfg: Config, orc: Oracle, s: Dict, e: Dict)
    requires IsOne(e)
    ensures IsOne(Merge(e, GuardOut(cfg, orc, s)))
  {}

  lemma FoldedTwo(e: Dict, x: Step, y: Step, rest: seq<Step>)
    ensures Folded(e, [x] + ([y] + rest)) == Folded(Merge(Merge(e, x.update), y.update), rest)
  {
    hide Merge;
    FoldedCons(e, x, [y] + rest);
    FoldedCons(Merge(e, x.update), y, rest);
  }

  lemma FoldedCons(e: Dict, x: Step, rest: seq<Step>)
    ensures Folded(e, [x] + rest) == Folded(Merge(e, x.update), rest)
  {
    hide Merge;
    assert ([x] + rest)[1..] == rest;
  }

  lemma FoldedNothing(e: Dict)
    ensures Folded(e, []) == e
  {}

  // Nodes never look at the trace.
  lemma {:induction false} LoopIgnoresTrace(cfg: Config, orc: Oracle, max: int, s: Dict, trace: seq<string>)
    ensures Loop(cfg, orc, max, s.(trace := Some(trace))) == Loop(cfg, orc, max, s)
    decreases max - s.Iterations()
  {
    var s' := s.(trace := Some(trace));
    LoopRound(cfg, orc, max, s);
    LoopRound(cfg, orc, max, s');
    NextIteration(cfg, orc, s);
    NodesIgnoreTrace(cfg, orc, max, s, trace);
    var t, t' := NextRound(cfg, orc, s), NextRound(cfg, orc, s');
    hide Asked, NextRound, Reduce, Agent, Tools, GuardOut, AfterAgent, Loop;
    if AfterAgent(Asked(cfg, orc, s), max) == NTools {
      LoopIgnoresTrace(cfg, orc, max, t, t'.trace.value);
    }
  }

  lemma ReduceIgnoresTrace(s: Dict, trace: seq<string>, u: Dict)
    ensures var r := Reduce(s.(trace := Some(trace)), u);
            r.trace.Some? && r == Reduce(s, u).(trace := r.trace)
  {}

  lemma EachNodeIgnoresTrace(cfg: Config, orc: Oracle, max: int, s: Dict, trace: seq<string>)
    ensures var s' := s.(trace := Some(trace));
            && Agent(cfg, orc, s') == Agent(cfg, orc, s) && AfterAgent(s', max) == AfterAgent(s, max)
            && GuardOut(cfg, orc, s') == GuardOut(cfg, orc, s) && Tools(cfg, orc, s') == Tools(cfg, orc, s)
  {
    hide AfterCalls, IsReply;
  }

  lemma NodesIgnoreTrace(cfg: Config, orc: Oracle, max: int, s: Dict, trace: seq<string>)
    ensures var s' := s.(trace := Some(trace));
            var s1, s1' := Asked(cfg, orc, s), Asked(cfg, orc, s');
            && Agent(cfg, orc, s') == Agent(cfg, orc, s)
            && AfterAgent(s1', max) == AfterAgent(s1, max)
            && GuardOut(cfg, orc, s1') == GuardOut(cfg, orc, s1) && Tools(cfg, orc, s1') == Tools(cfg, orc, s1)
            && NextRound(cfg, orc, s').trace.Some?
            && NextRound(cfg, orc, s') == NextRound(cfg, orc, s).(trace := NextRound(cfg, orc, s').trace)
  {
    var s' := s.(trace := Some(trace));
    EachNodeIgnoresTrace(cfg, orc, max, s, trace);
    ReduceIgnoresTrace(s, trace, Agent(cfg, orc, s));
    var s1, s1' := Asked(cfg, orc, s), Asked(cfg, orc, s');
    EachNodeIgnoresTrace(cfg, orc, max, s1, s1'.trace.value);
    ReduceIgnoresTrace(s1, s1'.trace.value, Tools(cfg, orc, s1));
    hide Reduce, Agent, Tools, GuardOut, AfterAgent;
  }

  lemma {:induction false} FinalIgnoresTrace(s: Dict, steps: seq<Step>, trace: seq<string>)
    ensures var f, f' := FinalState(s, steps), FinalState(s.(trace := Some(trace)), steps);
            f'.trace.Some? && f' == f.(trace := f'.trace)
    decreases |steps|
  {
    if steps != [] {
      var u := steps[0].update;
      var t := Reduce(s.(trace := Some(trace)), u);
      assert t == Reduce(s, u).(trace := Some(t.Trace()));
      hide Reduce;
      FinalIgnoresTrace(Reduce(s, u), steps[1..], t.Trace());
    }
  }

  // The order in which the two parallel nodes finish shows in nothing but the trace.
  lemma OrderShowsInTraceOnly(cfg: Config, orc: Oracle, max: int, s: Dict, a: bool, b: bool)
    requires s.trace.Some?
    ensures Loop(cfg, orc, max, AfterHeads(orc, s, a)) == Loop(cfg, orc, max, AfterHeads(orc, s, b))
    ensures var f, g := FinalState(s, Run(cfg, orc, max, s, a)), FinalState(s, Run(cfg, orc, max, s, b));
            f.trace.Some? && f == g.(trace := f.trace)
  {
    var h, k := AfterHeads(orc, s, a), AfterHeads(orc, s, b);
    assert h == k.(trace := Some(h.Trace()));
    LoopIgnoresTrace(cfg, orc, max, k, h.Trace());
    RunFinal(cfg, orc, max, s, a);
    RunFinal(cfg, orc, max, s, b);
    hide Loop, Run, AfterHeads;
    FinalIgnoresTrace(k, Loop(cfg, orc, max, k), h.Trace());
  }

  // What the two parallel nodes put in the trace.
  function HeadTrace(orc: Oracle, s: Dict, guardFirst: bool): seq<string> {
    var h := Heads(orc, s, guardFirst);
    h[0].update.Trace() + h[1].update.Trace()
  }

  function JsonFinal(cfg: Config, orc: Oracle, max: int, s: Dict, guardFirst: bool): Dict {
    FinalState(s, Run(cfg, orc, max, s, guardFirst))
  }

  function SseFinal(cfg: Config, orc: Oracle, max: int, s: Dict, guardFirst: bool): Dict {
    Folded(EMPTY, Run(cfg, orc, max, s, guardFirst))
  }

  lemma HeadsTrace(orc: Oracle, s: Dict, guardFirst: bool)
    requires s.trace == Some([])
    ensures AfterHeads(orc, s, guardFirst).Trace() == HeadTrace(orc, s, guardFirst)
  {}

  lemma JsonTrace(cfg: Config, orc: Oracle, max: int, s: Dict, guardFirst: bool)
    requires s.trace == Some([])
    ensures JsonFinal(cfg, orc, max, s, guardFirst).Trace()
            == HeadTrace(orc, s, guardFirst) + Folded(EMPTY, Loop(cfg, orc, max, AfterHeads(orc, s,
                guardFirst))).Trace()
  {
    hide Run, Loop, AfterHeads, HeadTrace, FinalState, Folded, AgreeOn, IsTail;
    HeadsTrace(orc, s, guardFirst);
    RunFinal(cfg, orc, max, s, guardFirst);
    var t := AfterHeads(orc, s, guardFirst);
    AgreesWithItself(t);
    FoldsAgree(t, t, EMPTY, Loop(cfg, orc, max, t));
    hide AgreeOn, IsTail;
  }

  lemma AgreesWithItself(s: Dict)
    ensures Agree(s, s, EMPTY)
  {
    assert s.Trace() + [] == s.Trace();
  }

  lemma SseRun(cfg: Config, orc: Oracle, max: int, s: Dict, guardFirst: bool)
    ensures var h := Heads(orc, s, guardFirst);
            SseFinal(cfg, orc, max, s, guardFirst)
            == Folded(Merge(Merge(EMPTY, h[0].update), h[1].update), Loop(cfg, orc, max, AfterHeads(orc, s,
                guardFirst)))
  {
    hide Loop, AfterHeads, Heads, GuardIn, Retrieve, Merge, Folded;
    FoldedHeads(EMPTY, Heads(orc, s, guardFirst), Loop(cfg, orc, max, AfterHeads(orc, s, guardFirst)));
  }

  lemma FoldedHeads(e: Dict, h: seq<Step>, loop: seq<Step>)
    requires |h| == 2
    ensures Folded(e, h + loop) == Folded(Merge(Merge(e, h[0].update), h[1].update), loop)
  {
    hide Merge, Folded;
    assert h + loop == [h[0]] + ([h[1]] + loop);
    FoldedTwo(e, h[0], h[1], loop);
  }

  lemma SseMessages(cfg: Config, orc: Oracle, max: int, s: Dict, guardFirst: bool)
    ensures IsOne(SseFinal(cfg, orc, max, s, guardFirst))
  {
    hide Loop, AfterHeads, GuardIn, Retrieve, Merge, SseFinal, Folded;
    SseRun(cfg, orc, max, s, guardFirst);
    var h := Heads(orc, s, guardFirst);
    LoopEndsWithOne(cfg, orc, max, AfterHeads(orc, s, guardFirst), Merge(Merge(EMPTY, h[0].update), h[1].update));
  }

  // The tools node runs on at least one call: the turn is not blocked, may go round twice, and the
  // model's first answer asks for a tool.
  predicate UsesTools(orc: Oracle, max: int, s: Dict) {
    !GuardIn(orc, s).Blocked() && max > 1 && orc.answer(1).calls != []
  }

  lemma ToolsReportIntake(cfg: Config, orc: Oracle, max: int, s: Dict)
    requires !s.Blocked()
    ensures var s1 := Asked(cfg, orc, s);
            && (AfterAgent(s1, max) == NTools
                <==> s.Iterations() + 1 < max && orc.answer(s.Iterations() + 1).calls != [])
            && (AfterAgent(s1, max) == NTools ==> Tools(cfg, orc, s1).intake.Some?)
  {
    hide Reduce, Agent, AfterCalls, Dict.Messages;
    AfterAgentNode(cfg, orc, s);
    AskedMessages(cfg, orc, s);
  }

  lemma OnlyToolsReportIntake(cfg: Config, orc: Oracle, s: Dict, e: Dict)
    ensures Merge(e, Agent(cfg, orc, s)).intake == e.intake && Merge(e, GuardOut(cfg, orc, s)).intake == e.intake
    ensures Merge(e, Tools(cfg, orc, s)).intake.Some? <==> e.intake.Some? || Tools(cfg, orc, s).intake.Some?
  {
    hide AfterCalls;
  }

  // After the loop, the fold knows an intake exactly if it did before or the loop begins with tool calls.
  lemma {:induction false} LoopIntake(cfg: Config, orc: Oracle, max: int, s: Dict, e: Dict)
    requires !s.Blocked()
    ensures Folded(e, Loop(cfg, orc, max, s)).intake.Some?
            <==> e.intake.Some? || (s.Iterations() + 1 < max && orc.answer(s.Iterations() + 1).calls != [])
    decreases max - s.Iterations()
  {
    hide *;
    LoopRound(cfg, orc, max, s);
    AfterRound(cfg, orc, max, s);
    ToolsReportIntake(cfg, orc, max, s);
    var s1 := Asked(cfg, orc, s);
    var agent, last := Step(NAgent, Agent(cfg, orc, s)), Step(NGuardOut, GuardOut(cfg, orc, s1));
    var e1 := Merge(e, agent.update);
    OnlyToolsReportIntake(cfg, orc, s, e);
    OnlyToolsReportIntake(cfg, orc, s1, e1);
    if AfterAgent(s1, max) == NTools {
      var tools, t := Step(NTools, Tools(cfg, orc, s1)), NextRound(cfg, orc, s);
      LoopIntake(cfg, orc, max, t, Merge(e1, tools.update));
      FoldedTwo(e, agent, tools, Loop(cfg, orc, max, t));
    } else {
      assert [agent] + [last] == [agent] + ([last] + []);
      FoldedTwo(e, agent, last, []);
      FoldedNothing(Merge(e1, last.update));
    }
  }

  lemma HeadsReportNoIntake(orc: Oracle, s: Dict, guardFirst: bool)
    requires s.blocked.None?
    ensures var h := Heads(orc, s, guardFirst); Merge(Merge(EMPTY, h[0].update), h[1].update).intake.None?
    ensures AfterHeads(orc, s, guardFirst).Blocked() <==> GuardIn(orc, s).Blocked()
    ensures AfterHeads(orc, s, guardFirst).Iterations() == s.Iterations()
  {}

  lemma SseIntake(cfg: Config, orc: Oracle, max: int, s: Dict, guardFirst: bool)
    requires s.blocked.None? && s.Iterations() == 0
    ensures SseFinal(cfg, orc, max, s, guardFirst).intake.Some? <==> UsesTools(orc, max, s)
  {
    hide Loop, AfterHeads, Heads, GuardIn, Merge, SseFinal, Folded, Agent, Asked;
    SseRun(cfg, orc, max, s, guardFirst);
    HeadsReportNoIntake(orc, s, guardFirst);
    var h, t := Heads(orc, s, guardFirst), AfterHeads(orc, s, guardFirst);
    var e := Merge(Merge(EMPTY, h[0].update), h[1].update);
    if t.Blocked() {
      BlockedLoop(cfg, orc, max, t);
      var agent := Step(NAgent, Agent(cfg, orc, t));
      assert [agent] == [agent] + [];
      FoldedCons(e, agent, []);
      FoldedNothing(Merge(e, agent.update));
      OnlyToolsReportIntake(cfg, orc, t, e);
    } else {
      LoopIntake(cfg, orc, max, t, e);
    }
  }

  // From agreeing dicts, close_turn writes and answers the same, but for an intake only s knows.
  lemma AgreeingDictsCloseAlike(s: Dict, j: Dict, e: Dict, known: Intake, reply: string)
    requires Agree(s, j, e) && s.intake == Some(known) && s.usage == Some(Usage(0, 0)) && s.trace == Some([])
    requires s.blocked.None? && s.blockReason.None? && s.escalate.None?
    ensures var json, sse := Close(j, known, reply), Close(e, known, reply);
            && sse.intake == json.intake && sse.escalates == json.escalates && sse.tokens == json.tokens
            && sse.message == json.message
            && sse.payload == json.payload.(intake := if e.intake.Some? then json.payload.intake else map[])
            && (e.intake.None? ==> json.payload.intake == known)
  {
    assert s.Trace() + e.Trace() == e.Trace();
    hide IsTail;
  }

  lemma CloseIgnoresMessages(f: Dict, g: Dict, known: Intake, reply: string)
    requires f == g.(trace := f.trace)
    ensures var a, b := Close(f, known, reply), Close(g, known, reply);
            a == b.(message := b.message.(trace := f.Trace()), payload := b.payload.(trace := f.Trace()))
  {}

  // Main result, all but the reply text: whichever of the parallel nodes finishes first on either
  // side, both transports persist and report the same, but for the order of the first two trace
  // entries and the intake field of the answer: in a turn without tool calls the JSON side answers
  // the intake so far and the SSE side {}.
  lemma TransportsAgree(cfg: Config, orc: Oracle, max: int, history: seq<Msg>, text: string, intake: Intake,
                        a: bool, b: bool, reply: string)
    ensures var s := InitialState(history, text, intake);
            var json := Close(JsonFinal(cfg, orc, max, s, a), intake, reply);
            var sse := Close(SseFinal(cfg, orc, max, s, b), intake, reply);
            && sse.intake == json.intake && sse.escalates == json.escalates && sse.tokens == json.tokens
            && sse.message == json.message.(trace := sse.message.trace)
            && sse.payload == json.payload.(trace := sse.message.trace,
                                            intake := if UsesTools(orc, max, s) then json.payload.intake else map[])
            && json.payload.trace == json.message.trace
            && (!UsesTools(orc, max, s) ==> json.payload.intake == intake)
            && (sse.payload.intake == json.payload.intake <==> UsesTools(orc, max, s) || intake == map[])
  {
    var s := InitialState(history, text, intake);
    assert s.trace == Some([]) && s.intake == Some(intake) && s.usage == Some(Usage(0, 0));
    assert s.blocked.None? && s.blockReason.None? && s.escalate.None? && s.Iterations() == 0;
    AgreesWithItself(s);
    FoldsAgree(s, s, EMPTY, Run(cfg, orc, max, s, b));
    OrderShowsInTraceOnly(cfg, orc, max, s, a, b);
    SseIntake(cfg, orc, max, s, b);
    var j, j', e := JsonFinal(cfg, orc, max, s, b), JsonFinal(cfg, orc, max, s, a), SseFinal(cfg, orc, max, s, b);
    AgreeingDictsCloseAlike(s, j, e, intake, reply);
    CloseIgnoresMessages(j', j, intake, reply);
    hide InitialState, Loop, Run, AfterHeads, FinalState, Folded, Agree, Close, UsesTools;
  }

  // The traces are the entries of the two parallel nodes, in the order each side saw them, and then
  // the same list.
  lemma TracesAgree(cfg: Config, orc: Oracle, max: int, history: seq<Msg>, text: string, intake: Intake, a: bool,
                    b: bool)
    ensures var s := InitialState(history, text, intake);
            var rest := Folded(EMPTY, Loop(cfg, orc, max, AfterHeads(orc, s, a))).Trace();
            && JsonFinal(cfg, orc, max, s, a).Trace() == HeadTrace(orc, s, a) + rest
            && SseFinal(cfg, orc, max, s, b).Trace() == HeadTrace(orc, s, b) + rest
  {
    var s := InitialState(history, text, intake);
    assert s.trace == Some([]);
    AgreesWithItself(s);
    FoldsAgree(s, s, EMPTY, Run(cfg, orc, max, s, b));
    OrderShowsInTraceOnly(cfg, orc, max, s, a, b);
    JsonTrace(cfg, orc, max, s, a);
    JsonTrace(cfg, orc, max, s, b);
    hide InitialState, Loop, Run, AfterHeads, FinalState, Folded, HeadTrace, AgreeOn, IsTail;
    var e := SseFinal(cfg, orc, max, s, b);
    assert s.Trace() + e.Trace() == e.Trace();
  }

  lemma OneMessageReply(m: Msg)
    ensures Reply([m]) == if IsReply(m) then m.text else ""
    ensures IsReply(m) ==> m.text != ""
  {
    assert ReplyIn([m], 0) == "";
  }

  // ---------------------------------------------------------------- which texts can come out

  // An unblocked loop ends in guard_out looking at the model's last answer.
  lemma {:induction false} LoopEndsInGuardOut(cfg: Config, orc: Oracle, max: int, s: Dict) returns (pre: Dict)
    requires !s.Blocked()
    ensures FinalState(s, Loop(cfg, orc, max, s)) == Reduce(pre, GuardOut(cfg, orc, pre))
    ensures !pre.Blocked() && pre.Messages() != []
    ensures var a := orc.answer(pre.Iterations()); pre.Messages()[|pre.Messages()| - 1] == AI(a.text, a.calls)
    decreases max - s.Iterations()
  {
    hide Asked, NextRound, Reduce, Agent, Tools, GuardOut, AfterAgent, Loop, FinalState;
    AfterRound(cfg, orc, max, s);
    AskedMessages(cfg, orc, s);
    if AfterAgent(Asked(cfg, orc, s), max) == NTools {
      pre := LoopEndsInGuardOut(cfg, orc, max, NextRound(cfg, orc, s));
      RoundFinal(cfg, orc, max, s);
    } else {
      pre := Asked(cfg, orc, s);
      LastRoundFinal(cfg, orc, max, s);
    }
  }

  // guard_out saw this text and let it pass.
  predicate Cleared(orc: Oracle, text: string) {
    orc.guardOut(text).Some? && !orc.guardOut(text).value.violates
  }

  // What guard_out leaves: the refusal in place of a violating reply, else the messages as they were
  // and a trace entry that says when the reply went unchecked.
  lemma GuardOutReply(cfg: Config, orc: Oracle, pre: Dict)
    requires pre.Messages() != []
    ensures var last := pre.Messages()[|pre.Messages()| - 1];
            var f := Reduce(pre, GuardOut(cfg, orc, pre));
            var checked := cfg.prohibitions != [] && IsReply(last);
            if checked && orc.guardOut(last.text).Some? && orc.guardOut(last.text).value.violates then
              && f.Messages() == pre.Messages() + [AI(cfg.refusal, [])] && f.Blocked()
              && f.blockReason == Some(OrElse(orc.guardOut(last.text).value.which, "prohibited content"))
              && f.Trace() == pre.Trace() + ["guard_out:replaced"]
            else
              && f.blocked == pre.blocked && f.blockReason == pre.blockReason
              && f.Messages() == pre.Messages()
              && f.Trace() == pre.Trace() + [if checked && orc.guardOut(last.text).None? then "guard_out:unverified"
                                             else "guard_out"]
  {
    hide IsReply;
    assert pre.Messages() + [] == pre.Messages();
  }

  lemma ReplyOfLast(messages: seq<Msg>)
    requires messages != [] && IsReply(messages[|messages| - 1])
    ensures Reply(messages) == messages[|messages| - 1].text
  {}

  // Main result: as long as the last message and the refusal are not blank, the reply is the
  // refusal, or a text guard_out cleared, or one the trace records as unverified, or the tenant
  // has no prohibitions to check it against.
  lemma RepliesAreGuarded(cfg: Config, orc: Oracle, max: int, history: seq<Msg>, text: string, intake: Intake, a: bool)
    requires Strip(cfg.refusal) != ""
    requires var m := JsonFinal(cfg, orc, max, InitialState(history, text, intake), a).Messages();
             m != [] && IsReply(m[|m| - 1])
    ensures var f := JsonFinal(cfg, orc, max, InitialState(history, text, intake), a);
            var r := Reply(f.Messages());
            || r == cfg.refusal
            || (cfg.prohibitions != [] && Cleared(orc, r))
            || (cfg.prohibitions != [] && f.Trace() != [] && f.Trace()[|f.Trace()| - 1] == "guard_out:unverified")
            || cfg.prohibitions == []
  {
    hide InitialState, AfterHeads, Run, Loop, FinalState, GuardIn, Reduce, GuardOut, IsReply, ReplyIn;
    var s := InitialState(history, text, intake);
    var t := AfterHeads(orc, s, a);
    RunFinal(cfg, orc, max, s, a);
    ReplyOfLast(JsonFinal(cfg, orc, max, s, a).Messages());
    if t.Blocked() {
      BlockedLoop(cfg, orc, max, t);
      BlockedFinal(cfg, orc, t);
    } else {
      var pre := LoopEndsInGuardOut(cfg, orc, max, t);
      GuardOutReply(cfg, orc, pre);
    }
  }

  // A blank last message goes unchecked, and the JSON reply then reaches back past it - to text no
  // guard saw this turn, a message of the history included.
  lemma BlankAnswersAreNotChecked(cfg: Config, orc: Oracle, max: int, history: seq<Msg>, text: string, intake: Intake,
                                  a: bool)
    requires Strip(cfg.refusal) != ""
    requires var m := JsonFinal(cfg, orc, max, InitialState(history, text, intake), a).Messages();
             m != [] ==> !IsReply(m[|m| - 1])
    ensures var f := JsonFinal(cfg, orc, max, InitialState(history, text, intake), a);
            var m := f.Messages();
            && m != [] && m[|m| - 1].AI?
            && Reply(m) == ReplyIn(m, |m| - 1)
            && f.Trace() != [] && f.Trace()[|f.Trace()| - 1] == "guard_out"
  {
    hide InitialState, AfterHeads, Run, Loop, FinalState, GuardIn, Reduce, GuardOut, IsReply, ReplyIn, Strip;
    var s := InitialState(history, text, intake);
    var t := AfterHeads(orc, s, a);
    RunFinal(cfg, orc, max, s, a);
    RefusalIsReply(cfg);
    ReplySkipsLast(JsonFinal(cfg, orc, max, s, a).Messages());
    if t.Blocked() {
      BlockedLoop(cfg, orc, max, t);
      BlockedFinal(cfg, orc, t);
    } else {
      var pre := LoopEndsInGuardOut(cfg, orc, max, t);
      GuardOutReply(cfg, orc, pre);
    }
  }

  lemma ReplySkipsLast(messages: seq<Msg>)
    requires messages != [] ==> !IsReply(messages[|messages| - 1])
    ensures messages != [] ==> Reply(messages) == ReplyIn(messages, |messages| - 1)
  {
    hide IsReply;
  }

  lemma RefusalIsReply(cfg: Config)
    requires Strip(cfg.refusal) != ""
    ensures IsReply(AI(cfg.refusal, []))
  {}
}
