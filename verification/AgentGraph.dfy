// The answering graph (app/graph): its nodes, its reducers and its edges. What the models, the
// tools and the index return is an arbitrary Oracle.
module AgentGraph {
  import opened Prelude

  datatype Call = Call(name: string, args: string)

  datatype Msg = Human(text: string) | AI(text: string, calls: seq<Call>) | ToolMsg(text: string, name: string)

  datatype Usage = Usage(input: int, output: int) {
    function Plus(u: Usage): Usage { Usage(input + u.input, output + u.output) }
  }

  type Intake = map<string, string>

  // Both the graph state and a node's update: a dict in which any key may be missing.
  datatype Dict = Dict(messages: Option<seq<Msg>>, retrieved: Option<seq<string>>, intake: Option<Intake>,
                       blocked: Option<bool>, blockReason: Option<string>, escalate: Option<bool>,
                       iterations: Option<nat>, usage: Option<Usage>, trace: Option<seq<string>>) {
    function Messages(): seq<Msg> { if messages.Some? then messages.value else [] }
    function Known(): Intake { if intake.Some? then intake.value else map[] }
    predicate Blocked() { blocked == Some(true) }
    predicate Escalated() { escalate == Some(true) }
    function Iterations(): nat { if iterations.Some? then iterations.value else 0 }
    function Used(): Usage { if usage.Some? then usage.value else Usage(0, 0) }
    function Trace(): seq<string> { if trace.Some? then trace.value else [] }
  }

  const EMPTY := Dict(None, None, None, None, None, None, None, None, None)

  // initial_state: history, the visitor's text, and the intake so far.
  function InitialState(history: seq<Msg>, text: string, intake: Intake): Dict {
    EMPTY.(messages := Some(history + [Human(text)]), intake := Some(intake), iterations := Some(0),
           trace := Some([]), usage := Some(Usage(0, 0)))
  }

  function Last<T>(old_: Option<T>, new_: Option<T>): Option<T> {
    if new_.Some? then new_ else old_
  }

  // `messages` and `trace` are additive, every other key keeps its last value.
  function Reduce(s: Dict, u: Dict): Dict {
    Dict(Some(s.Messages() + u.Messages()), Last(s.retrieved, u.retrieved), Last(s.intake, u.intake),
         Last(s.blocked, u.blocked), Last(s.blockReason, u.blockReason), Last(s.escalate, u.escalate),
         Last(s.iterations, u.iterations), Last(s.usage, u.usage), Some(s.Trace() + u.Trace()))
  }

  // ---------------------------------------------------------------- nodes

  datatype Config = Config(tools: set<string>, prohibitions: seq<string>, refusal: string)

  datatype InVerdict = InVerdict(asksProhibited: bool, injection: bool, reason: Option<string>)
  datatype OutVerdict = OutVerdict(violates: bool, which: Option<string>)
  datatype Answer = Answer(text: string, calls: seq<Call>, tokens: Usage)
  datatype ToolResult = ToolResult(ok: bool, captured: Intake, text: string)

  // What the outside world answers: the guards' verdicts (None: the guard could not be trusted),
  // the retrieved chunks, the k-th answer of the model, and the result of the i-th call it asked for.
  datatype Oracle = Oracle(guardIn: string -> Option<InVerdict>, hits: seq<string>, answer: nat -> Answer,
                           result: (nat, nat) -> ToolResult, guardOut: string -> Option<OutVerdict>)

  function OrElse(o: Option<string>, default: string): string {
    if o.Some? then o.value else default
  }

  // The latest Human message among the first n.
  function LatestHuman(messages: seq<Msg>, n: nat): Option<string>
    requires n <= |messages|
  {
    if n == 0 then None
    else if messages[n - 1].Human? then Some(messages[n - 1].text)
    else LatestHuman(messages, n - 1)
  }

  function GuardIn(orc: Oracle, s: Dict): Dict {
    match LatestHuman(s.Messages(), |s.Messages()|)
    case None => EMPTY.(blocked := Some(false), trace := Some(["guard_in"]))
    case Some(text) =>
      match orc.guardIn(text)
      case None => EMPTY.(blocked := Some(false), trace := Some(["guard_in:unverified"]))
      case Some(v) =>
        if v.asksProhibited || v.injection then
          EMPTY.(blocked := Some(true), blockReason := Some(OrElse(v.reason, "out of scope")),
                 escalate := Some(v.asksProhibited), trace := Some(["guard_in"]))
        else EMPTY.(blocked := Some(false), trace := Some(["guard_in"]))
  }

  function Retrieve(orc: Oracle, s: Dict): Dict {
    var hits := if LatestHuman(s.Messages(), |s.Messages()|).None? then [] else orc.hits;
    EMPTY.(retrieved := Some(hits), trace := Some(["retrieve"]))
  }

  function Agent(cfg: Config, orc: Oracle, s: Dict): Dict {
    var k := s.Iterations() + 1;
    if s.Blocked() then
      EMPTY.(messages := Some([AI(cfg.refusal, [])]), trace := Some(["agent:refused"]), iterations := Some(k))
    else
      var a := orc.answer(k);
      EMPTY.(messages := Some([AI(a.text, a.calls)]), usage := Some(s.Used().Plus(a.tokens)),
             trace := Some(["agent"]), iterations := Some(k))
  }

  const CAPTURE_LEAD := "capture_lead"
  const ESCALATE := "escalate_to_human"

  function ResultOf(cfg: Config, orc: Oracle, k: nat, calls: seq<Call>, i: nat): ToolResult
    requires i < |calls|
  {
    if calls[i].name !in cfg.tools then ToolResult(false, map[], "tool is not enabled for this tenant")
    else orc.result(k, i)
  }

  // Intake, escalation and tool messages after the first n of the calls.
  function AfterCalls(cfg: Config, orc: Oracle, k: nat, calls: seq<Call>, n: nat, intake: Intake, escalated: bool)
    : (Intake, bool, seq<Msg>)
    requires n <= |calls|
  {
    if n == 0 then (intake, escalated, [])
    else
      var (known, esc, out) := AfterCalls(cfg, orc, k, calls, n - 1, intake, escalated);
      var r := ResultOf(cfg, orc, k, calls, n - 1);
      var name := calls[n - 1].name;
      (if name == CAPTURE_LEAD && r.ok then known + r.captured else known,
       esc || (name == ESCALATE && r.ok),
       out + [ToolMsg(r.text, name)])
  }

  function Calls(s: Dict): seq<Call> {
    var m := s.Messages();
    if m != [] && m[|m| - 1].AI? then m[|m| - 1].calls else []
  }

  function Tools(cfg: Config, orc: Oracle, s: Dict): Dict {
    var calls := Calls(s);
    if calls == [] then EMPTY.(trace := Some(["tools"]))
    else
      var (known, esc, out) := AfterCalls(cfg, orc, s.Iterations(), calls, |calls|, s.Known(), s.Escalated());
      EMPTY.(messages := Some(out), intake := Some(known), escalate := Some(esc), trace := Some(["tools"]))
  }

  // The node as the program runs it: a loop over the calls.
  method RunTools(cfg: Config, orc: Oracle, s: Dict) returns (update: Dict)
    ensures update == Tools(cfg, orc, s)
  {
    var calls := Calls(s);
    if calls == [] {
      return EMPTY.(trace := Some(["tools"]));
    }
    var intake, escalated, out := s.Known(), s.Escalated(), [];
    for i := 0 to |calls|
      invariant (intake, escalated, out)
                == AfterCalls(cfg, orc, s.Iterations(), calls, i, s.Known(), s.Escalated())
    {
      var name := calls[i].name;
      var result := ResultOf(cfg, orc, s.Iterations(), calls, i);
      if name == CAPTURE_LEAD && result.ok {
        intake := intake + result.captured;
      }
      if name == ESCALATE && result.ok {
        escalated := true;
      }
      out := out + [ToolMsg(result.text, name)];
    }
    return EMPTY.(messages := Some(out), intake := Some(intake), escalate := Some(escalated), trace := Some(["tools"]));
  }

  // A message extract_reply may return: an assistant message with more than white space.
  predicate IsReply(m: Msg) {
    m.AI? && Strip(m.text) != ""
  }

  function GuardOut(cfg: Config, orc: Oracle, s: Dict): Dict {
    var m := s.Messages();
    if cfg.prohibitions == [] || m == [] || !IsReply(m[|m| - 1]) then EMPTY.(trace := Some(["guard_out"]))
    else
      match orc.guardOut(m[|m| - 1].text)
      case None => EMPTY.(trace := Some(["guard_out:unverified"]))
      case Some(v) =>
        if v.violates then
          EMPTY.(messages := Some([AI(cfg.refusal, [])]), blocked := Some(true),
                 blockReason := Some(OrElse(v.which, "prohibited content")), trace := Some(["guard_out:replaced"]))
        else EMPTY.(trace := Some(["guard_out"]))
  }

  // ---------------------------------------------------------------- edges

  datatype Node = NGuardIn | NRetrieve | NAgent | NTools | NGuardOut | End

  function AfterAgent(s: Dict, maxIterations: int): Node {
    if s.Blocked() then End
    else if s.Iterations() >= maxIterations then NGuardOut
    else if Calls(s) != [] then NTools
    else NGuardOut
  }

  datatype Step = Step(node: Node, update: Dict)

  // The state after the agent node, and the one after the tools node that follows it.
  function Asked(cfg: Config, orc: Oracle, s: Dict): Dict {
    Reduce(s, Agent(cfg, orc, s))
  }

  function NextRound(cfg: Config, orc: Oracle, s: Dict): Dict {
    Reduce(Asked(cfg, orc, s), Tools(cfg, orc, Asked(cfg, orc, s)))
  }

  // From the agent node to END.
  function Loop(cfg: Config, orc: Oracle, max: int, s: Dict): seq<Step>
    decreases max - s.Iterations()
  {
    var agent := Step(NAgent, Agent(cfg, orc, s));
    var s1 := Asked(cfg, orc, s);
    var next := AfterAgent(s1, max);
    if next == End then [agent]
    else if next == NGuardOut then [agent] + [Step(NGuardOut, GuardOut(cfg, orc, s1))]
    else [agent] + ([Step(NTools, Tools(cfg, orc, s1))] + Loop(cfg, orc, max, NextRound(cfg, orc, s)))
  }

  // The two parallel first nodes, in the order they finish.
  function Heads(orc: Oracle, s: Dict, guardFirst: bool): (h: seq<Step>)
    ensures |h| == 2
  {
    var guard, retrieve := Step(NGuardIn, GuardIn(orc, s)), Step(NRetrieve, Retrieve(orc, s));
    if guardFirst then [guard, retrieve] else [retrieve, guard]
  }

  function AfterHeads(orc: Oracle, s: Dict, guardFirst: bool): Dict {
    var h := Heads(orc, s, guardFirst);
    Reduce(Reduce(s, h[0].update), h[1].update)
  }

  function Run(cfg: Config, orc: Oracle, max: int, s: Dict, guardFirst: bool): seq<Step> {
    Heads(orc, s, guardFirst) + Loop(cfg, orc, max, AfterHeads(orc, s, guardFirst))
  }

  // The state the reducers build from s by a list of steps.
  function FinalState(s: Dict, steps: seq<Step>): Dict
    decreases |steps|
  {
    if steps == [] then s else FinalState(Reduce(s, steps[0].update), steps[1..])
  }

  lemma {:induction false} FinalConcat(s: Dict, a: seq<Step>, b: seq<Step>)
    ensures FinalState(s, a + b) == FinalState(FinalState(s, a), b)
    decreases |a|
  {
    hide Reduce;
    if a == [] {
      assert a + b == b;
    } else {
      assert (a + b)[1..] == a[1..] + b;
      FinalConcat(Reduce(s, a[0].update), a[1..], b);
    }
  }

  function Nodes(steps: seq<Step>): seq<Node> {
    if steps == [] then [] else [steps[0].node] + Nodes(steps[1..])
  }
}
