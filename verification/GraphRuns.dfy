// What every run of the answering graph does: the path it takes, what it adds up, what it never
// takes back, and which texts can come out of it.
module GraphRuns {
  import opened Prelude
  import opened AgentGraph

  // The number of times the agent node runs before guard_out.
  function Rounds(cfg: Config, orc: Oracle, max: int, s: Dict): nat
    decreases max - s.Iterations()
  {
    if AfterAgent(Asked(cfg, orc, s), max) == NTools then 1 + Rounds(cfg, orc, max, NextRound(cfg, orc, s)) else 1
  }

  // agent (tools agent)^(k-1) guard_out
  function Path(k: nat): seq<Node> {
    if k <= 1 then [NAgent, NGuardOut] else [NAgent] + ([NTools] + Path(k - 1))
  }

  lemma AfterTools(cfg: Config, orc: Oracle, s: Dict)
    ensures var t := Reduce(s, Tools(cfg, orc, s));
            && t.Blocked() == s.Blocked() && t.Iterations() == s.Iterations() && t.Used() == s.Used()
            && s.Messages() <= t.Messages()
  {
    hide AfterCalls;
  }

  lemma AfterAgentNode(cfg: Config, orc: Oracle, s: Dict)
    requires !s.Blocked()
    ensures var t := Reduce(s, Agent(cfg, orc, s));
            && !t.Blocked() && t.Iterations() == s.Iterations() + 1
            && t.Used() == s.Used().Plus(orc.answer(s.Iterations() + 1).tokens)
  {}

  // The model's answer becomes the last message.
  lemma AskedMessages(cfg: Config, orc: Oracle, s: Dict)
    requires !s.Blocked()
    ensures Asked(cfg, orc, s).Messages()
            == s.Messages() + [AI(orc.answer(s.Iterations() + 1).text, orc.answer(s.Iterations() + 1).calls)]
  {}

  // The loop, one round at a time.
  lemma LoopRound(cfg: Config, orc: Oracle, max: int, s: Dict)
    ensures var s1 := Asked(cfg, orc, s);
            var agent := Step(NAgent, Agent(cfg, orc, s));
            && (AfterAgent(s1, max) == End ==> Loop(cfg, orc, max, s) == [agent])
            && (AfterAgent(s1, max) == NGuardOut ==>
                  Loop(cfg, orc, max, s) == [agent] + [Step(NGuardOut, GuardOut(cfg, orc, s1))])
            && (AfterAgent(s1, max) == NTools ==>
                  s1.Iterations() < max
                  && Loop(cfg, orc, max, s)
                     == [agent] + ([Step(NTools, Tools(cfg, orc, s1))] + Loop(cfg, orc, max, NextRound(cfg, orc, s))))
            && (AfterAgent(s1, max) == End || AfterAgent(s1, max) == NGuardOut || AfterAgent(s1, max) == NTools)
  {
    hide Reduce, Agent, Tools, GuardOut, AfterAgent;
    AskedFits(cfg, orc, max, s);
  }

  lemma AskedFits(cfg: Config, orc: Oracle, max: int, s: Dict)
    ensures var next := AfterAgent(Asked(cfg, orc, s), max); next == End || next == NGuardOut || next == NTools
    ensures AfterAgent(Asked(cfg, orc, s), max) == NTools ==> Asked(cfg, orc, s).Iterations() < max
  {}

  lemma AfterRound(cfg: Config, orc: Oracle, max: int, s: Dict)
    requires !s.Blocked()
    ensures var s1 := Asked(cfg, orc, s);
            && (AfterAgent(s1, max) == NTools || AfterAgent(s1, max) == NGuardOut)
            && (AfterAgent(s1, max) == NTools ==> s1.Iterations() < max)
            && s1.Iterations() == s.Iterations() + 1 && !s1.Blocked()
            && s1.Used() == s.Used().Plus(orc.answer(s.Iterations() + 1).tokens)
    ensures var t := NextRound(cfg, orc, s);
            && t.Iterations() == s.Iterations() + 1 && !t.Blocked()
            && t.Used() == s.Used().Plus(orc.answer(s.Iterations() + 1).tokens)
  {
    AfterAgentNode(cfg, orc, s);
    AfterTools(cfg, orc, Asked(cfg, orc, s));
    hide Reduce, Agent, Tools;
  }

  lemma NodesCons(x: Step, rest: seq<Step>)
    ensures Nodes([x] + rest) == [x.node] + Nodes(rest)
  {
    assert ([x] + rest)[1..] == rest;
  }

  lemma RoundsStep(cfg: Config, orc: Oracle, max: int, s: Dict)
    requires !s.Blocked()
    ensures Rounds(cfg, orc, max, s)
            == if AfterAgent(Asked(cfg, orc, s), max) == NTools
               then Rounds(cfg, orc, max, NextRound(cfg, orc, s)) + 1 else 1
  {
    hide Asked, NextRound, AfterAgent;
  }

  lemma {:induction false} RoundsBound(cfg: Config, orc: Oracle, max: int, s: Dict)
    requires !s.Blocked()
    ensures 1 <= Rounds(cfg, orc, max, s) <= Max(1, max - s.Iterations())
    decreases max - s.Iterations()
  {
    hide Asked, NextRound, AfterAgent, Rounds;
    AfterRound(cfg, orc, max, s);
    RoundsStep(cfg, orc, max, s);
    if AfterAgent(Asked(cfg, orc, s), max) == NTools {
      RoundsBound(cfg, orc, max, NextRound(cfg, orc, s));
    }
  }

  lemma {:induction false} LoopPath(cfg: Config, orc: Oracle, max: int, s: Dict)
    requires !s.Blocked()
    ensures Nodes(Loop(cfg, orc, max, s)) == Path(Rounds(cfg, orc, max, s))
    decreases max - s.Iterations()
  {
    hide Asked, AfterAgent, Loop, Nodes, Rounds, Path;
    AfterRound(cfg, orc, max, s);
    if AfterAgent(Asked(cfg, orc, s), max) == NTools {
      LoopPath(cfg, orc, max, NextRound(cfg, orc, s));
      RoundPath(cfg, orc, max, s);
    } else {
      LastRoundPath(cfg, orc, max, s);
    }
  }

  lemma RoundPath(cfg: Config, orc: Oracle, max: int, s: Dict)
    requires !s.Blocked() && AfterAgent(Asked(cfg, orc, s), max) == NTools && !NextRound(cfg, orc, s).Blocked()
    requires Nodes(Loop(cfg, orc, max, NextRound(cfg, orc, s))) == Path(Rounds(cfg, orc, max, NextRound(cfg, orc, s)))
    ensures Nodes(Loop(cfg, orc, max, s)) == Path(Rounds(cfg, orc, max, s))
  {
    hide Asked, NextRound, Agent, Tools, GuardOut, AfterAgent, Loop, Nodes, Rounds, Path;
    LoopRound(cfg, orc, max, s);
    RoundsStep(cfg, orc, max, s);
    var agent := Step(NAgent, Agent(cfg, orc, s));
    var tools := Step(NTools, Tools(cfg, orc, Asked(cfg, orc, s)));
    var t := NextRound(cfg, orc, s);
    RoundsBound(cfg, orc, max, t);
    RoundNodes(agent, tools, Loop(cfg, orc, max, t), Rounds(cfg, orc, max, t));
  }

  lemma LastRoundPath(cfg: Config, orc: Oracle, max: int, s: Dict)
    requires !s.Blocked() && AfterAgent(Asked(cfg, orc, s), max) == NGuardOut
    ensures Nodes(Loop(cfg, orc, max, s)) == Path(Rounds(cfg, orc, max, s))
  {
    hide Asked, NextRound, Agent, GuardOut, AfterAgent, Loop, Nodes, Rounds, Path;
    LoopRound(cfg, orc, max, s);
    RoundsStep(cfg, orc, max, s);
    PathOne();
    TwoNodes(Step(NAgent, Agent(cfg, orc, s)), Step(NGuardOut, GuardOut(cfg, orc, Asked(cfg, orc, s))));
  }

  lemma PathOne()
    ensures Path(1) == [NAgent, NGuardOut]
  {}

  lemma RoundNodes(agent: Step, tools: Step, rest: seq<Step>, k: nat)
    requires agent.node == NAgent && tools.node == NTools && k >= 1 && Nodes(rest) == Path(k)
    ensures Nodes([agent] + ([tools] + rest)) == Path(k + 1)
  {
    NodesCons(agent, [tools] + rest);
    NodesCons(tools, rest);
  }

  lemma TwoNodes(x: Step, y: Step)
    ensures Nodes([x] + [y]) == [x.node, y.node]
  {
    NodesCons(x, [y]);
    NodesCons(y, []);
    assert [y] + [] == [y];
  }

  // What the two parallel nodes leave: everything but their own keys as it was.
  lemma HeadsState(orc: Oracle, history: seq<Msg>, text: string, intake: Intake, guardFirst: bool)
    ensures var s := InitialState(history, text, intake);
            var t := AfterHeads(orc, s, guardFirst);
            && t.Iterations() == 0 && t.Used() == Usage(0, 0) && t.Messages() == history + [Human(text)]
            && t.Known() == intake && t.Blocked() == GuardIn(orc, s).Blocked()
  {}

  // Every run is {guard_in, retrieve} and then, when blocked, one refusing agent node; otherwise
  // agent (tools agent)^(k-1) guard_out with 1 <= k <= max(1, max_graph_iterations).
  lemma RunPath(cfg: Config, orc: Oracle, max: int, history: seq<Msg>, text: string, intake: Intake, guardFirst: bool)
    ensures var s := InitialState(history, text, intake);
            var nodes := Nodes(Run(cfg, orc, max, s, guardFirst));
            var heads := if guardFirst then [NGuardIn, NRetrieve] else [NRetrieve, NGuardIn];
            if GuardIn(orc, s).Blocked() then nodes == heads + [NAgent]
            else exists k: nat :: 1 <= k <= Max(1, max) && nodes == heads + Path(k)
  {
    var s := InitialState(history, text, intake);
    var s2 := AfterHeads(orc, s, guardFirst);
    HeadsState(orc, history, text, intake, guardFirst);
    RunNodes(cfg, orc, max, s, guardFirst);
    hide InitialState, AfterHeads, GuardIn, Run, Loop, Nodes;
    if s2.Blocked() {
      BlockedLoop(cfg, orc, max, s2);
    } else {
      RoundsBound(cfg, orc, max, s2);
      LoopPath(cfg, orc, max, s2);
    }
  }

  lemma RunNodes(cfg: Config, orc: Oracle, max: int, s: Dict, guardFirst: bool)
    ensures Nodes(Run(cfg, orc, max, s, guardFirst))
            == (if guardFirst then [NGuardIn, NRetrieve] else [NRetrieve, NGuardIn])
               + Nodes(Loop(cfg, orc, max, AfterHeads(orc, s, guardFirst)))
  {
    var heads := Heads(orc, s, guardFirst);
    var loop := Loop(cfg, orc, max, AfterHeads(orc, s, guardFirst));
    hide AfterHeads, GuardIn, Retrieve, Loop;
    assert heads + loop == [heads[0]] + ([heads[1]] + loop);
    NodesCons(heads[0], [heads[1]] + loop);
    NodesCons(heads[1], loop);
  }

  // A blocked turn: the refusal, and END.
  lemma BlockedLoop(cfg: Config, orc: Oracle, max: int, s: Dict)
    requires s.Blocked()
    ensures Loop(cfg, orc, max, s) == [Step(NAgent, Agent(cfg, orc, s))]
    ensures Nodes(Loop(cfg, orc, max, s)) == [NAgent]
  {
    var agent := Step(NAgent, Agent(cfg, orc, s));
    assert [agent][1..] == [];
    BlockedStays(cfg, orc, s);
  }

  lemma BlockedStays(cfg: Config, orc: Oracle, s: Dict)
    requires s.Blocked()
    ensures Asked(cfg, orc, s).Blocked()
    ensures Agent(cfg, orc, s).messages == Some([AI(cfg.refusal, [])]) && Agent(cfg, orc, s).usage.None?
  {}

  // ---------------------------------------------------------------- sums and what only grows

  // Tokens of answers from + 1 to from + k.
  function Tokens(orc: Oracle, from: nat, k: nat): Usage
    decreases k
  {
    if k == 0 then Usage(0, 0) else orc.answer(from + 1).tokens.Plus(Tokens(orc, from + 1, k - 1))
  }

  lemma RoundReduces(cfg: Config, orc: Oracle, s: Dict)
    ensures Reduce(s, Agent(cfg, orc, s)) == Asked(cfg, orc, s)
    ensures Reduce(Asked(cfg, orc, s), Tools(cfg, orc, Asked(cfg, orc, s))) == NextRound(cfg, orc, s)
    ensures Reduce(Asked(cfg, orc, s), GuardOut(cfg, orc, Asked(cfg, orc, s))).Used() == Asked(cfg, orc, s).Used()
  {
    hide Reduce, Agent, Tools;
    GuardOutKeepsUsage(cfg, orc, Asked(cfg, orc, s));
  }

  lemma RoundFinal(cfg: Config, orc: Oracle, max: int, s: Dict)
    requires AfterAgent(Asked(cfg, orc, s), max) == NTools
    ensures FinalState(s, Loop(cfg, orc, max, s))
            == FinalState(NextRound(cfg, orc, s), Loop(cfg, orc, max, NextRound(cfg, orc, s)))
  {
    hide Asked, NextRound, Reduce, Agent, Tools, GuardOut, AfterAgent, Loop, FinalState;
    LoopRound(cfg, orc, max, s);
    RoundReduces(cfg, orc, s);
    var s1, t := Asked(cfg, orc, s), NextRound(cfg, orc, s);
    var agent, tools := Step(NAgent, Agent(cfg, orc, s)), Step(NTools, Tools(cfg, orc, s1));
    FinalCons(s, agent, [tools] + Loop(cfg, orc, max, t));
    FinalCons(s1, tools, Loop(cfg, orc, max, t));
  }

  lemma LastRoundFinal(cfg: Config, orc: Oracle, max: int, s: Dict)
    requires AfterAgent(Asked(cfg, orc, s), max) == NGuardOut
    ensures FinalState(s, Loop(cfg, orc, max, s)) == Reduce(Asked(cfg, orc, s), GuardOut(cfg, orc, Asked(cfg, orc, s)))
  {
    hide Asked, NextRound, Reduce, Agent, Tools, GuardOut, AfterAgent, Loop, FinalState;
    LoopRound(cfg, orc, max, s);
    RoundReduces(cfg, orc, s);
    FinalTwo(s, Step(NAgent, Agent(cfg, orc, s)), Step(NGuardOut, GuardOut(cfg, orc, Asked(cfg, orc, s))));
  }

  lemma TokensStep(orc: Oracle, used: Usage, from: nat, k: nat)
    ensures used.Plus(Tokens(orc, from, k + 1)) == used.Plus(orc.answer(from + 1).tokens).Plus(Tokens(orc, from + 1, k))
    ensures used.Plus(Tokens(orc, from, 1)) == used.Plus(orc.answer(from + 1).tokens)
  {
    assert Tokens(orc, from + 1, 0) == Usage(0, 0);
  }

  lemma {:induction false} LoopUsage(cfg: Config, orc: Oracle, max: int, s: Dict)
    requires !s.Blocked()
    ensures FinalState(s, Loop(cfg, orc, max, s)).Used()
            == s.Used().Plus(Tokens(orc, s.Iterations(), Rounds(cfg, orc, max, s)))
    decreases max - s.Iterations()
  {
    hide Asked, NextRound, Reduce, Agent, Tools, GuardOut, AfterAgent, Loop, FinalState, Rounds, Tokens, Usage.Plus;
    AfterRound(cfg, orc, max, s);
    RoundsStep(cfg, orc, max, s);
    RoundReduces(cfg, orc, s);
    TokensStep(orc, s.Used(), s.Iterations(), Rounds(cfg, orc, max, NextRound(cfg, orc, s)));
    if AfterAgent(Asked(cfg, orc, s), max) == NTools {
      LoopUsage(cfg, orc, max, NextRound(cfg, orc, s));
      RoundFinal(cfg, orc, max, s);
    } else {
      LastRoundFinal(cfg, orc, max, s);
    }
  }

  lemma FinalCons(s: Dict, x: Step, rest: seq<Step>)
    ensures FinalState(s, [x] + rest) == FinalState(Reduce(s, x.update), rest)
  {
    hide Reduce;
    assert ([x] + rest)[1..] == rest;
  }

  lemma FinalTwo(s: Dict, x: Step, y: Step)
    ensures FinalState(s, [x] + [y]) == Reduce(Reduce(s, x.update), y.update)
  {
    FinalCons(s, x, [y]);
    FinalCons(Reduce(s, x.update), y, []);
    assert [y] + [] == [y];
  }

  lemma GuardOutKeepsUsage(cfg: Config, orc: Oracle, s: Dict)
    ensures Reduce(s, GuardOut(cfg, orc, s)).Used() == s.Used()
  {}

  // Escalation, once set, and the intake keys, once known, stay.
  ghost predicate Keeps(s: Dict, t: Dict) {
    (s.Escalated() ==> t.Escalated()) && s.Known().Keys <= t.Known().Keys
  }

  // Each of the steps keeps them.
  ghost predicate AllKeep(s: Dict, steps: seq<Step>)
    decreases |steps|
  {
    steps != [] ==> Keeps(s, Reduce(s, steps[0].update)) && AllKeep(Reduce(s, steps[0].update), steps[1..])
  }

  lemma AllKeepCons(s: Dict, x: Step, rest: seq<Step>)
    requires Keeps(s, Reduce(s, x.update)) && AllKeep(Reduce(s, x.update), rest)
    ensures AllKeep(s, [x] + rest)
  {
    assert ([x] + rest)[1..] == rest;
  }

  lemma {:induction false} CallsKeep(cfg: Config, orc: Oracle, k: nat, calls: seq<Call>, n: nat, intake: Intake,
                                     esc: bool)
    requires n <= |calls|
    ensures var r := AfterCalls(cfg, orc, k, calls, n, intake, esc);
            intake.Keys <= r.0.Keys && (esc ==> r.1)
  {
    if n > 0 {
      CallsKeep(cfg, orc, k, calls, n - 1, intake, esc);
    }
  }

  lemma ToolsKeep(cfg: Config, orc: Oracle, s: Dict)
    ensures Keeps(s, Reduce(s, Tools(cfg, orc, s)))
  {
    CallsKeep(cfg, orc, s.Iterations(), Calls(s), |Calls(s)|, s.Known(), s.Escalated());
    hide AfterCalls;
  }

  lemma AgentAndGuardKeep(cfg: Config, orc: Oracle, s: Dict)
    ensures Keeps(s, Reduce(s, Agent(cfg, orc, s))) && Keeps(s, Reduce(s, GuardOut(cfg, orc, s)))
  {}

  lemma {:induction false} LoopKeeps(cfg: Config, orc: Oracle, max: int, s: Dict)
    ensures AllKeep(s, Loop(cfg, orc, max, s))
    decreases max - s.Iterations()
  {
    LoopRound(cfg, orc, max, s);
    NextIteration(cfg, orc, s);
    var s1 := Asked(cfg, orc, s);
    var agent := Step(NAgent, Agent(cfg, orc, s));
    AgentAndGuardKeep(cfg, orc, s);
    AgentAndGuardKeep(cfg, orc, s1);
    ToolsKeep(cfg, orc, s1);
    AllKeepNothing(Reduce(s1, GuardOut(cfg, orc, s1)));
    AllKeepNothing(s1);
    assert [Step(NGuardOut, GuardOut(cfg, orc, s1))] + [] == [Step(NGuardOut, GuardOut(cfg, orc, s1))];
    assert [agent] + [] == [agent];
    hide Reduce, Agent, Tools, GuardOut, AfterAgent, Loop, AllKeep, Keeps;
    if AfterAgent(s1, max) == NTools {
      var tools, rest := Step(NTools, Tools(cfg, orc, s1)), Loop(cfg, orc, max, NextRound(cfg, orc, s));
      LoopKeeps(cfg, orc, max, NextRound(cfg, orc, s));
      AllKeepCons(s1, tools, rest);
      AllKeepCons(s, agent, [tools] + rest);
    } else if AfterAgent(s1, max) == NGuardOut {
      AllKeepCons(s1, Step(NGuardOut, GuardOut(cfg, orc, s1)), []);
      AllKeepCons(s, agent, [Step(NGuardOut, GuardOut(cfg, orc, s1))]);
    } else {
      AllKeepCons(s, agent, []);
    }
  }

  lemma AllKeepNothing(s: Dict)
    ensures AllKeep(s, [])
  {}

  lemma NextIteration(cfg: Config, orc: Oracle, s: Dict)
    ensures NextRound(cfg, orc, s).Iterations() == s.Iterations() + 1
    ensures Asked(cfg, orc, s).Iterations() == s.Iterations() + 1
  {
    hide AfterCalls;
  }

  lemma {:induction false} AllKeepFirstAndLast(s: Dict, a: seq<Step>, b: seq<Step>)
    requires AllKeep(s, a + b)
    ensures Keeps(FinalState(s, a), FinalState(s, a + b))
    decreases |a| + |b|
  {
    hide Reduce, Keeps;
    if a + b == [] {
      KeepsItself(s);
    } else if a == [] {
      var rest := b[1..];
      assert a + b == b && [] + rest == rest;
      var t := Reduce(s, b[0].update);
      AllKeepFirstAndLast(t, [], rest);
      KeepsThrough(s, t, FinalState(t, rest));
    } else {
      assert (a + b)[1..] == a[1..] + b;
      AllKeepFirstAndLast(Reduce(s, a[0].update), a[1..], b);
    }
  }

  lemma KeepsItself(s: Dict)
    ensures Keeps(s, s)
  {}

  lemma KeepsThrough(s: Dict, t: Dict, u: Dict)
    requires Keeps(s, t) && Keeps(t, u)
    ensures Keeps(s, u)
  {}

  // Over a whole run, from any point on: escalation never goes back to false, no intake key
  // disappears.
  lemma RunKeeps(cfg: Config, orc: Oracle, max: int, history: seq<Msg>, text: string, intake: Intake,
                 guardFirst: bool, a: seq<Step>, b: seq<Step>)
    requires Run(cfg, orc, max, InitialState(history, text, intake), guardFirst) == a + b
    ensures Keeps(FinalState(InitialState(history, text, intake), a), FinalState(InitialState(history, text, intake),
        a + b))
  {
    var s := InitialState(history, text, intake);
    var heads := Heads(orc, s, guardFirst);
    HeadsKeep(orc, s, guardFirst);
    LoopKeeps(cfg, orc, max, AfterHeads(orc, s, guardFirst));
    var loop := Loop(cfg, orc, max, AfterHeads(orc, s, guardFirst));
    hide InitialState, Reduce, Loop, GuardIn, Retrieve, Keeps, AllKeep, FinalState;
    assert AfterHeads(orc, s, guardFirst) == Reduce(Reduce(s, heads[0].update), heads[1].update);
    hide Heads, AfterHeads;
    AllKeepCons(Reduce(s, heads[0].update), heads[1], loop);
    AllKeepCons(s, heads[0], [heads[1]] + loop);
    assert a + b == [heads[0]] + ([heads[1]] + loop) by {
      assert heads == [heads[0]] + [heads[1]];
    }
    AllKeepFirstAndLast(s, a, b);
  }

  lemma HeadsKeep(orc: Oracle, s: Dict, guardFirst: bool)
    requires !s.Escalated()
    ensures var h := Heads(orc, s, guardFirst);
            var s1 := Reduce(s, h[0].update);
            Keeps(s, s1) && Keeps(s1, Reduce(s1, h[1].update))
  {}

  // The tokens charged to a run are those of its agent calls; a blocked run is free.
  lemma RunUsage(cfg: Config, orc: Oracle, max: int, history: seq<Msg>, text: string, intake: Intake, guardFirst: bool)
    ensures var s := InitialState(history, text, intake);
            var s2 := AfterHeads(orc, s, guardFirst);
            FinalState(s, Run(cfg, orc, max, s, guardFirst)).Used()
            == if GuardIn(orc, s).Blocked() then Usage(0, 0) else Tokens(orc, 0, Rounds(cfg, orc, max, s2))
  {
    hide InitialState, AfterHeads, Run, Loop, FinalState, Rounds, Tokens, GuardIn, Asked;
    var s := InitialState(history, text, intake);
    var s2 := AfterHeads(orc, s, guardFirst);
    HeadsState(orc, history, text, intake, guardFirst);
    RunFinal(cfg, orc, max, s, guardFirst);
    if s2.Blocked() {
      BlockedLoop(cfg, orc, max, s2);
      BlockedFinal(cfg, orc, s2);
    } else {
      LoopUsage(cfg, orc, max, s2);
    }
  }

  lemma RunFinal(cfg: Config, orc: Oracle, max: int, s: Dict, guardFirst: bool)
    ensures FinalState(s, Run(cfg, orc, max, s, guardFirst))
            == FinalState(AfterHeads(orc, s, guardFirst), Loop(cfg, orc, max, AfterHeads(orc, s, guardFirst)))
  {
    var heads := Heads(orc, s, guardFirst);
    var loop := Loop(cfg, orc, max, AfterHeads(orc, s, guardFirst));
    hide Loop, GuardIn, Retrieve, Reduce;
    assert heads + loop == [heads[0]] + ([heads[1]] + loop);
    FinalCons(s, heads[0], [heads[1]] + loop);
    FinalCons(Reduce(s, heads[0].update), heads[1], loop);
  }

  lemma BlockedFinal(cfg: Config, orc: Oracle, s: Dict)
    requires s.Blocked()
    ensures var t := FinalState(s, [Step(NAgent, Agent(cfg, orc, s))]);
            t == Asked(cfg, orc, s) && t.Used() == s.Used() && t.Messages() == s.Messages() + [AI(cfg.refusal, [])]
  {
    var agent := Step(NAgent, Agent(cfg, orc, s));
    FinalCons(s, agent, []);
    assert [agent] + [] == [agent];
  }
}
