// Which text a turn answers (app/services/turn.py:134-138, app/api/chat.py:98-102 and 148-160,
// app/graph/nodes/guards.py:115-143): the exact condition under which both transports give the same
// reply, and under which the reply is one the output guard has seen.
module Replies {
  import opened Prelude
  import opened AgentGraph
  import opened GraphRuns
  import opened Turn

  // ---------------------------------------------------------------- blank texts

  predicate AllSpace(s: string) {
    forall i :: 0 <= i < |s| ==> IsSpace(s[i])
  }

  lemma {:induction false} LeadingAll(s: string, n: nat)
    requires n <= |s|
    ensures Leading(s, n) == |s| <==> forall i :: n <= i < |s| ==> IsSpace(s[i])
    decreases |s| - n
  {
    hide IsSpace;
    if n < |s| && IsSpace(s[n]) {
      LeadingAll(s, n + 1);
    }
  }

  lemma {:induction false} TrailingIsPast(s: string, n: nat, k: nat)
    requires k < n <= |s| && !IsSpace(s[k])
    ensures k < Trailing(s, n)
  {
    hide IsSpace;
    if IsSpace(s[n - 1]) {
      TrailingIsPast(s, n - 1, k);
    }
  }

  lemma BlankIff(s: string)
    ensures Strip(s) == "" <==> AllSpace(s)
  {
    hide IsSpace;
    LeadingAll(s, 0);
    var lo := Leading(s, 0);
    if lo < |s| {
      TrailingIsPast(s, |s|, lo);
    }
  }

  // ---------------------------------------------------------------- many texts, one reply

  // The first n texts, one after the other.
  function Joined(texts: seq<string>, n: nat): string
    requires n <= |texts|
  {
    if n == 0 then "" else Joined(texts, n - 1) + texts[n - 1]
  }

  // The latest non-blank of the first n texts, or else what was there before.
  function Latest(before: string, texts: seq<string>, n: nat): string
    requires n <= |texts|
  {
    if n == 0 then before
    else if Strip(texts[n - 1]) != "" then texts[n - 1]
    else Latest(before, texts, n - 1)
  }

  // Of the first n texts only the j-th is not empty.
  ghost predicate OnlyVoice(texts: seq<string>, n: nat, j: int)
    requires n <= |texts|
  {
    0 <= j < n && Strip(texts[j]) != "" && forall i :: 0 <= i < n && i != j ==> texts[i] == ""
  }

  ghost predicate AllEmpty(texts: seq<string>, n: nat)
    requires n <= |texts|
  {
    forall i :: 0 <= i < n ==> texts[i] == ""
  }

  lemma {:induction false} LatestIsOne(before: string, texts: seq<string>, n: nat) returns (j: int)
    requires n <= |texts|
    ensures -1 <= j < n
    ensures 0 <= j ==> Strip(texts[j]) != "" && Latest(before, texts, n) == texts[j]
    ensures j == -1 ==>
              Latest(before, texts, n) == before && forall i :: 0 <= i < n ==> Strip(texts[i]) == ""
  {
    hide Strip;
    j := -1;
    if n > 0 {
      if Strip(texts[n - 1]) != "" {
        j := n - 1;
      } else {
        j := LatestIsOne(before, texts, n - 1);
      }
    }
  }

  lemma {:induction false} JoinedIsLong(texts: seq<string>, n: nat, i: int, j: int)
    requires n <= |texts| && 0 <= i < n
    ensures |Joined(texts, n)| >= |texts[i]|
    ensures 0 <= j < n && j != i ==> |Joined(texts, n)| >= |texts[i]| + |texts[j]|
  {
    if i < n - 1 {
      JoinedIsLong(texts, n - 1, i, j);
    } else if 0 <= j < n - 1 {
      JoinedIsLong(texts, n - 1, j, i);
    }
  }

  lemma JoinEmpty(a: string, b: string)
    ensures a == "" ==> a + b == b
    ensures b == "" ==> a + b == a
  {
  }

  lemma {:induction false} JoinedOfOne(texts: seq<string>, n: nat, j: int)
    requires n <= |texts| && forall i :: 0 <= i < n && i != j ==> texts[i] == ""
    ensures Joined(texts, n) == if 0 <= j < n then texts[j] else ""
  {
    if n > 0 {
      JoinedOfOne(texts, n - 1, j);
      JoinEmpty(Joined(texts, n - 1), texts[n - 1]);
    }
  }

  lemma {:induction false} JoinedBlanks(texts: seq<string>, n: nat)
    requires n <= |texts| && forall i :: 0 <= i < n ==> Strip(texts[i]) == ""
    ensures AllSpace(Joined(texts, n))
  {
    hide Strip, IsSpace;
    if n > 0 {
      JoinedBlanks(texts, n - 1);
      BlankIff(texts[n - 1]);
    }
  }

  // The texts joined are the latest of them exactly when only one says anything, or none does and
  // nothing was there before.
  lemma JoinedIsLatestIff(before: string, texts: seq<string>, n: nat)
    requires n <= |texts| && (before == "" || Strip(before) != "")
    ensures Joined(texts, n) == Latest(before, texts, n)
            <==> (exists j :: OnlyVoice(texts, n, j)) || (AllEmpty(texts, n) && before == "")
  {
    hide Strip, IsSpace, Joined, Latest;
    var j := LatestIsOne(before, texts, n);
    if Joined(texts, n) == Latest(before, texts, n) {
      forall i | 0 <= i < n && i != j ensures texts[i] == "" {
        if 0 <= j < n {
          JoinedIsLong(texts, n, i, j);
        } else {
          JoinedBlanks(texts, n);
          BlankIff(before);
          JoinedIsLong(texts, n, i, i);
        }
      }
      if 0 <= j < n {
        assert OnlyVoice(texts, n, j);
      } else {
        JoinedOfOne(texts, n, j);
      }
    }
    if k :| OnlyVoice(texts, n, k) {
      JoinedOfOne(texts, n, k);
      EmptyIsBlank();
      assert j == k;
    }
    if AllEmpty(texts, n) && before == "" {
      JoinedOfOne(texts, n, -1);
      EmptyIsBlank();
    }
  }

  lemma EmptyIsBlank()
    ensures Strip("") == ""
  {
  }

  // ---------------------------------------------------------------- what the agent says in a turn

  // The texts of the agent node's messages.
  function AgentTexts(steps: seq<Step>): seq<string>
    decreases |steps|
  {
    if steps == [] then []
    else
      var messages := steps[0].update.Messages();
      (if steps[0].node == NAgent && messages != [] then [TextOf(messages[0])] else []) + AgentTexts(steps[1..])
  }

  function TextOf(m: Msg): string {
    m.text
  }

  lemma TextsCons(x: Step, rest: seq<Step>)
    ensures AgentTexts([x] + rest)
            == (if x.node == NAgent && x.update.Messages() != [] then [TextOf(x.update.Messages()[0])] else [])
               + AgentTexts(rest)
  {
    assert ([x] + rest)[1..] == rest;
  }

  // The stream of a run: its updates, and between them the agent's own texts, chunk by chunk.
  ghost predicate Streams(items: seq<Item>, steps: seq<Step>) {
    && Updates(items, |items|) == steps
    && var texts := AgentTexts(steps); Emitted(items, |items|) == Joined(texts, |texts|)
  }

  // Every run has such a stream: the whole text in one chunk, say, and then the updates.
  lemma {:induction false} StreamExists(steps: seq<Step>) returns (items: seq<Item>)
    ensures Streams(items, steps)
  {
    hide AgentTexts, Joined;
    var texts := AgentTexts(steps);
    var chunk := Chunk(NAgent, Joined(texts, |texts|));
    items := [chunk] + seq(|steps|, i requires 0 <= i < |steps| => Update(steps[i]));
    StreamPrefix(items, chunk, steps, |steps|);
    assert steps[..|steps|] == steps;
  }

  lemma {:induction false} StreamPrefix(items: seq<Item>, chunk: Item, steps: seq<Step>, n: nat)
    requires |items| == |steps| + 1 && items[0] == chunk && chunk.Chunk? && chunk.node == NAgent && n <= |steps|
    requires forall i :: 0 <= i < |steps| ==> items[i + 1] == Update(steps[i])
    ensures Updates(items, n + 1) == steps[..n] && Emitted(items, n + 1) == chunk.text
  {
    if n == 0 {
      assert Updates(items, 0) == [] && Emitted(items, 0) == "";
    } else {
      StreamPrefix(items, chunk, steps, n - 1);
      assert steps[..n] == steps[..n - 1] + [steps[n - 1]];
    }
  }

  // The state guard_out sees at the end of an unblocked loop.
  function Before(cfg: Config, orc: Oracle, max: int, s: Dict): Dict
    decreases max - s.Iterations()
  {
    if AfterAgent(Asked(cfg, orc, s), max) == NTools then Before(cfg, orc, max, NextRound(cfg, orc, s))
    else Asked(cfg, orc, s)
  }

  function LastText(pre: Dict): string
    requires pre.Messages() != []
  {
    TextOf(pre.Messages()[|pre.Messages()| - 1])
  }

  function LoopTexts(cfg: Config, orc: Oracle, max: int, s: Dict): seq<string> {
    AgentTexts(Loop(cfg, orc, max, s))
  }

  lemma BeforeRound(cfg: Config, orc: Oracle, max: int, s: Dict)
    ensures Before(cfg, orc, max, s)
            == if AfterAgent(Asked(cfg, orc, s), max) == NTools then Before(cfg, orc, max, NextRound(cfg, orc, s))
               else Asked(cfg, orc, s)
  {
    hide Asked, AfterAgent;
  }

  lemma TextsRound(cfg: Config, orc: Oracle, max: int, s: Dict)
    requires !s.Blocked()
    ensures LoopTexts(cfg, orc, max, s)
            == [orc.answer(s.Iterations() + 1).text]
               + (if AfterAgent(Asked(cfg, orc, s), max) == NTools then LoopTexts(cfg, orc, max, NextRound(cfg, orc, s))
                  else [])
  {
    hide Asked, NextRound, AfterAgent, Loop, AgentTexts, Agent, Tools, GuardOut;
    LoopRound(cfg, orc, max, s);
    AfterRound(cfg, orc, max, s);
    AgentSays(cfg, orc, s);
    var s1 := Asked(cfg, orc, s);
    var agent := Step(NAgent, Agent(cfg, orc, s));
    if AfterAgent(s1, max) == NTools {
      TextsOfRound(agent, Step(NTools, Tools(cfg, orc, s1)), Loop(cfg, orc, max, NextRound(cfg, orc, s)));
    } else {
      TextsOfEnd(agent, Step(NGuardOut, GuardOut(cfg, orc, s1)));
    }
  }

  lemma AgentSays(cfg: Config, orc: Oracle, s: Dict)
    requires !s.Blocked()
    ensures var u := Agent(cfg, orc, s);
            u.Messages() != [] && TextOf(u.Messages()[0]) == orc.answer(s.Iterations() + 1).text
  {
  }

  lemma TextsOfRound(agent: Step, tools: Step, rest: seq<Step>)
    requires agent.node == NAgent && agent.update.Messages() != [] && tools.node == NTools
    ensures AgentTexts([agent] + ([tools] + rest)) == [TextOf(agent.update.Messages()[0])] + AgentTexts(rest)
  {
    hide AgentTexts, TextOf;
    TextsCons(agent, [tools] + rest);
    TextsCons(tools, rest);
  }

  lemma TextsOfEnd(agent: Step, guard: Step)
    requires agent.node == NAgent && agent.update.Messages() != [] && guard.node == NGuardOut
    ensures AgentTexts([agent] + [guard]) == [TextOf(agent.update.Messages()[0])]
  {
    hide AgentTexts, TextOf;
    TextsCons(agent, [guard]);
    TextsCons(guard, []);
    NoTexts();
    assert [guard] + [] == [guard];
  }

  lemma NoTexts()
    ensures AgentTexts([]) == []
  {
  }

  // ---------------------------------------------------------------- the reply, message by message

  lemma {:induction false} ReplyPrefix(a: seq<Msg>, b: seq<Msg>, n: nat)
    requires n <= |a|
    ensures ReplyIn(a + b, n) == ReplyIn(a, n)
  {
    hide IsReply;
    if n > 0 {
      ReplyPrefix(a, b, n - 1);
    }
  }

  lemma ReplyOfOneMore(messages: seq<Msg>, m: Msg)
    ensures Reply(messages + [m]) == if IsReply(m) then m.text else Reply(messages)
  {
    hide IsReply;
    ReplyPrefix(messages, [m], |messages|);
  }

  predicate NoneSpeaks(messages: seq<Msg>) {
    forall m :: m in messages ==> !m.AI?
  }

  lemma {:induction false} ReplyPastTools(messages: seq<Msg>, more: seq<Msg>)
    requires NoneSpeaks(more)
    ensures Reply(messages + more) == Reply(messages)
    decreases |more|
  {
    hide ReplyIn;
    if more == [] {
      assert messages + more == messages;
    } else {
      var n := |more| - 1;
      ReplyPastTools(messages, more[..n]);
      ReplyOfOneMore(messages + more[..n], more[n]);
      assert messages + more == (messages + more[..n]) + [more[n]];
    }
  }

  lemma {:induction false} ReplyIsNotBlank(messages: seq<Msg>, n: nat)
    requires n <= |messages|
    ensures ReplyIn(messages, n) == "" || Strip(ReplyIn(messages, n)) != ""
  {
    hide Strip;
    if n > 0 {
      ReplyIsNotBlank(messages, n - 1);
    }
  }

  lemma {:induction false} ToolsSayNothing(cfg: Config, orc: Oracle, k: nat, calls: seq<Call>, n: nat, intake: Intake,
                                           esc: bool)
    requires n <= |calls|
    ensures NoneSpeaks(AfterCalls(cfg, orc, k, calls, n, intake, esc).2)
  {
    hide ResultOf;
    if n > 0 {
      ToolsSayNothing(cfg, orc, k, calls, n - 1, intake, esc);
      var was := AfterCalls(cfg, orc, k, calls, n - 1, intake, esc);
      var m := ToolMsg(ResultOf(cfg, orc, k, calls, n - 1).text, calls[n - 1].name);
      assert AfterCalls(cfg, orc, k, calls, n, intake, esc).2 == was.2 + [m];
    }
  }

  lemma ReplyAfterTools(cfg: Config, orc: Oracle, s: Dict)
    ensures Reply(Reduce(s, Tools(cfg, orc, s)).Messages()) == Reply(s.Messages())
  {
    hide ReplyIn, AfterCalls;
    var calls := Calls(s);
    ToolsSayNothing(cfg, orc, s.Iterations(), calls, |calls|, s.Known(), s.Escalated());
    var out := AfterCalls(cfg, orc, s.Iterations(), calls, |calls|, s.Known(), s.Escalated()).2;
    if calls == [] {
      assert s.Messages() + [] == s.Messages();
    } else {
      ReplyPastTools(s.Messages(), out);
    }
  }

  lemma ReplyAfterAsking(cfg: Config, orc: Oracle, s: Dict)
    requires !s.Blocked()
    ensures var text := orc.answer(s.Iterations() + 1).text;
            Reply(Asked(cfg, orc, s).Messages()) == if Strip(text) != "" then text else Reply(s.Messages())
  {
    hide ReplyIn, Strip, Asked;
    AskedMessages(cfg, orc, s);
    var a := orc.answer(s.Iterations() + 1);
    ReplyOfOneMore(s.Messages(), AI(a.text, a.calls));
  }

  lemma {:induction false} LatestCons(before: string, first: string, rest: seq<string>, n: nat)
    requires n <= |rest|
    ensures Latest(before, [first] + rest, n + 1) == Latest(if Strip(first) != "" then first else before, rest, n)
  {
    hide Strip;
    var all := [first] + rest;
    if n == 0 {
      assert all[0] == first && Latest(before, all, 0) == before;
    } else {
      LatestCons(before, first, rest, n - 1);
      assert all[n] == rest[n - 1];
    }
  }

  // guard_out sees the last answer as the last message.
  lemma {:induction false} BeforeGuard(cfg: Config, orc: Oracle, max: int, s: Dict)
    requires !s.Blocked()
    ensures var pre := Before(cfg, orc, max, s);
            && !pre.Blocked() && pre.Messages() != [] && pre.Messages()[|pre.Messages()| - 1].AI?
            && LastText(pre) == orc.answer(pre.Iterations()).text
            && FinalState(s, Loop(cfg, orc, max, s)) == Reduce(pre, GuardOut(cfg, orc, pre))
    decreases max - s.Iterations()
  {
    hide Asked, NextRound, Reduce, Agent, Tools, GuardOut, AfterAgent, Loop, FinalState, Before;
    AfterRound(cfg, orc, max, s);
    AskedMessages(cfg, orc, s);
    BeforeRound(cfg, orc, max, s);
    if AfterAgent(Asked(cfg, orc, s), max) == NTools {
      BeforeGuard(cfg, orc, max, NextRound(cfg, orc, s));
      RoundFinal(cfg, orc, max, s);
    } else {
      LastRoundFinal(cfg, orc, max, s);
    }
  }

  // What is heard after these texts, when before was heard before them.
  function Heard(before: string, texts: seq<string>): string {
    Latest(before, texts, |texts|)
  }

  lemma HeardNext(before: string, text: string, rest: seq<string>)
    ensures Heard(before, [text] + rest) == Heard(if Strip(text) != "" then text else before, rest)
  {
    hide Strip, Latest;
    LatestCons(before, text, rest, |rest|);
  }

  lemma HeardNothing(before: string)
    ensures Heard(before, []) == before
  {
  }

  // And the reply its messages hold is the latest non-blank answer of the turn, or else that of the
  // messages before the turn.
  lemma {:induction false} ReplyBeforeGuard(cfg: Config, orc: Oracle, max: int, s: Dict)
    requires !s.Blocked()
    ensures Reply(Before(cfg, orc, max, s).Messages()) == Heard(Reply(s.Messages()), LoopTexts(cfg, orc, max, s))
    decreases max - s.Iterations()
  {
    hide *;
    AfterRound(cfg, orc, max, s);
    BeforeRound(cfg, orc, max, s);
    TextsRound(cfg, orc, max, s);
    ReplyAfterAsking(cfg, orc, s);
    var text := orc.answer(s.Iterations() + 1).text;
    var held := if Strip(text) != "" then text else Reply(s.Messages());
    if AfterAgent(Asked(cfg, orc, s), max) == NTools {
      var t := NextRound(cfg, orc, s);
      ReplyAfterRound(cfg, orc, s);
      ReplyBeforeGuard(cfg, orc, max, t);
      HeardNext(Reply(s.Messages()), text, LoopTexts(cfg, orc, max, t));
    } else {
      HeardNext(Reply(s.Messages()), text, []);
      HeardNothing(held);
    }
  }

  lemma ReplyAfterRound(cfg: Config, orc: Oracle, s: Dict)
    ensures Reply(NextRound(cfg, orc, s).Messages()) == Reply(Asked(cfg, orc, s).Messages())
  {
    hide Reply, Reduce, Tools;
    ReplyAfterTools(cfg, orc, Asked(cfg, orc, s));
  }

  // ---------------------------------------------------------------- both transports

  // Of all the agent said in the turn there is one non-blank text and nothing else - or nothing at
  // all, and no earlier assistant message to fall back on.
  ghost predicate OneVoice(texts: seq<string>, earlier: string) {
    (exists j :: OnlyVoice(texts, |texts|, j)) || (AllEmpty(texts, |texts|) && earlier == "")
  }

  // What the final state of a run holds: its last message, and the reply if that one is not it.
  lemma LoopReply(cfg: Config, orc: Oracle, max: int, s: Dict)
    ensures var f := FinalState(s, Loop(cfg, orc, max, s));
            && f.Messages() != []
            && (!IsReply(f.Messages()[|f.Messages()| - 1]) ==>
                  Reply(f.Messages()) == Heard(Reply(s.Messages()), LoopTexts(cfg, orc, max, s)))
  {
    hide Asked, Reduce, Agent, GuardOut, Loop, LoopTexts, FinalState, Before, Reply, Heard, IsReply, Strip;
    if s.Blocked() {
      BlockedReply(cfg, orc, max, s);
    } else {
      BeforeGuard(cfg, orc, max, s);
      ReplyBeforeGuard(cfg, orc, max, s);
      var pre := Before(cfg, orc, max, s);
      GuardOutReply(cfg, orc, pre);
      ReplyOfOneMore(pre.Messages(), AI(cfg.refusal, []));
    }
  }

  lemma BlockedReply(cfg: Config, orc: Oracle, max: int, s: Dict)
    requires s.Blocked()
    ensures LoopTexts(cfg, orc, max, s) == [cfg.refusal]
    ensures var f := FinalState(s, Loop(cfg, orc, max, s));
            && f.Messages() == s.Messages() + [AI(cfg.refusal, [])]
            && (!IsReply(AI(cfg.refusal, [])) ==> Reply(f.Messages()) == Heard(Reply(s.Messages()), [cfg.refusal]))
  {
    hide Asked, Reduce, Loop, FinalState, Reply, Strip, AgentTexts;
    BlockedLoop(cfg, orc, max, s);
    BlockedFinal(cfg, orc, s);
    BlockedStays(cfg, orc, s);
    TextsCons(Step(NAgent, Agent(cfg, orc, s)), []);
    NoTexts();
    assert [Step(NAgent, Agent(cfg, orc, s))] + [] == [Step(NAgent, Agent(cfg, orc, s))];
    ReplyOfOneMore(s.Messages(), AI(cfg.refusal, []));
    HeardNext(Reply(s.Messages()), cfg.refusal, []);
    HeardNothing(if Strip(cfg.refusal) != "" then cfg.refusal else Reply(s.Messages()));
    assert [cfg.refusal] + [] == [cfg.refusal];
  }

  lemma {:induction false} HeadsSayNothing(orc: Oracle, s: Dict, guardFirst: bool, loop: seq<Step>)
    ensures AgentTexts(Heads(orc, s, guardFirst) + loop) == AgentTexts(loop)
  {
    hide AgentTexts, GuardIn, Retrieve;
    var h := Heads(orc, s, guardFirst);
    assert h + loop == [h[0]] + ([h[1]] + loop);
    TextsCons(h[0], [h[1]] + loop);
    TextsCons(h[1], loop);
  }

  // What the two parallel nodes leave of the messages.
  lemma HeadsKeepMessages(orc: Oracle, history: seq<Msg>, text: string, intake: Intake, a: bool)
    ensures var t := AfterHeads(orc, InitialState(history, text, intake), a);
            t.Messages() == history + [Human(text)] && Reply(t.Messages()) == Reply(history)
  {
    hide AfterHeads, InitialState, ReplyIn, IsSpace, Strip;
    HeadsState(orc, history, text, intake, a);
    ReplyOfOneMore(history, Human(text));
  }

  // The SSE reply, once the last message is known to the fold.
  lemma SseSide(cfg: Config, orc: Oracle, max: int, history: seq<Msg>, text: string, intake: Intake, a: bool, b: bool,
                emitted: string)
    ensures var s := InitialState(history, text, intake);
            var messages := JsonFinal(cfg, orc, max, s, a).Messages();
            && messages != []
            && SseReply(SseFinal(cfg, orc, max, s, b), emitted)
               == (if IsReply(messages[|messages| - 1]) then messages[|messages| - 1].text else emitted)
  {
    var s := InitialState(history, text, intake);
    assert s.trace == Some([]);
    AgreesWithItself(s);
    FoldsAgree(s, s, EMPTY, Run(cfg, orc, max, s, b));
    OrderShowsInTraceOnly(cfg, orc, max, s, a, b);
    SseMessages(cfg, orc, max, s, b);
    var j, e := JsonFinal(cfg, orc, max, s, a), SseFinal(cfg, orc, max, s, b);
    var messages := j.Messages();
    hide InitialState, Loop, Run, AfterHeads, FinalState, Folded;
    assert messages[|messages| - 1..] == e.messages.value;
    var last := messages[|messages| - 1];
    assert e.messages.value == [last];
    hide Agree, IsReply;
    OneMessageReply(last);
  }

  // Main result: the two endpoints give the same reply, on any stream of the run, exactly when the
  // last message is a non-blank assistant message, or the agent spoke with one voice.
  lemma RepliesAgreeIff(cfg: Config, orc: Oracle, max: int, history: seq<Msg>, text: string, intake: Intake,
                        a: bool, b: bool, items: seq<Item>)
    requires Streams(items, Run(cfg, orc, max, InitialState(history, text, intake), b))
    ensures var s := InitialState(history, text, intake);
            var messages := JsonFinal(cfg, orc, max, s, a).Messages();
            var sse := SseReply(SseFinal(cfg, orc, max, s, b), Emitted(items, |items|));
            && messages != []
            && (sse == Reply(messages)
                <==> IsReply(messages[|messages| - 1])
                     || OneVoice(LoopTexts(cfg, orc, max, AfterHeads(orc, s, b)), Reply(history)))
  {
    hide InitialState, AfterHeads, Heads, Loop, FinalState, SseFinal, SseReply, IsReply, ReplyIn, Latest, Joined,
         AgentTexts, OnlyVoice, AllEmpty, Updates, Emitted, Strip, Stripped, IsSpace;
    var s := InitialState(history, text, intake);
    var t := AfterHeads(orc, s, b);
    var texts := LoopTexts(cfg, orc, max, t);
    var emitted := Emitted(items, |items|);
    SseSide(cfg, orc, max, history, text, intake, a, b, emitted);
    HeadsSayNothing(orc, s, b, Loop(cfg, orc, max, t));
    HeadsKeepMessages(orc, history, text, intake, b);
    SameMessages(cfg, orc, max, history, text, intake, a, b);
    RunFinal(cfg, orc, max, s, b);
    LoopReply(cfg, orc, max, t);
    ReplyIsNotBlank(history, |history|);
    JoinedIsLatestIff(Reply(history), texts, |texts|);
    var messages := JsonFinal(cfg, orc, max, s, a).Messages();
    if IsReply(messages[|messages| - 1]) {
      ReplyOfLast(messages);
    }
  }

  lemma SameMessages(cfg: Config, orc: Oracle, max: int, history: seq<Msg>, text: string, intake: Intake, a: bool,
                     b: bool)
    ensures var s := InitialState(history, text, intake);
            JsonFinal(cfg, orc, max, s, a).Messages() == JsonFinal(cfg, orc, max, s, b).Messages()
  {
    hide Run, FinalState, Loop, AfterHeads;
    OrderShowsInTraceOnly(cfg, orc, max, InitialState(history, text, intake), a, b);
  }

  // ---------------------------------------------------------------- what the guard has seen

  function WithGuard(orc: Oracle, guard: string -> Option<OutVerdict>): Oracle {
    orc.(guardOut := guard)
  }

  // The reply of a final state is empty, the refusal, a text guard_out let pass, or one the trace
  // records as unverified - or the tenant prohibits nothing.
  ghost predicate Guarded(cfg: Config, orc: Oracle, f: Dict) {
    var r := Reply(f.Messages());
    || r == "" || r == cfg.refusal
    || cfg.prohibitions == []
    || Cleared(orc, r)
    || (f.Trace() != [] && f.Trace()[|f.Trace()| - 1] == "guard_out:unverified")
  }

  lemma HeadsIgnoreGuard(orc: Oracle, guard: string -> Option<OutVerdict>, s: Dict, a: bool)
    ensures AfterHeads(WithGuard(orc, guard), s, a) == AfterHeads(orc, s, a)
  {
    hide Reduce;
  }

  lemma RoundIgnoresGuard(cfg: Config, orc: Oracle, guard: string -> Option<OutVerdict>, s: Dict)
    ensures Asked(cfg, WithGuard(orc, guard), s) == Asked(cfg, orc, s)
    ensures NextRound(cfg, WithGuard(orc, guard), s) == NextRound(cfg, orc, s)
  {
    hide Reduce;
    var s1 := Asked(cfg, orc, s);
    CallsIgnoreGuard(cfg, orc, guard, s1.Iterations(), Calls(s1), |Calls(s1)|, s1.Known(), s1.Escalated());
  }

  lemma {:induction false} CallsIgnoreGuard(cfg: Config, orc: Oracle, guard: string -> Option<OutVerdict>, k: nat,
                                            calls: seq<Call>, n: nat, intake: Intake, esc: bool)
    requires n <= |calls|
    ensures AfterCalls(cfg, WithGuard(orc, guard), k, calls, n, intake, esc)
            == AfterCalls(cfg, orc, k, calls, n, intake, esc)
  {
    if n > 0 {
      CallsIgnoreGuard(cfg, orc, guard, k, calls, n - 1, intake, esc);
      assert ResultOf(cfg, WithGuard(orc, guard), k, calls, n - 1) == ResultOf(cfg, orc, k, calls, n - 1);
    }
  }

  // What guard_out gets to see does not depend on what it will say.
  lemma {:induction false} BeforeIgnoresGuard(cfg: Config, orc: Oracle, guard: string -> Option<OutVerdict>, max: int,
                                              s: Dict)
    requires !s.Blocked()
    ensures Before(cfg, WithGuard(orc, guard), max, s) == Before(cfg, orc, max, s)
    decreases max - s.Iterations()
  {
    hide Asked, NextRound, AfterAgent, Before;
    AfterRound(cfg, orc, max, s);
    RoundIgnoresGuard(cfg, orc, guard, s);
    BeforeRound(cfg, orc, max, s);
    BeforeRound(cfg, WithGuard(orc, guard), max, s);
    if AfterAgent(Asked(cfg, orc, s), max) == NTools {
      BeforeIgnoresGuard(cfg, orc, guard, max, NextRound(cfg, orc, s));
    }
  }

  // The end of an unblocked run, under any guard.
  lemma EndOfRun(cfg: Config, orc: Oracle, guard: string -> Option<OutVerdict>, max: int, s: Dict, a: bool)
    requires !AfterHeads(orc, s, a).Blocked()
    ensures var pre := Before(cfg, orc, max, AfterHeads(orc, s, a));
            && pre.Messages() != [] && pre.Messages()[|pre.Messages()| - 1].AI?
            && JsonFinal(cfg, WithGuard(orc, guard), max, s, a)
               == Reduce(pre, GuardOut(cfg, WithGuard(orc, guard), pre))
  {
    hide AfterHeads, Run, Loop, FinalState, Before, GuardOut, Reduce;
    var t := AfterHeads(orc, s, a);
    HeadsIgnoreGuard(orc, guard, s, a);
    RunFinal(cfg, WithGuard(orc, guard), max, s, a);
    BeforeGuard(cfg, WithGuard(orc, guard), max, t);
    BeforeIgnoresGuard(cfg, orc, guard, max, t);
  }

  // One run, one guard: what comes of the messages guard_out sees.
  lemma GuardedEnd(cfg: Config, orc: Oracle, pre: Dict)
    requires Strip(cfg.refusal) != ""
    requires pre.Messages() != [] && pre.Messages()[|pre.Messages()| - 1].AI?
    ensures var f := Reduce(pre, GuardOut(cfg, orc, pre));
            var r := Reply(pre.Messages());
            && (Strip(LastText(pre)) != "" || cfg.prohibitions == [] || r == "" || r == cfg.refusal
                ==> Guarded(cfg, orc, f))
            && (Guarded(cfg, orc, f) && Strip(LastText(pre)) == "" ==>
                  cfg.prohibitions == [] || r == "" || r == cfg.refusal || Cleared(orc, r))
  {
    hide Reduce, GuardOut, ReplyIn, Strip, Cleared;
    var f := Reduce(pre, GuardOut(cfg, orc, pre));
    GuardOutReply(cfg, orc, pre);
    ReplyOfOneMore(pre.Messages(), AI(cfg.refusal, []));
    RefusalIsReply(cfg);
    if IsReply(pre.Messages()[|pre.Messages()| - 1]) {
      ReplyOfLast(pre.Messages());
      CheckedIsCleared(orc, LastText(pre));
    }
  }

  lemma CheckedIsCleared(orc: Oracle, text: string)
    ensures Cleared(orc, text) <==> orc.guardOut(text).Some? && !orc.guardOut(text).value.violates
  {
  }

  // Main result: whatever the guard model says, the reply of a turn is guarded - exactly when the turn is
  // blocked, the tenant prohibits nothing, the last answer is not blank, or the reply it then
  // reaches back to is empty or the refusal.
  lemma GuardedIff(cfg: Config, orc: Oracle, max: int, s: Dict, a: bool)
    requires Strip(cfg.refusal) != ""
    ensures var t := AfterHeads(orc, s, a);
            var pre := Before(cfg, orc, max, t);
            (forall guard :: Guarded(cfg, WithGuard(orc, guard), JsonFinal(cfg, WithGuard(orc, guard), max, s, a)))
            <==> || t.Blocked() || cfg.prohibitions == []
                 || (pre.Messages() != [] && Strip(LastText(pre)) != "")
                 || Reply(pre.Messages()) == "" || Reply(pre.Messages()) == cfg.refusal
  {
    hide AfterHeads, JsonFinal, Before, Reduce, GuardOut, Guarded, Strip, ReplyIn;
    var t := AfterHeads(orc, s, a);
    var pre := Before(cfg, orc, max, t);
    if t.Blocked() {
      forall guard ensures Guarded(cfg, WithGuard(orc, guard), JsonFinal(cfg, WithGuard(orc, guard), max, s, a)) {
        BlockedIsGuarded(cfg, orc, guard, max, s, a);
      }
    } else {
      forall guard
        ensures JsonFinal(cfg, WithGuard(orc, guard), max, s, a)
            == Reduce(pre, GuardOut(cfg, WithGuard(orc, guard), pre))
        ensures pre.Messages() != [] && pre.Messages()[|pre.Messages()| - 1].AI?
      {
        EndOfRun(cfg, orc, guard, max, s, a);
      }
      EndOfRun(cfg, orc, NOTHING_PASSES, max, s, a);
      GuardedEnd(cfg, WithGuard(orc, NOTHING_PASSES), pre);
      NothingIsCleared(orc, Reply(pre.Messages()));
      forall guard
        ensures Strip(LastText(pre)) != "" || cfg.prohibitions == [] || Reply(pre.Messages()) == ""
                || Reply(pre.Messages()) == cfg.refusal ==>
                  Guarded(cfg, WithGuard(orc, guard), JsonFinal(cfg, WithGuard(orc, guard), max, s, a))
      {
        GuardedEnd(cfg, WithGuard(orc, guard), pre);
      }
    }
  }

  // A guard that finds a violation in everything.
  const NOTHING_PASSES: string -> Option<OutVerdict> := text => Some(OutVerdict(true, None))

  lemma NothingIsCleared(orc: Oracle, text: string)
    ensures !Cleared(WithGuard(orc, NOTHING_PASSES), text)
  {
  }

  lemma BlockedIsGuarded(cfg: Config, orc: Oracle, guard: string -> Option<OutVerdict>, max: int, s: Dict, a: bool)
    requires Strip(cfg.refusal) != "" && AfterHeads(orc, s, a).Blocked()
    ensures Guarded(cfg, WithGuard(orc, guard), JsonFinal(cfg, WithGuard(orc, guard), max, s, a))
  {
    hide AfterHeads, Run, Loop, FinalState, ReplyIn, Strip;
    var t := AfterHeads(orc, s, a);
    HeadsIgnoreGuard(orc, guard, s, a);
    RunFinal(cfg, WithGuard(orc, guard), max, s, a);
    BlockedReply(cfg, WithGuard(orc, guard), max, t);
    RefusalIsReply(cfg);
    ReplyOfOneMore(t.Messages(), AI(cfg.refusal, []));
  }

  // ---------------------------------------------------------------- some turns

  const LAWYER := Config({"look_up"}, ["legal advice"], "I cannot help with that.")

  const NO_RESULT := ToolResult(false, map[], "")

  // A guard that objects to one text, and a model that has nothing to say.
  const SILENT := Oracle(text => None, [], k => Answer("", [], Usage(0, 0)), (k, i) => NO_RESULT,
                         text => Some(OutVerdict(text == "Sue them.", None)))

  lemma OneRound(cfg: Config, orc: Oracle, max: int, s: Dict)
    requires !s.Blocked() && AfterAgent(Asked(cfg, orc, s), max) == NGuardOut
    ensures Before(cfg, orc, max, s) == Asked(cfg, orc, s)
    ensures LoopTexts(cfg, orc, max, s) == [orc.answer(s.Iterations() + 1).text]
  {
    hide Asked, AfterAgent, Before, LoopTexts, NextRound;
    BeforeRound(cfg, orc, max, s);
    TextsRound(cfg, orc, max, s);
    assert [orc.answer(s.Iterations() + 1).text] + [] == [orc.answer(s.Iterations() + 1).text];
  }

  // Where one answer leads.
  lemma AfterAnswer(cfg: Config, orc: Oracle, max: int, s: Dict)
    requires !s.Blocked()
    ensures var a := orc.answer(s.Iterations() + 1);
            var pre := Asked(cfg, orc, s);
            && AfterAgent(pre, max) == (if s.Iterations() + 1 < max && a.calls != [] then NTools else NGuardOut)
            && pre.Messages() == s.Messages() + [AI(a.text, a.calls)] && pre.Messages() != [] && LastText(pre) == a.text
  {
    hide Asked, NextRound, Dict.Messages;
    AskedMessages(cfg, orc, s);
    AfterRound(cfg, orc, max, s);
  }

  lemma NotBlocked(orc: Oracle, history: seq<Msg>, text: string, a: bool)
    requires orc.guardIn(text).None?
    ensures !AfterHeads(orc, InitialState(history, text, map[]), a).Blocked()
  {
    hide AfterHeads;
    HeadsState(orc, history, text, map[], a);
    assert LatestHuman(history + [Human(text)], |history| + 1) == Some(text);
  }

  lemma SilentTurn(history: seq<Msg>, a: bool)
    ensures var s := InitialState(history, "Thanks", map[]);
            var f := JsonFinal(LAWYER, SILENT, 5, s, a);
            && f.Messages() == history + [Human("Thanks")] + [AI("", [])]
            && f.Trace() != [] && f.Trace()[|f.Trace()| - 1] == "guard_out"
            && LoopTexts(LAWYER, SILENT, 5, AfterHeads(SILENT, s, a)) == [""]
  {
    hide AfterHeads, InitialState, Run, Loop, FinalState, Before, GuardOut, Reduce, Asked, AfterAgent, LoopTexts, Strip;
    var s := InitialState(history, "Thanks", map[]);
    var t := AfterHeads(SILENT, s, a);
    NotBlocked(SILENT, history, "Thanks", a);
    HeadsState(SILENT, history, "Thanks", map[], a);
    RunFinal(LAWYER, SILENT, 5, s, a);
    BeforeGuard(LAWYER, SILENT, 5, t);
    AfterAnswer(LAWYER, SILENT, 5, t);
    OneRound(LAWYER, SILENT, 5, t);
    EmptyIsBlank();
    GuardOutReply(LAWYER, SILENT, Asked(LAWYER, SILENT, t));
  }

  lemma PlainText(s: string)
    requires s != "" && !IsSpace(s[0]) && !IsSpace(s[|s| - 1])
    ensures Strip(s) == s
  {
  }

  lemma ReplyOfSilence(m: Msg)
    requires IsReply(m)
    ensures Reply([m] + [Human("Thanks")] + [AI("", [])]) == m.text
    ensures Reply([m]) == m.text
  {
    hide IsReply, ReplyIn;
    EmptyIsBlank();
    ReplyOfOneMore([m] + [Human("Thanks")], AI("", []));
    ReplyOfOneMore([m], Human("Thanks"));
    OneMessageReply(m);
    EmptyIsNoReply();
  }

  lemma EmptyIsNoReply()
    ensures !IsReply(AI("", [])) && !IsReply(Human("Thanks"))
  {
    EmptyIsBlank();
  }

  const SUE: Msg := AI("Sue them.", [])

  // A blank answer after a history that holds a text the guard objects to: the JSON endpoint returns
  // that text, unchecked, and the SSE endpoint an empty reply.
  lemma BlankAnswerBringsBackHistory(a: bool, b: bool, items: seq<Item>)
    requires Streams(items, Run(LAWYER, SILENT, 5, InitialState([SUE], "Thanks", map[]), b))
    ensures var s := InitialState([SUE], "Thanks", map[]);
            var f := JsonFinal(LAWYER, SILENT, 5, s, a);
            && Reply(f.Messages()) == "Sue them."
            && SILENT.guardOut("Sue them.") == Some(OutVerdict(true, None))
            && !Guarded(LAWYER, SILENT, f)
            && SseReply(SseFinal(LAWYER, SILENT, 5, s, b), Emitted(items, |items|)) == ""
  {
    hide *;
    var s := InitialState([SUE], "Thanks", map[]);
    SueIsReply();
    SilentTurn([SUE], a);
    SilentTurn([SUE], b);
    ReplyOfSilence(SUE);
    SueIsNotGuarded(JsonFinal(LAWYER, SILENT, 5, s, a));
    SseSide(LAWYER, SILENT, 5, [SUE], "Thanks", map[], a, b, Emitted(items, |items|));
    EmptyIsNoReply();
    StreamOfLoop(LAWYER, SILENT, 5, s, b, items);
    JoinedEmpty();
  }

  lemma SueIsNotGuarded(f: Dict)
    requires Reply(f.Messages()) == "Sue them." && f.Trace() != [] && f.Trace()[|f.Trace()| - 1] == "guard_out"
    ensures !Guarded(LAWYER, SILENT, f) && SILENT.guardOut("Sue them.") == Some(OutVerdict(true, None))
  {
    hide ReplyIn;
    assert |"Sue them."| == 9 && |LAWYER.refusal| == 24;
    assert |"guard_out"| == 9 && |"guard_out:unverified"| == 20;
  }

  lemma JoinedEmpty()
    ensures Joined([""], 1) == ""
  {
    assert Joined([""], 0) == "";
  }

  lemma SueIsReply()
    ensures IsReply(SUE) && SUE.text == "Sue them."
  {
    PlainText("Sue them.");
  }

  lemma StreamOfLoop(cfg: Config, orc: Oracle, max: int, s: Dict, b: bool, items: seq<Item>)
    requires Streams(items, Run(cfg, orc, max, s, b))
    ensures var texts := LoopTexts(cfg, orc, max, AfterHeads(orc, s, b));
            Emitted(items, |items|) == Joined(texts, |texts|)
  {
    hide AfterHeads, Heads, Loop, AgentTexts, Joined, Updates, Emitted;
    HeadsSayNothing(orc, s, b, Loop(cfg, orc, max, AfterHeads(orc, s, b)));
  }

  const ANN: Intake := map["name" := "Ann"]

  // A turn without tool calls, with a name already known: the JSON endpoint answers it, the SSE
  // endpoint does not, and both keep it.
  lemma IntakeIsLeftOut(a: bool, b: bool, reply: string)
    ensures var s := InitialState([], "Thanks", ANN);
            var json := Close(JsonFinal(LAWYER, SILENT, 5, s, a), ANN, reply);
            var sse := Close(SseFinal(LAWYER, SILENT, 5, s, b), ANN, reply);
            && json.payload.intake == ANN && sse.payload.intake == map[] && json.payload.intake != sse.payload.intake
            && json.intake == ANN && sse.intake == ANN
  {
    hide InitialState, JsonFinal, SseFinal;
    TransportsAgree(LAWYER, SILENT, 5, [], "Thanks", ANN, a, b, reply);
    assert SILENT.answer(1).calls == [];
    assert "name" in ANN;
    KnownIsKept(SseFinal(LAWYER, SILENT, 5, InitialState([], "Thanks", ANN), b), reply);
  }

  lemma KnownIsKept(f: Dict, reply: string)
    requires Close(f, ANN, reply).payload.intake == map[]
    ensures Close(f, ANN, reply).intake == ANN
  {
  }

  // A model that announces a look-up, and after it has nothing to add.
  const CHECKING := SILENT.(answer := k => if k == 1 then Answer("Let me check.", [Call("look_up", "")], Usage(0, 0))
                                           else Answer("", [], Usage(0, 0)))

  lemma CheckingAnswers()
    ensures CHECKING.answer(1) == Answer("Let me check.", [Call("look_up", "")], Usage(0, 0))
    ensures CHECKING.answer(2) == Answer("", [], Usage(0, 0))
  {
  }

  lemma FirstRound(t: Dict)
    requires !t.Blocked() && t.Iterations() == 0
    ensures AfterAgent(Asked(LAWYER, CHECKING, t), 5) == NTools
    ensures !NextRound(LAWYER, CHECKING, t).Blocked() && NextRound(LAWYER, CHECKING, t).Iterations() == 1
  {
    hide Asked, NextRound, AfterAgent;
    CheckingAnswers();
    AfterAnswer(LAWYER, CHECKING, 5, t);
    AfterRound(LAWYER, CHECKING, 5, t);
  }

  lemma SecondRound(u: Dict)
    requires !u.Blocked() && u.Iterations() == 1
    ensures var pre := Asked(LAWYER, CHECKING, u);
            AfterAgent(pre, 5) == NGuardOut && pre.Messages() != [] && LastText(pre) == ""
  {
    hide Asked, NextRound, AfterAgent;
    CheckingAnswers();
    AfterAnswer(LAWYER, CHECKING, 5, u);
  }

  lemma CheckingRounds(t: Dict)
    requires !t.Blocked() && t.Iterations() == 0
    ensures LoopTexts(LAWYER, CHECKING, 5, t) == ["Let me check.", ""]
    ensures Before(LAWYER, CHECKING, 5, t).Messages() != [] && LastText(Before(LAWYER, CHECKING, 5, t)) == ""
  {
    hide Asked, NextRound, AfterAgent, LoopTexts, Before, LastText;
    FirstRound(t);
    var u := NextRound(LAWYER, CHECKING, t);
    SecondRound(u);
    TextsRound(LAWYER, CHECKING, 5, t);
    BeforeRound(LAWYER, CHECKING, 5, t);
    OneRound(LAWYER, CHECKING, 5, u);
  }

  // A blank last message alone does not tell the endpoints apart: here the JSON endpoint reaches
  // back for the announcement, and the SSE endpoint falls back on having streamed it.
  lemma BlankAnswerMayAgree(a: bool, b: bool, items: seq<Item>)
    requires Streams(items, Run(LAWYER, CHECKING, 5, InitialState([], "Thanks", map[]), b))
    ensures var s := InitialState([], "Thanks", map[]);
            var messages := JsonFinal(LAWYER, CHECKING, 5, s, a).Messages();
            && messages != [] && !IsReply(messages[|messages| - 1])
            && Reply(messages) == "Let me check."
            && SseReply(SseFinal(LAWYER, CHECKING, 5, s, b), Emitted(items, |items|)) == "Let me check."
  {
    hide *;
    var s := InitialState([], "Thanks", map[]);
    CheckingTurn(a);
    CheckingTurn(b);
    SseSide(LAWYER, CHECKING, 5, [], "Thanks", map[], a, b, Emitted(items, |items|));
    StreamOfLoop(LAWYER, CHECKING, 5, s, b, items);
    CheckIsJoined();
  }

  lemma CheckIsJoined()
    ensures Joined(["Let me check.", ""], 2) == "Let me check."
  {
    hide Joined;
    JoinedOfOne(["Let me check.", ""], 2, 0);
  }

  lemma CheckingTurn(a: bool)
    ensures var s := InitialState([], "Thanks", map[]);
            var messages := JsonFinal(LAWYER, CHECKING, 5, s, a).Messages();
            && messages != [] && !IsReply(messages[|messages| - 1]) && Reply(messages) == "Let me check."
            && LoopTexts(LAWYER, CHECKING, 5, AfterHeads(CHECKING, s, a)) == ["Let me check.", ""]
  {
    hide InitialState, AfterHeads, Run, Loop, FinalState, Before, GuardOut, Reduce, LoopTexts, Strip, Latest, ReplyIn;
    var s := InitialState([], "Thanks", map[]);
    var t := AfterHeads(CHECKING, s, a);
    NotBlocked(CHECKING, [], "Thanks", a);
    HeadsState(CHECKING, [], "Thanks", map[], a);
    RunFinal(LAWYER, CHECKING, 5, s, a);
    CheckingRounds(t);
    BeforeGuard(LAWYER, CHECKING, 5, t);
    EmptyIsBlank();
    GuardOutReply(LAWYER, CHECKING, Before(LAWYER, CHECKING, 5, t));
    ReplyBeforeGuard(LAWYER, CHECKING, 5, t);
    CheckIsHeard(Reply(t.Messages()));
  }

  lemma CheckIsHeard(earlier: string)
    ensures Heard(earlier, ["Let me check.", ""]) == "Let me check."
  {
    hide Strip, IsSpace;
    EmptyIsBlank();
    CheckIsPlain();
    assert Latest(earlier, ["Let me check.", ""], 1) == "Let me check.";
  }

  lemma CheckIsPlain()
    ensures Strip("Let me check.") == "Let me check."
  {
    PlainText("Let me check.");
  }
}
