// What a turn comes to, in terms of what the models and tools answered (app/graph/nodes/agent.py:62-144,
// app/graph/nodes/guards.py:82-143, app/services/turn.py:141-184): who is blocked, how often the model
// is asked, what is escalated and captured, what the trace says, and what is stored.
module TurnOutcome {
  import opened Prelude
  import opened AgentGraph
  import opened GraphRuns
  import opened Turn
  import opened Replies

  // ---------------------------------------------------------------- the reply in a list of messages

  // The last of the messages that are the assistant's and not blank; "" if there is none.
  lemma {:induction false} ReplyMeaning(messages: seq<Msg>, n: nat) returns (i: int)
    requires n <= |messages|
    ensures -1 <= i < n
    ensures i >= 0 ==> messages[i].AI? && Strip(messages[i].text) != "" && ReplyIn(messages, n) == messages[i].text
    ensures i < 0 ==> ReplyIn(messages, n) == ""
    ensures forall j :: i < j < n ==> !messages[j].AI? || Strip(messages[j].text) == ""
  {
    hide Strip;
    i := -1;
    if n > 0 {
      if IsReply(messages[n - 1]) {
        i := n - 1;
      } else {
        i := ReplyMeaning(messages, n - 1);
      }
    }
  }

  // What counts as streamed: the texts of the agent node, one after the other, and nothing else.
  lemma StreamedText(items: seq<Item>, n: nat)
    requires n < |items|
    ensures Emitted(items, 0) == ""
    ensures forall text :: items[n] == Chunk(NAgent, text) ==> Emitted(items, n + 1) == Emitted(items, n) + text
    ensures (forall text :: items[n] != Chunk(NAgent, text)) ==> Emitted(items, n + 1) == Emitted(items, n)
  {
    if items[n].Chunk? {
      assert items[n] == Chunk(items[n].node, items[n].text);
    }
  }

  // ---------------------------------------------------------------- the tools node

  // The i-th call of round k is an enabled escalation that succeeds.
  predicate Escalates(cfg: Config, orc: Oracle, k: nat, calls: seq<Call>, i: nat)
    requires i < |calls|
  {
    calls[i].name == "escalate_to_human" && "escalate_to_human" in cfg.tools && orc.result(k, i).ok
  }

  // One of the first n calls is.
  ghost predicate SomeEscalates(cfg: Config, orc: Oracle, k: nat, calls: seq<Call>, n: nat)
    requires n <= |calls|
  {
    exists i: nat :: i < n && Escalates(cfg, orc, k, calls, i)
  }

  // The i-th call of round k is an enabled lead capture that succeeds and has the key.
  predicate Captures(cfg: Config, orc: Oracle, k: nat, calls: seq<Call>, i: nat, key: string)
    requires i < |calls|
  {
    && calls[i].name == "capture_lead" && "capture_lead" in cfg.tools && orc.result(k, i).ok
    && key in orc.result(k, i).captured
  }

  ghost predicate LastCapture(cfg: Config, orc: Oracle, k: nat, calls: seq<Call>, n: nat, key: string, i: nat)
    requires n <= |calls|
  {
    && i < n && Captures(cfg, orc, k, calls, i, key)
    && forall j: nat :: i < j < n ==> !Captures(cfg, orc, k, calls, j, key)
  }

  // The intake after some calls: at each key what the last capture of it says, else as before.
  ghost predicate IntakeAfter(cfg: Config, orc: Oracle, k: nat, calls: seq<Call>, n: nat, was: Intake, now: Intake)
    requires n <= |calls|
  {
    forall key ::
      && (forall i: nat :: LastCapture(cfg, orc, k, calls, n, key, i) ==>
            key in now && now[key] == orc.result(k, i).captured[key])
      && ((forall i: nat :: i < n ==> !Captures(cfg, orc, k, calls, i, key)) ==>
            (key in now <==> key in was) && (key in was ==> now[key] == was[key]))
  }

  function Said(cfg: Config, orc: Oracle, k: nat, calls: seq<Call>, i: nat): Msg
    requires i < |calls|
  {
    ToolMsg(if calls[i].name in cfg.tools then orc.result(k, i).text else "tool is not enabled for this tenant",
            calls[i].name)
  }

  lemma {:induction false} CallsMeaning(cfg: Config, orc: Oracle, k: nat, calls: seq<Call>, n: nat, intake: Intake,
                                        esc: bool)
    requires n <= |calls|
    ensures var r := AfterCalls(cfg, orc, k, calls, n, intake, esc);
            && (r.1 <==> esc || SomeEscalates(cfg, orc, k, calls, n))
            && |r.2| == n && (forall i :: 0 <= i < n ==> r.2[i] == Said(cfg, orc, k, calls, i))
            && IntakeAfter(cfg, orc, k, calls, n, intake, r.0)
  {
    hide *;
    if n == 0 {
      NoCalls(cfg, orc, k, calls, intake, esc);
    } else {
      CallsMeaning(cfg, orc, k, calls, n - 1, intake, esc);
      var was := AfterCalls(cfg, orc, k, calls, n - 1, intake, esc);
      LastCall(cfg, orc, k, calls, n, intake, esc);
      OneMoreCall(cfg, orc, k, calls, n, intake, was.0, AfterCalls(cfg, orc, k, calls, n, intake, esc).0);
    }
  }

  lemma LastCall(cfg: Config, orc: Oracle, k: nat, calls: seq<Call>, n: nat, intake: Intake, esc: bool)
    requires 0 < n <= |calls|
    ensures var was := AfterCalls(cfg, orc, k, calls, n - 1, intake, esc);
            var now := AfterCalls(cfg, orc, k, calls, n, intake, esc);
            var i := n - 1;
            && (now.1 <==> was.1 || Escalates(cfg, orc, k, calls, i))
            && now.2 == was.2 + [Said(cfg, orc, k, calls, i)]
            && now.0 == (if calls[i].name == "capture_lead" && "capture_lead" in cfg.tools && orc.result(k, i).ok
                         then was.0 + orc.result(k, i).captured else was.0)
    ensures SomeEscalates(cfg, orc, k, calls, n)
            <==> SomeEscalates(cfg, orc, k, calls, n - 1) || Escalates(cfg, orc, k, calls, n - 1)
  {
    hide Escalates;
    EscalatesIff(cfg, orc, k, calls, n - 1);
  }

  lemma EscalatesIff(cfg: Config, orc: Oracle, k: nat, calls: seq<Call>, i: nat)
    requires i < |calls|
    ensures Escalates(cfg, orc, k, calls, i)
            <==> calls[i].name == "escalate_to_human" && "escalate_to_human" in cfg.tools && orc.result(k, i).ok
  {
  }

  lemma NoCalls(cfg: Config, orc: Oracle, k: nat, calls: seq<Call>, intake: Intake, esc: bool)
    ensures AfterCalls(cfg, orc, k, calls, 0, intake, esc) == (intake, esc, [])
    ensures IntakeAfter(cfg, orc, k, calls, 0, intake, intake) && !SomeEscalates(cfg, orc, k, calls, 0)
  {
  }

  lemma OneMoreCall(cfg: Config, orc: Oracle, k: nat, calls: seq<Call>, n: nat, intake: Intake, was: Intake,
                    now: Intake)
    requires 0 < n <= |calls| && IntakeAfter(cfg, orc, k, calls, n - 1, intake, was)
    requires now == (if calls[n - 1].name == "capture_lead" && "capture_lead" in cfg.tools && orc.result(k, n - 1).ok
                     then was + orc.result(k, n - 1).captured else was)
    ensures IntakeAfter(cfg, orc, k, calls, n, intake, now)
  {
    forall key, i: nat | LastCapture(cfg, orc, k, calls, n, key, i)
      ensures key in now && now[key] == orc.result(k, i).captured[key]
    {
      if i < n - 1 {
        assert LastCapture(cfg, orc, k, calls, n - 1, key, i);
        assert !Captures(cfg, orc, k, calls, n - 1, key);
      }
    }
    forall key | forall i: nat :: i < n ==> !Captures(cfg, orc, k, calls, i, key)
      ensures (key in now <==> key in intake) && (key in intake ==> now[key] == intake[key])
    {
      assert !Captures(cfg, orc, k, calls, n - 1, key);
    }
  }

  // Main result on the tools node: one message a call, in order; escalated exactly if it was or an
  // enabled escalation succeeded; and the intake has what the enabled captures that succeeded say.
  lemma ToolsMeaning(cfg: Config, orc: Oracle, s: Dict, text: string, calls: seq<Call>)
    requires s.Messages() != [] && s.Messages()[|s.Messages()| - 1] == AI(text, calls) && calls != []
    ensures var u := Tools(cfg, orc, s);
            var k := s.Iterations();
            && |u.Messages()| == |calls|
            && (forall i :: 0 <= i < |calls| ==> u.Messages()[i] == Said(cfg, orc, k, calls, i))
            && (u.escalate == Some(true)
                <==> s.Escalated() || SomeEscalates(cfg, orc, k, calls, |calls|))
            && u.intake.Some? && IntakeAfter(cfg, orc, k, calls, |calls|, s.Known(), u.intake.value)
            && u.trace == Some(["tools"]) && u.blocked.None? && u.blockReason.None? && u.usage.None?
            && u.iterations.None? && u.retrieved.None?
  {
    hide AfterCalls, IntakeAfter, SomeEscalates, Said;
    assert Calls(s) == calls;
    CallsMeaning(cfg, orc, s.Iterations(), calls, |calls|, s.Known(), s.Escalated());
  }

  // ---------------------------------------------------------------- how often the model is asked

  // After the j-th answer the tools are run, and the model is asked again.
  predicate GoesOn(orc: Oracle, max: int, j: nat) {
    j < max && orc.answer(j).calls != []
  }

  // From the first answer after `base` on, it goes on up to answer `last`, and there it stops.
  ghost predicate StopsAt(orc: Oracle, max: int, base: nat, last: nat) {
    base < last && !GoesOn(orc, max, last) && forall j: nat :: base < j < last ==> GoesOn(orc, max, j)
  }

  lemma OneStop(orc: Oracle, max: int, base: nat, a: nat, b: nat)
    requires StopsAt(orc, max, base, a) && StopsAt(orc, max, base, b)
    ensures a == b
  {
    hide GoesOn;
  }

  // The model is asked until an answer has no tool call, or the limit of iterations is reached.
  lemma {:induction false} RoundsMeaning(cfg: Config, orc: Oracle, max: int, s: Dict)
    requires !s.Blocked()
    ensures Rounds(cfg, orc, max, s) >= 1
    ensures StopsAt(orc, max, s.Iterations(), s.Iterations() + Rounds(cfg, orc, max, s))
    decreases max - s.Iterations()
  {
    hide *;
    RoundsStep(cfg, orc, max, s);
    AfterRound(cfg, orc, max, s);
    ToolsReportIntake(cfg, orc, max, s);
    if AfterAgent(Asked(cfg, orc, s), max) == NTools {
      RoundsMeaning(cfg, orc, max, NextRound(cfg, orc, s));
    }
    StopNext(orc, max, s.Iterations(), s.Iterations() + Rounds(cfg, orc, max, s));
  }

  lemma StopNext(orc: Oracle, max: int, base: nat, last: nat)
    ensures base + 1 < max && orc.answer(base + 1).calls != [] && StopsAt(orc, max, base + 1, last) ==>
              StopsAt(orc, max, base, last)
    ensures !(base + 1 < max && orc.answer(base + 1).calls != []) ==> StopsAt(orc, max, base, base + 1)
  {
  }

  // ---------------------------------------------------------------- a whole run, before guard_out

  // Some call of the answers after lo and before hi escalates.
  ghost predicate EscalatesIn(cfg: Config, orc: Oracle, lo: nat, hi: nat) {
    exists j: nat, i: nat :: lo < j < hi && EscalatesAt(cfg, orc, j, i)
  }

  predicate EscalatesAt(cfg: Config, orc: Oracle, j: nat, i: nat) {
    i < |orc.answer(j).calls| && Escalates(cfg, orc, j, orc.answer(j).calls, i)
  }

  predicate CapturesAt(cfg: Config, orc: Oracle, j: nat, i: nat, key: string) {
    i < |orc.answer(j).calls| && Captures(cfg, orc, j, orc.answer(j).calls, i, key)
  }

  // Call i of answer j is the last of the answers after lo and before hi to capture the key.
  ghost predicate LastIn(cfg: Config, orc: Oracle, lo: nat, hi: nat, key: string, j: nat, i: nat) {
    && lo < j < hi && CapturesAt(cfg, orc, j, i, key)
    && forall m: nat, n: nat :: j <= m < hi && CapturesAt(cfg, orc, m, n, key) ==> m == j && n <= i
  }

  ghost predicate NoneIn(cfg: Config, orc: Oracle, lo: nat, hi: nat, key: string) {
    forall m: nat, n: nat :: lo < m < hi ==> !CapturesAt(cfg, orc, m, n, key)
  }

  // The intake after the answers between lo and hi: at each key what the last capture says, else as before.
  ghost predicate IntakeOver(cfg: Config, orc: Oracle, lo: nat, hi: nat, was: Intake, now: Intake) {
    forall key ::
      && (forall j: nat, i: nat :: LastIn(cfg, orc, lo, hi, key, j, i) ==>
            key in now && now[key] == orc.result(j, i).captured[key])
      && (NoneIn(cfg, orc, lo, hi, key) ==> (key in now <==> key in was) && (key in was ==> now[key] == was[key]))
  }

  lemma IntakeOverNone(cfg: Config, orc: Oracle, lo: nat, was: Intake)
    ensures IntakeOver(cfg, orc, lo, lo + 1, was, was)
  {
  }

  lemma IntakeOverCons(cfg: Config, orc: Oracle, lo: nat, hi: nat, was: Intake, mid: Intake, now: Intake)
    requires lo + 1 < hi
    requires IntakeAfter(cfg, orc, lo + 1, orc.answer(lo + 1).calls, |orc.answer(lo + 1).calls|, was, mid)
    requires IntakeOver(cfg, orc, lo + 1, hi, mid, now)
    ensures IntakeOver(cfg, orc, lo, hi, was, now)
  {
    var calls := orc.answer(lo + 1).calls;
    forall key, j: nat, i: nat | LastIn(cfg, orc, lo, hi, key, j, i)
      ensures key in now && now[key] == orc.result(j, i).captured[key]
    {
      if j > lo + 1 {
        assert LastIn(cfg, orc, lo + 1, hi, key, j, i);
      } else {
        LaterNone(cfg, orc, lo, hi, key, j, i);
        assert LastCapture(cfg, orc, lo + 1, calls, |calls|, key, i);
      }
    }
    forall key | NoneIn(cfg, orc, lo, hi, key)
      ensures (key in now <==> key in was) && (key in was ==> now[key] == was[key])
    {
      assert NoneIn(cfg, orc, lo + 1, hi, key);
      var k := lo + 1;
      forall i: nat | i < |calls| ensures !Captures(cfg, orc, k, calls, i, key) {
        assert !CapturesAt(cfg, orc, k, i, key);
      }
    }
  }

  lemma LaterNone(cfg: Config, orc: Oracle, lo: nat, hi: nat, key: string, j: nat, i: nat)
    requires LastIn(cfg, orc, lo, hi, key, j, i) && j == lo + 1
    ensures NoneIn(cfg, orc, lo + 1, hi, key)
    ensures forall n: nat :: i < n < |orc.answer(j).calls| ==> !Captures(cfg, orc, j, orc.answer(j).calls, n, key)
  {
    forall n: nat | i < n < |orc.answer(j).calls| ensures !Captures(cfg, orc, j, orc.answer(j).calls, n, key) {
      assert CapturesAt(cfg, orc, j, n, key) <==> Captures(cfg, orc, j, orc.answer(j).calls, n, key);
    }
  }

  // "agent", then "tools" and "agent" for every further round.
  function RoundsTrace(k: nat): seq<string> {
    if k <= 1 then ["agent"] else ["agent", "tools"] + RoundsTrace(k - 1)
  }

  // What a run leaves for guard_out, from what it started with.
  ghost predicate Built(cfg: Config, orc: Oracle, s: Dict, pre: Dict, k: nat) {
    var base := s.Iterations();
    && pre.Iterations() == base + k
    && pre.Trace() == s.Trace() + RoundsTrace(k)
    && pre.blocked == s.blocked && pre.blockReason == s.blockReason && pre.retrieved == s.retrieved
    && (pre.Escalated() <==> s.Escalated() || EscalatesIn(cfg, orc, base, base + k))
    && IntakeOver(cfg, orc, base, base + k, s.Known(), pre.Known())
  }

  // What one round of tools leaves.
  ghost predicate RoundBuilt(cfg: Config, orc: Oracle, s: Dict, t: Dict) {
    var k, calls := s.Iterations() + 1, orc.answer(s.Iterations() + 1).calls;
    && t.Iterations() == k && t.Trace() == s.Trace() + ["agent", "tools"]
    && t.blocked == s.blocked && t.blockReason == s.blockReason && t.retrieved == s.retrieved
    && (t.Escalated() <==> s.Escalated() || SomeEscalates(cfg, orc, k, calls, |calls|))
    && IntakeAfter(cfg, orc, k, calls, |calls|, s.Known(), t.Known())
  }

  lemma AskedBuilds(cfg: Config, orc: Oracle, s: Dict)
    requires !s.Blocked()
    ensures var a := Asked(cfg, orc, s);
            && a.Iterations() == s.Iterations() + 1 && a.Trace() == s.Trace() + ["agent"]
            && a.blocked == s.blocked && a.blockReason == s.blockReason && a.retrieved == s.retrieved
            && a.escalate == s.escalate && a.intake == s.intake
  {
  }

  lemma ToolsBuild(cfg: Config, orc: Oracle, s: Dict)
    requires !s.Blocked() && orc.answer(s.Iterations() + 1).calls != []
    ensures RoundBuilt(cfg, orc, s, NextRound(cfg, orc, s))
  {
    hide Asked, Tools, IntakeAfter, SomeEscalates, Said;
    AskedBuilds(cfg, orc, s);
    AskedMessages(cfg, orc, s);
    var a := orc.answer(s.Iterations() + 1);
    ToolsMeaning(cfg, orc, Asked(cfg, orc, s), a.text, a.calls);
    assert ["agent"] + ["tools"] == ["agent", "tools"];
  }

  lemma BuiltOne(cfg: Config, orc: Oracle, s: Dict)
    requires !s.Blocked()
    ensures Built(cfg, orc, s, Asked(cfg, orc, s), 1)
  {
    hide Asked, IntakeOver, EscalatesIn;
    AskedBuilds(cfg, orc, s);
    IntakeOverNone(cfg, orc, s.Iterations(), s.Known());
    EscalatesNone(cfg, orc, s.Iterations());
  }

  lemma BuiltCons(cfg: Config, orc: Oracle, s: Dict, t: Dict, pre: Dict, k: nat)
    requires k >= 1 && RoundBuilt(cfg, orc, s, t) && Built(cfg, orc, t, pre, k)
    ensures Built(cfg, orc, s, pre, k + 1)
  {
    hide IntakeOver, EscalatesIn, IntakeAfter, SomeEscalates;
    var lo := s.Iterations();
    IntakeOverCons(cfg, orc, lo, lo + k + 1, s.Known(), t.Known(), pre.Known());
    EscalatesCons(cfg, orc, lo, lo + k + 1);
    assert s.Trace() + ["agent", "tools"] + RoundsTrace(k) == s.Trace() + (["agent", "tools"] + RoundsTrace(k));
  }

  lemma {:induction false} RunBuilds(cfg: Config, orc: Oracle, max: int, s: Dict)
    requires !s.Blocked()
    ensures Built(cfg, orc, s, Before(cfg, orc, max, s), Rounds(cfg, orc, max, s))
    decreases max - s.Iterations()
  {
    hide *;
    RoundsStep(cfg, orc, max, s);
    BeforeRound(cfg, orc, max, s);
    AfterRound(cfg, orc, max, s);
    ToolsReportIntake(cfg, orc, max, s);
    if AfterAgent(Asked(cfg, orc, s), max) == NTools {
      var t := NextRound(cfg, orc, s);
      RunBuilds(cfg, orc, max, t);
      RoundsMeaning(cfg, orc, max, t);
      ToolsBuild(cfg, orc, s);
      BuiltCons(cfg, orc, s, t, Before(cfg, orc, max, s), Rounds(cfg, orc, max, t));
    } else {
      BuiltOne(cfg, orc, s);
    }
  }

  lemma EscalatesNone(cfg: Config, orc: Oracle, lo: nat)
    ensures !EscalatesIn(cfg, orc, lo, lo + 1)
  {
  }

  lemma EscalatesCons(cfg: Config, orc: Oracle, lo: nat, hi: nat)
    requires lo + 1 < hi
    ensures var calls := orc.answer(lo + 1).calls;
            EscalatesIn(cfg, orc, lo, hi)
            <==> SomeEscalates(cfg, orc, lo + 1, calls, |calls|) || EscalatesIn(cfg, orc, lo + 1, hi)
  {
    var k, calls := lo + 1, orc.answer(lo + 1).calls;
    if SomeEscalates(cfg, orc, k, calls, |calls|) {
      var i: nat :| i < |calls| && Escalates(cfg, orc, k, calls, i);
      assert EscalatesAt(cfg, orc, k, i);
    }
    if EscalatesIn(cfg, orc, k, hi) {
      var j: nat, i: nat :| k < j < hi && EscalatesAt(cfg, orc, j, i);
      assert lo < j < hi;
    }
  }

  // ---------------------------------------------------------------- the two first nodes

  // What guard_in makes of the visitor's message.
  ghost predicate Stops(orc: Oracle, text: string) {
    orc.guardIn(text).Some? && (orc.guardIn(text).value.asksProhibited || orc.guardIn(text).value.injection)
  }

  lemma HeadsMeaning(orc: Oracle, history: seq<Msg>, text: string, intake: Intake, guardFirst: bool)
    ensures var s := InitialState(history, text, intake);
            var t := AfterHeads(orc, s, guardFirst);
            var seen := if orc.guardIn(text).None? then "guard_in:unverified" else "guard_in";
            && t.Messages() == history + [Human(text)] && t.Iterations() == 0 && t.Used() == Usage(0, 0)
            && t.intake == Some(intake) && t.retrieved == Some(orc.hits)
            && t.Trace() == (if guardFirst then [seen, "retrieve"] else ["retrieve", seen])
            && t.blocked == Some(Stops(orc, text))
            && t.blockReason == (if Stops(orc, text)
                                 then Some(OrElse(orc.guardIn(text).value.reason, "out of scope")) else None)
            && (t.Escalated() <==> Stops(orc, text) && orc.guardIn(text).value.asksProhibited)
  {
    var s := InitialState(history, text, intake);
    assert LatestHuman(s.Messages(), |history| + 1) == Some(text);
    HeadsState(orc, history, text, intake, guardFirst);
    hide LatestHuman;
  }

  // ---------------------------------------------------------------- the turn

  // Main result for a message guard_in stops: one refusal, no tokens, no tools; the conversation is
  // escalated exactly if the message asks for something prohibited.
  lemma StoppedTurn(cfg: Config, orc: Oracle, max: int, history: seq<Msg>, text: string, intake: Intake, a: bool,
                    reply: string)
    requires Stops(orc, text)
    ensures var f := JsonFinal(cfg, orc, max, InitialState(history, text, intake), a);
            var c := Close(f, intake, reply);
            var trace := (if a then ["guard_in", "retrieve"] else ["retrieve", "guard_in"]) + ["agent:refused"];
            && f.Messages() == history + [Human(text)] + [AI(cfg.refusal, [])]
            && c.message == Stored("assistant", reply, trace, true,
                                   OrElse(orc.guardIn(text).value.reason, "out of scope"), Usage(0, 0))
            && c.intake == intake && c.tokens == 0
            && (c.escalates <==> orc.guardIn(text).value.asksProhibited)
            && c.payload == Payload(reply, trace, true, c.escalates, intake, Usage(0, 0))
  {
    hide InitialState, AfterHeads, Run, Loop, FinalState;
    var s := InitialState(history, text, intake);
    var t := AfterHeads(orc, s, a);
    HeadsMeaning(orc, history, text, intake, a);
    RunFinal(cfg, orc, max, s, a);
    BlockedLoop(cfg, orc, max, t);
    BlockedFinal(cfg, orc, t);
    RefusedState(cfg, orc, t);
  }

  lemma RefusedState(cfg: Config, orc: Oracle, t: Dict)
    requires t.Blocked()
    ensures var f := Asked(cfg, orc, t);
            && f.Trace() == t.Trace() + ["agent:refused"] && f.blocked == t.blocked && f.blockReason == t.blockReason
            && f.escalate == t.escalate && f.intake == t.intake && f.Used() == t.Used()
  {
  }

  // What guard_out sees of an unblocked turn, and what it says of it.
  ghost predicate Objects(cfg: Config, orc: Oracle, last: string) {
    && cfg.prohibitions != [] && Strip(last) != ""
    && orc.guardOut(last).Some? && orc.guardOut(last).value.violates
  }

  function OutTag(cfg: Config, orc: Oracle, last: string): string {
    if cfg.prohibitions == [] || Strip(last) == "" then "guard_out"
    else if orc.guardOut(last).None? then "guard_out:unverified"
    else if orc.guardOut(last).value.violates then "guard_out:replaced"
    else "guard_out"
  }

  // The sum of the tokens of the first k answers.
  function Spent(orc: Oracle, k: nat): Usage {
    if k == 0 then Usage(0, 0)
    else
      var was, now := Spent(orc, k - 1), orc.answer(k).tokens;
      Usage(was.input + now.input, was.output + now.output)
  }

  lemma {:induction false} SpentIsTokens(orc: Oracle, from: nat, k: nat)
    ensures Spent(orc, from).Plus(Tokens(orc, from, k)) == Spent(orc, from + k)
    decreases k
  {
    if k > 0 {
      SpentIsTokens(orc, from + 1, k - 1);
      TokensStep(orc, Spent(orc, from), from, k - 1);
    }
  }

  // The final state of an unblocked turn of k answers.
  ghost predicate Final(cfg: Config, orc: Oracle, f: Dict, intake: Intake, heads: seq<string>, k: nat) {
    var last := orc.answer(k).text;
    && f.retrieved == Some(orc.hits)
    && f.Trace() == heads + RoundsTrace(k) + [OutTag(cfg, orc, last)]
    && (f.Blocked() <==> Objects(cfg, orc, last))
    && OrElse(f.blockReason, "") == (if Objects(cfg, orc, last)
                                     then OrElse(orc.guardOut(last).value.which, "prohibited content") else "")
    && f.Used() == Spent(orc, k)
    && (f.Escalated() <==> EscalatesIn(cfg, orc, 0, k))
    && IntakeOver(cfg, orc, 0, k, intake, f.Known())
  }

  lemma FinalUsage(cfg: Config, orc: Oracle, max: int, t: Dict)
    requires !t.Blocked() && t.Iterations() == 0 && t.Used() == Usage(0, 0)
    ensures FinalState(t, Loop(cfg, orc, max, t)).Used() == Spent(orc, Rounds(cfg, orc, max, t))
  {
    hide Loop, FinalState, Rounds, Tokens, Spent;
    LoopUsage(cfg, orc, max, t);
    SpentNothing(orc);
    SpentIsTokens(orc, 0, Rounds(cfg, orc, max, t));
  }

  // From the state guard_out sees to the final one.
  lemma GuardedFinal(cfg: Config, orc: Oracle, t: Dict, pre: Dict, intake: Intake, k: nat)
    requires Built(cfg, orc, t, pre, k) && t.Iterations() == 0 && t.intake == Some(intake) && !t.Escalated()
    requires t.blocked == Some(false) && t.blockReason.None? && t.retrieved == Some(orc.hits)
    requires pre.Messages() != [] && pre.Messages()[|pre.Messages()| - 1].AI? && LastText(pre) == orc.answer(k).text
    requires Reduce(pre, GuardOut(cfg, orc, pre)).Used() == Spent(orc, k)
    ensures Final(cfg, orc, Reduce(pre, GuardOut(cfg, orc, pre)), intake, t.Trace(), k)
  {
    hide GuardOut, Reduce, IntakeOver, EscalatesIn, Strip, Spent, RoundsTrace, Dict.Messages;
    GuardOutReply(cfg, orc, pre);
    GuardOutKeeps(cfg, orc, pre);
  }

  lemma FinalOfTurn(cfg: Config, orc: Oracle, max: int, history: seq<Msg>, text: string, intake: Intake, a: bool,
                    k: nat)
    requires !Stops(orc, text) && StopsAt(orc, max, 0, k)
    ensures var s := InitialState(history, text, intake);
            Final(cfg, orc, JsonFinal(cfg, orc, max, s, a), intake, AfterHeads(orc, s, a).Trace(), k)
  {
    hide InitialState, AfterHeads, Run, Loop, FinalState, Before, Rounds, GuardOut, Reduce, Built, Final, Spent, Stops,
         StopsAt, LastText;
    var s := InitialState(history, text, intake);
    var t := AfterHeads(orc, s, a);
    HeadsMeaning(orc, history, text, intake, a);
    RunFinal(cfg, orc, max, s, a);
    BeforeGuard(cfg, orc, max, t);
    RunBuilds(cfg, orc, max, t);
    BuiltIterations(cfg, orc, t, Before(cfg, orc, max, t), Rounds(cfg, orc, max, t));
    RoundsMeaning(cfg, orc, max, t);
    OneStop(orc, max, 0, k, Rounds(cfg, orc, max, t));
    FinalUsage(cfg, orc, max, t);
    GuardedFinal(cfg, orc, t, Before(cfg, orc, max, t), intake, k);
  }

  lemma BuiltIterations(cfg: Config, orc: Oracle, s: Dict, pre: Dict, k: nat)
    requires Built(cfg, orc, s, pre, k)
    ensures pre.Iterations() == s.Iterations() + k
  {
  }

  // Main result for any other message, with k the number of times the model is asked: what is stored,
  // billed, escalated and answered, in terms of the answers, the tool results and the guards' verdicts.
  lemma AnsweredTurn(cfg: Config, orc: Oracle, max: int, history: seq<Msg>, text: string, intake: Intake, a: bool,
                     reply: string, k: nat)
    requires !Stops(orc, text) && StopsAt(orc, max, 0, k)
    ensures var f := JsonFinal(cfg, orc, max, InitialState(history, text, intake), a);
            var c := Close(f, intake, reply);
            var last := orc.answer(k).text;
            var seen := if orc.guardIn(text).None? then "guard_in:unverified" else "guard_in";
            var heads := if a then [seen, "retrieve"] else ["retrieve", seen];
            && f.retrieved == Some(orc.hits)
            && c.message == Stored("assistant", reply, heads + RoundsTrace(k) + [OutTag(cfg, orc, last)],
                                   Objects(cfg, orc, last),
                                   if Objects(cfg, orc, last)
                                   then OrElse(orc.guardOut(last).value.which, "prohibited content") else "",
                                   Spent(orc, k))
            && c.tokens == Spent(orc, k).input + Spent(orc, k).output
            && (c.escalates <==> EscalatesIn(cfg, orc, 0, k))
            && IntakeOver(cfg, orc, 0, k, intake, c.intake)
            && c.payload == Payload(reply, c.message.trace, c.message.blocked, c.escalates, c.intake, Spent(orc, k))
  {
    hide InitialState, AfterHeads, JsonFinal, IntakeOver, EscalatesIn, Strip, Spent, RoundsTrace, StopsAt, OutTag,
         Objects;
    HeadsMeaning(orc, history, text, intake, a);
    FinalOfTurn(cfg, orc, max, history, text, intake, a, k);
    KeepsNothing(cfg, orc, k, intake, JsonFinal(cfg, orc, max, InitialState(history, text, intake), a).Known());
  }

  // The texts of the first k answers.
  function AnswerTexts(orc: Oracle, from: nat, k: nat): (texts: seq<string>)
    ensures |texts| == k
  {
    seq(k, i requires 0 <= i < k => orc.answer(from + i + 1).text)
  }

  lemma {:induction false} LoopSaysAnswers(cfg: Config, orc: Oracle, max: int, s: Dict)
    requires !s.Blocked()
    ensures LoopTexts(cfg, orc, max, s) == AnswerTexts(orc, s.Iterations(), Rounds(cfg, orc, max, s))
    decreases max - s.Iterations()
  {
    hide *;
    RoundsStep(cfg, orc, max, s);
    TextsRound(cfg, orc, max, s);
    AfterRound(cfg, orc, max, s);
    AnswerTextsCons(orc, s.Iterations(), Rounds(cfg, orc, max, s));
    if AfterAgent(Asked(cfg, orc, s), max) == NTools {
      LoopSaysAnswers(cfg, orc, max, NextRound(cfg, orc, s));
    } else {
      assert [orc.answer(s.Iterations() + 1).text] + [] == [orc.answer(s.Iterations() + 1).text];
    }
  }

  lemma AnswerTextsCons(orc: Oracle, from: nat, k: nat)
    ensures k > 0 ==> AnswerTexts(orc, from, k) == [orc.answer(from + 1).text] + AnswerTexts(orc, from + 1, k - 1)
    ensures AnswerTexts(orc, from, 1) == [orc.answer(from + 1).text]
  {
  }

  // And the reply is the refusal if the guard objects to the last answer, otherwise the latest answer
  // of the turn that is not blank, or else the reply the history ended with.
  lemma AnsweredReply(cfg: Config, orc: Oracle, max: int, history: seq<Msg>, text: string, intake: Intake, a: bool,
                      k: nat)
    requires !Stops(orc, text) && StopsAt(orc, max, 0, k) && Strip(cfg.refusal) != ""
    ensures Reply(JsonFinal(cfg, orc, max, InitialState(history, text, intake), a).Messages())
            == if Objects(cfg, orc, orc.answer(k).text) then cfg.refusal
               else Heard(Reply(history), AnswerTexts(orc, 0, k))
  {
    hide InitialState, AfterHeads, Run, Loop, FinalState, Before, Rounds, GuardOut, Reduce, Built, Heard, Stops,
         StopsAt, Strip, ReplyIn, LoopTexts, AnswerTexts;
    var s := InitialState(history, text, intake);
    var t := AfterHeads(orc, s, a);
    HeadsMeaning(orc, history, text, intake, a);
    HeadsKeepMessages(orc, history, text, intake, a);
    RunFinal(cfg, orc, max, s, a);
    BeforeGuard(cfg, orc, max, t);
    ReplyBeforeGuard(cfg, orc, max, t);
    LoopSaysAnswers(cfg, orc, max, t);
    RunBuilds(cfg, orc, max, t);
    BuiltIterations(cfg, orc, t, Before(cfg, orc, max, t), Rounds(cfg, orc, max, t));
    RoundsMeaning(cfg, orc, max, t);
    OneStop(orc, max, 0, k, Rounds(cfg, orc, max, t));
    GuardOutReply(cfg, orc, Before(cfg, orc, max, t));
    ReplyOfOneMore(Before(cfg, orc, max, t).Messages(), AI(cfg.refusal, []));
    RefusalIsReply(cfg);
  }

  lemma SpentNothing(orc: Oracle)
    ensures Spent(orc, 0) == Usage(0, 0)
  {
  }

  lemma GuardOutKeeps(cfg: Config, orc: Oracle, pre: Dict)
    ensures var f := Reduce(pre, GuardOut(cfg, orc, pre));
            f.retrieved == pre.retrieved && f.escalate == pre.escalate && f.intake == pre.intake
  {
  }

  // An intake that ends empty began empty.
  lemma KeepsNothing(cfg: Config, orc: Oracle, k: nat, was: Intake, now: Intake)
    requires IntakeOver(cfg, orc, 0, k, was, now)
    ensures now == map[] ==> was == map[]
  {
    if now == map[] && was != map[] {
      var key :| key in was;
      if !NoneIn(cfg, orc, 0, k, key) {
        var j, i := SomeLast(cfg, orc, 0, k, key);
      }
    }
  }

  // If a key is captured at all, some capture is the last one.
  lemma {:induction false} SomeLast(cfg: Config, orc: Oracle, lo: nat, hi: nat, key: string) returns (j: nat, i: nat)
    requires !NoneIn(cfg, orc, lo, hi, key)
    ensures LastIn(cfg, orc, lo, hi, key, j, i)
    decreases hi
  {
    hide Captures;
    var m: nat, n: nat :| lo < m < hi && CapturesAt(cfg, orc, m, n, key);
    j := hi - 1;
    if exists n: nat :: CapturesAt(cfg, orc, j, n, key) {
      i := LastCallOf(cfg, orc, j, |orc.answer(j).calls|, key);
    } else {
      assert !NoneIn(cfg, orc, lo, j, key);
      j, i := SomeLast(cfg, orc, lo, j, key);
    }
  }

  lemma {:induction false} LastCallOf(cfg: Config, orc: Oracle, j: nat, n: nat, key: string) returns (i: nat)
    requires n <= |orc.answer(j).calls| && exists m: nat :: m < n && CapturesAt(cfg, orc, j, m, key)
    ensures i < n && CapturesAt(cfg, orc, j, i, key) && forall m: nat :: i < m < n ==> !CapturesAt(cfg, orc, j, m, key)
  {
    if CapturesAt(cfg, orc, j, n - 1, key) {
      i := n - 1;
    } else {
      i := LastCallOf(cfg, orc, j, n - 1, key);
    }
  }
}
