// How far the promises of the reminder protocol reach (app/services/reminders.py:160-234): how many
// mails a reminder can cause for a given number of faults, and that a finished row stays finished
// exactly as long as nothing raises after a committed _finish. Both with runs that show the limit.
module ReminderFaults {
  import opened Prelude
  import opened Reminders

  // ---------------------------------------------------------------- running a list of steps

  predicate Legal(s: State, labels: seq<Label>)
    decreases |labels|
  {
    labels != [] ==> Enabled(s, labels[0]) && Legal(Next(s, labels[0]), labels[1..])
  }

  function End(s: State, labels: seq<Label>): State
    requires Legal(s, labels)
    decreases |labels|
  {
    if labels == [] then s else End(Next(s, labels[0]), labels[1..])
  }

  function Trail(s: State, labels: seq<Label>): (states: seq<State>)
    requires Legal(s, labels)
    ensures |states| == |labels| + 1 && states[0] == s
    decreases |labels|
  {
    if labels == [] then [s] else [s] + Trail(Next(s, labels[0]), labels[1..])
  }

  lemma {:induction false} TrailSteps(s: State, labels: seq<Label>, i: nat)
    requires Legal(s, labels) && i < |labels|
    ensures var states := Trail(s, labels); Enabled(states[i], labels[i]) && states[i + 1] == Next(states[i], labels[i])
    decreases |labels|
  {
    hide Enabled, Next;
    if i > 0 {
      TrailSteps(Next(s, labels[0]), labels[1..], i - 1);
    }
  }

  lemma TrailIsRun(s: State, labels: seq<Label>)
    requires Initial(s) && Legal(s, labels)
    ensures IsRun(Trail(s, labels), labels)
  {
    hide Legal, Trail, Enabled, Next, Initial;
    forall i | 0 <= i < |labels|
      ensures Enabled(Trail(s, labels)[i], labels[i]) && Trail(s, labels)[i + 1] == Next(Trail(s, labels)[i], labels[i])
    {
      TrailSteps(s, labels, i);
    }
  }

  lemma {:induction false} TrailReaches(s: State, a: seq<Label>, b: seq<Label>)
    requires Legal(s, a) && Legal(End(s, a), b)
    ensures Legal(s, a + b) && End(s, a + b) == End(End(s, a), b)
    ensures Trail(s, a + b)[|a|] == End(s, a)
    decreases |a|
  {
    hide Enabled, Next;
    if a == [] {
      assert a + b == b;
    } else {
      assert (a + b)[0] == a[0] && (a + b)[1..] == a[1..] + b;
      TrailReaches(Next(s, a[0]), a[1..], b);
    }
  }

  // ---------------------------------------------------------------- one reminder, claimed again and again

  const A: ApptId := 0
  const R: RowId := 0
  const W: Worker := 0
  const NEXT_YEAR := 366 * 24 * 60 * 60_000_000

  const NOTHING := State(map[], 0, map[], map[], 0, multiset{}, multiset{}, multiset{})

  function Times(n: nat): multiset<RowId> {
    multiset{}[R := n]
  }

  // An appointment next year whose one reminder is due, after n claims that all mailed and were then
  // cut off by a fault.
  function Due(n: nat, now: int): State {
    State(map[R := Row(A, "r", now, Planned, n)], 1, map[A := Appt(true, NEXT_YEAR)], map[], now,
          Times(n), Times(n), Times(n))
  }

  const START := [PutAppt(A, Appt(true, NEXT_YEAR)), Plan(A, "r", 0)]

  // Claim, read, mail.
  const MAIL := [Claim(W, R), Read(W), Enqueue(W, true)]

  // And a fault before the row is finished; ten minutes later it is due again.
  const LOSE := [Fault(W), Replan(W), Tick(RETRY_DELAY)]

  function Mailed(n: nat, now: int): State {
    Due(n, now).(rows := map[R := Row(A, "r", now, Sending, n + 1)], jobs := map[W := Work(R, A, n + 1, Phase.Mailed)],
                 claims := Times(n + 1), mails := Times(n + 1))
  }

  lemma Starts()
    ensures Initial(NOTHING) && Legal(NOTHING, START) && End(NOTHING, START) == Due(0, 0)
  {
    var s1 := Next(NOTHING, START[0]);
    assert START[1..] == [START[1]] && [START[1]][1..] == [];
    assert Next(s1, START[1]) == Due(0, 0);
    assert Legal(Due(0, 0), []) && Legal(s1, [START[1]]);
    assert End(s1, [START[1]]) == Due(0, 0);
  }

  lemma ThreeSteps(s: State, a: Label, b: Label, c: Label)
    requires Enabled(s, a) && Enabled(Next(s, a), b) && Enabled(Next(Next(s, a), b), c)
    ensures Legal(s, [a, b, c]) && End(s, [a, b, c]) == Next(Next(Next(s, a), b), c)
  {
    hide Enabled, Next;
    var s3 := Next(Next(Next(s, a), b), c);
    assert [a, b, c][1..] == [b, c] && [b, c][1..] == [c] && [c][1..] == [];
    assert Legal(s3, []) && Legal(Next(Next(s, a), b), [c]) && Legal(Next(s, a), [b, c]);
    assert End(s3, []) == s3 && End(Next(Next(s, a), b), [c]) == s3 && End(Next(s, a), [b, c]) == s3;
  }

  lemma Mails(n: nat, now: int)
    requires now < NEXT_YEAR
    ensures Legal(Due(n, now), MAIL) && End(Due(n, now), MAIL) == Mailed(n, now)
  {
    hide Legal, End;
    assert Times(n) + multiset{R} == Times(n + 1);
    ThreeSteps(Due(n, now), Claim(W, R), Read(W), Enqueue(W, true));
  }

  lemma Loses(n: nat, now: int)
    requires n < 2
    ensures Legal(Mailed(n, now), LOSE) && End(Mailed(n, now), LOSE) == Due(n + 1, now + RETRY_DELAY)
  {
    hide Legal, End;
    assert Times(n) + multiset{R} == Times(n + 1);
    ThreeSteps(Mailed(n, now), Fault(W), Replan(W), Tick(RETRY_DELAY));
  }

  // n rounds that mail and lose the row.
  function Rounds(n: nat): seq<Label> {
    if n == 0 then START else Rounds(n - 1) + (MAIL + LOSE)
  }

  lemma {:induction false} AfterRounds(n: nat)
    requires n <= 2
    ensures Legal(NOTHING, Rounds(n)) && End(NOTHING, Rounds(n)) == Due(n, n * RETRY_DELAY)
    ensures NoLateFault(Rounds(n))
  {
    hide Legal, End, Trail, Due, Mailed, Next, Enabled;
    if n == 0 {
      Starts();
    } else {
      var now := (n - 1) * RETRY_DELAY;
      AfterRounds(n - 1);
      Mails(n - 1, now);
      Loses(n - 1, now);
      TrailReaches(Due(n - 1, now), MAIL, LOSE);
      TrailReaches(NOTHING, Rounds(n - 1), MAIL + LOSE);
    }
  }

  // A run that mails n + 1 times for n faults between a mail and its finish.
  lemma MailsPerFault(n: nat)
    requires n <= 2
    ensures var labels := Rounds(n) + MAIL;
            && Legal(NOTHING, labels) && IsRun(Trail(NOTHING, labels), labels) && NoLateFault(labels)
            && End(NOTHING, labels) == Mailed(n, n * RETRY_DELAY)
            && Trail(NOTHING, labels)[|labels|] == Mailed(n, n * RETRY_DELAY)
  {
    hide Legal, End, Trail, Due, Mailed, Next, Enabled, Initial, IsRun;
    AfterRounds(n);
    Mails(n, n * RETRY_DELAY);
    TrailReaches(NOTHING, Rounds(n), MAIL);
    Starts();
    TrailIsRun(NOTHING, Rounds(n) + MAIL);
    LegalNothing(End(NOTHING, Rounds(n) + MAIL));
    TrailReaches(NOTHING, Rounds(n) + MAIL, []);
    assert Rounds(n) + MAIL + [] == Rounds(n) + MAIL;
  }

  lemma LegalNothing(s: State)
    ensures Legal(s, [])
  {
  }

  // ---------------------------------------------------------------- mails against faults

  ghost predicate Reachable(s: State) {
    exists states, labels, i: nat :: ReachedBy(s, states, labels, i)
  }

  ghost predicate ReachedBy(s: State, states: seq<State>, labels: seq<Label>, i: nat) {
    IsRun(states, labels) && i < |states| && states[i] == s
  }

  // With at most k faults that hit a worker that had just mailed a reminder, at most m mails for it.
  ghost predicate AtMost(k: nat, m: nat) {
    forall s, r: RowId :: Reachable(s) && s.mailFaults[r] <= k ==> s.mails[r] <= m
  }

  // Main result: k such faults mean at most k + 1 mails, at most three in all, and no bound below that
  // holds. In particular at most one mail is exactly what no fault guarantees.
  lemma MailsIff(k: nat, m: nat)
    ensures AtMost(k, m) <==> m >= Min(k + 1, MAX_ATTEMPTS)
    ensures AtMost(k, 1) <==> k == 0
  {
    MailsBound(k, m);
    MailsBound(k, 1);
  }

  lemma MailsBound(k: nat, m: nat)
    ensures AtMost(k, m) <==> m >= Min(k + 1, MAX_ATTEMPTS)
  {
    hide IsRun, NoLateFault, Trail, Legal, Unique, OneOwner;
    forall s, r: RowId | Reachable(s) && s.mailFaults[r] <= k ensures s.mails[r] <= Min(k + 1, MAX_ATTEMPTS) {
      var states, labels, i: nat :| ReachedBy(s, states, labels, i);
      Safety(states, labels, i);
    }
    var n := Min(k, 2);
    MailsPerFault(n);
    var s := Mailed(n, n * RETRY_DELAY);
    assert ReachedBy(s, Trail(NOTHING, Rounds(n) + MAIL), Rounds(n) + MAIL, |Rounds(n) + MAIL|);
    assert s.mails[R] == n + 1 && s.mailFaults[R] == n;
  }

  // ---------------------------------------------------------------- finished rows

  // Along the run, a sent, failed or cancelled row stays as it is while it exists.
  ghost predicate FinishedStay(states: seq<State>) {
    forall i: nat, j: nat, r: RowId {:trigger states[i].rows[r], states[j].rows[r]} ::
      i <= j < |states| && r in states[i].rows && states[i].rows[r].status.Terminal() && r in states[j].rows ==>
        states[j].rows[r] == states[i].rows[r]
  }

  function LateFaults(labels: seq<Label>): nat {
    if labels == [] then 0 else LateFaults(labels[..|labels| - 1]) + (if labels[|labels| - 1].LateFault? then 1 else 0)
  }

  lemma {:induction false} NoneIsNone(labels: seq<Label>)
    ensures LateFaults(labels) == 0 <==> NoLateFault(labels)
  {
    if labels != [] {
      NoneIsNone(labels[..|labels| - 1]);
      assert labels == labels[..|labels| - 1] + [labels[|labels| - 1]];
    }
  }

  ghost predicate AlwaysStay(n: nat) {
    forall states, labels :: IsRun(states, labels) && LateFaults(labels) <= n ==> FinishedStay(states)
  }

  // An exception after a committed _finish, at the first attempt: the sent row is planned again.
  const REOPEN := [LateFault(W), Replan(W)]

  // At the third attempt: the sent row becomes failed.
  const FAIL := [LateFault(W), Finish(W, Giving)]

  lemma TwoSteps(s: State, a: Label, b: Label)
    requires Enabled(s, a) && Enabled(Next(s, a), b)
    ensures Legal(s, [a, b]) && Trail(s, [a, b]) == [s, Next(s, a), Next(Next(s, a), b)]
  {
    hide Enabled, Next;
    assert [a, b][1..] == [b] && [b][1..] == [];
    assert Legal(Next(Next(s, a), b), []) && Legal(Next(s, a), [b]);
    assert Trail(Next(s, a), [b]) == [Next(s, a), Next(Next(s, a), b)];
  }

  lemma {:induction false} TrailOfBoth(s: State, a: seq<Label>, b: seq<Label>, k: nat)
    requires Legal(s, a) && Legal(End(s, a), b) && k <= |b|
    ensures Legal(s, a + b) && Trail(s, a + b)[|a| + k] == Trail(End(s, a), b)[k]
    decreases |a|
  {
    hide Enabled, Next;
    if a == [] {
      assert a + b == b;
    } else {
      assert (a + b)[0] == a[0] && (a + b)[1..] == a[1..] + b;
      TrailOfBoth(Next(s, a[0]), a[1..], b, k);
    }
  }

  // The two cases, as runs from the initial state: the row is sent at step i, and planned again or
  // failed one step later.
  lemma SentIsReopened() returns (states: seq<State>, labels: seq<Label>, i: nat)
    ensures IsRun(states, labels) && LateFaults(labels) == 1 && i + 1 < |states|
    ensures R in states[i].rows && states[i].rows[R].status.Sent?
    ensures R in states[i + 1].rows && states[i + 1].rows[R].status.Planned?
  {
    hide Legal, End, Trail, Mailed, Initial, IsRun, Rounds, LateFaults;
    var base := Rounds(0) + MAIL;
    labels := base + REOPEN;
    MailsPerFault(0);
    Starts();
    var s := Mailed(0, 0);
    TwoSteps(s, LateFault(W), Replan(W)) by { MailedState(0, 0); }
    TrailReaches(NOTHING, base, REOPEN);
    TrailIsRun(NOTHING, labels);
    TrailOfBoth(NOTHING, base, REOPEN, 1);
    TrailOfBoth(NOTHING, base, REOPEN, 2);
    states, i := Trail(NOTHING, labels), |base| + 1;
    LateOfTwo(base, LateFault(W), Replan(W));
    MailedState(0, 0);
  }

  lemma SentIsFailed() returns (states: seq<State>, labels: seq<Label>, i: nat)
    ensures IsRun(states, labels) && LateFaults(labels) == 1 && i + 1 < |states|
    ensures R in states[i].rows && states[i].rows[R].status.Sent?
    ensures R in states[i + 1].rows && states[i + 1].rows[R].status.Failed?
  {
    hide Legal, End, Trail, Mailed, Initial, IsRun, Rounds, LateFaults;
    var base := Rounds(2) + MAIL;
    labels := base + FAIL;
    MailsPerFault(2);
    Starts();
    var s := Mailed(2, 2 * RETRY_DELAY);
    TwoSteps(s, LateFault(W), Finish(W, Giving)) by { MailedState(2, 2 * RETRY_DELAY); }
    TrailReaches(NOTHING, base, FAIL);
    TrailIsRun(NOTHING, labels);
    TrailOfBoth(NOTHING, base, FAIL, 1);
    TrailOfBoth(NOTHING, base, FAIL, 2);
    states, i := Trail(NOTHING, labels), |base| + 1;
    LateOfTwo(base, LateFault(W), Finish(W, Giving));
    MailedState(2, 2 * RETRY_DELAY);
  }

  lemma MailedState(n: nat, now: int)
    ensures var s := Mailed(n, now);
            && s.rows == map[R := Row(A, "r", now, Sending, n + 1)]
            && s.jobs == map[W := Work(R, A, n + 1, Phase.Mailed)]
  {
  }

  lemma LateOfTwo(base: seq<Label>, a: Label, b: Label)
    requires NoLateFault(base) && a.LateFault? && !b.LateFault?
    ensures LateFaults(base + [a, b]) == 1
  {
    NoneIsNone(base);
    assert (base + [a, b])[..|base| + 1] == base + [a];
    assert (base + [a])[..|base|] == base;
  }

  // Main result: finished rows stay finished in every run with at most n exceptions after a committed
  // _finish exactly when n is 0.
  lemma FinishedStayIff(n: nat)
    ensures AlwaysStay(n) <==> n == 0
  {
    hide IsRun, LateFaults, NoLateFault;
    if n == 0 {
      forall states, labels | IsRun(states, labels) && LateFaults(labels) <= n ensures FinishedStay(states) {
        NoneIsNone(labels);
        FinishedStayWithout(states, labels);
      }
    } else {
      var states, labels, i := SentIsReopened();
      assert states[i].rows[R] != states[i + 1].rows[R];
      assert !FinishedStay(states);
    }
  }

  lemma FinishedStayWithout(states: seq<State>, labels: seq<Label>)
    requires IsRun(states, labels) && NoLateFault(labels)
    ensures FinishedStay(states)
  {
    hide NoLateFault, Enabled, Next;
    forall i: nat, j: nat, r: RowId |
      i <= j < |states| && r in states[i].rows && states[i].rows[r].status.Terminal() && r in states[j].rows
      ensures states[j].rows[r] == states[i].rows[r]
    {
      TerminalIsFinal(states, labels, i, j, r);
    }
  }
}
