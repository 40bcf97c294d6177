// The reminder protocol (app/services/reminders.py): planning, cancelling, claiming and sending,
// by any number of workers that may fault or crash between any two database transactions.
//
// Each label is one committed transaction or one failure; every interleaving of them is a run.
module Reminders {
  import opened Prelude
  import opened QuietHours

  type RowId = nat
  type ApptId = nat
  type Worker = nat

  datatype Status = Planned | Sending | Sent | Failed | Cancelled {
    predicate Terminal() { Sent? || Failed? || Cancelled? }
  }

  datatype Row = Row(appt: ApptId, rule: string, sendAt: int, status: Status, attempts: nat)

  datatype Appt = Appt(booked: bool, startsAt: int)

  // Where a worker stands inside send_due with the row it claimed.
  datatype Phase =
    | Claimed    // the claim is committed
    | Refused    // the appointment was read and is gone, not booked, or already started
    | Cleared    // the appointment was read, booked and still to come
    | Mailed     // the mail is committed to the job queue
    | NoAddress  // enqueue_email found no recipient
    | Giving     // the exception handler, out of attempts
    | Retrying   // the exception handler, attempts left

  datatype Work = Work(row: RowId, appt: ApptId, attempt: nat, phase: Phase)

  // rows, appts: the tables. jobs: the workers inside send_due. The three multisets are history:
  // per row, the claims, the mails queued, and the faults that hit a worker that had just mailed,
  // before its _finish committed or after.
  datatype State = State(rows: map<RowId, Row>, nextRow: RowId, appts: map<ApptId, Appt>,
                         jobs: map<Worker, Work>, now: int,
                         claims: multiset<RowId>, mails: multiset<RowId>, mailFaults: multiset<RowId>)

  const MAX_ATTEMPTS := 3
  const KEY_CHARS := 48
  const RETRY_DELAY := 10 * 60_000_000

  datatype Label =
    | Tick(dt: nat)
    | PutAppt(a: ApptId, appt: Appt)              // book, reschedule or cancel an appointment
    | DropAppt(a: ApptId)                         // delete it; its reminders cascade
    | Plan(a: ApptId, key: string, sendAt: int)   // one INSERT of plan_for_appointment
    | Cancel(a: ApptId)                           // cancel_for_appointment
    | Claim(w: Worker, r: RowId)
    | Read(w: Worker)
    | Enqueue(w: Worker, hasRecipient: bool)
    | Finish(w: Worker, phase: Phase)             // _finish with the status of the phase
    | Fault(w: Worker)                            // an exception caught by the handler
    | Replan(w: Worker)                           // the handler's UPDATE back to planned
    | Crash(w: Worker)                            // the worker dies, or the handler itself raises
    | LateFault(w: Worker)                        // _finish commits and an exception follows

  function ClaimRow(row: Row): Row {
    row.(status := Sending, attempts := row.attempts + 1)
  }

  // UPDATE reminders SET status = ... WHERE id = r: nothing happens when the row is gone.
  function SetStatus(rows: map<RowId, Row>, r: RowId, status: Status): map<RowId, Row> {
    if r in rows then rows[r := rows[r].(status := status)] else rows
  }

  // The UNIQUE(appointment_id, rule_key) constraint.
  predicate Exists(rows: map<RowId, Row>, a: ApptId, rule: string) {
    exists r :: r in rows && rows[r].appt == a && rows[r].rule == rule
  }

  predicate Upcoming(s: State, a: ApptId) {
    a in s.appts && s.appts[a].booked && s.appts[a].startsAt > s.now
  }

  function FinalStatus(p: Phase): Status {
    match p
    case Refused => Cancelled
    case Mailed => Sent
    case _ => Failed
  }

  predicate Finishing(p: Phase) {
    p.Refused? || p.Mailed? || p.NoAddress? || p.Giving?
  }

  function Handler(attempt: nat): Phase {
    if attempt >= MAX_ATTEMPTS then Giving else Retrying
  }

  predicate Enabled(s: State, l: Label) {
    match l
    case Claim(w, r) => w !in s.jobs && r in s.rows && s.rows[r].status.Planned? && s.rows[r].sendAt <= s.now
    case Read(w) => w in s.jobs && s.jobs[w].phase.Claimed?
    case Enqueue(w, _) => w in s.jobs && s.jobs[w].phase.Cleared?
    case Finish(w, phase) => w in s.jobs && s.jobs[w].phase == phase && Finishing(phase)
    case Fault(w) => w in s.jobs && !s.jobs[w].phase.Giving? && !s.jobs[w].phase.Retrying?
    case Replan(w) => w in s.jobs && s.jobs[w].phase.Retrying?
    case Crash(w) => w in s.jobs
    case LateFault(w) => w in s.jobs && Finishing(s.jobs[w].phase) && !s.jobs[w].phase.Giving?
    case _ => true
  }

  function Advance(s: State, w: Worker, phase: Phase): State
    requires w in s.jobs
  {
    s.(jobs := s.jobs[w := s.jobs[w].(phase := phase)])
  }

  // The faults after a mail, counting one that hits worker w now.
  function WithFault(s: State, w: Worker): multiset<RowId>
    requires w in s.jobs
  {
    if s.jobs[w].phase.Mailed? then s.mailFaults + multiset{s.jobs[w].row} else s.mailFaults
  }

  function Next(s: State, l: Label): State
    requires Enabled(s, l)
  {
    match l
    case Tick(dt) => s.(now := s.now + dt)
    case PutAppt(a, appt) => s.(appts := s.appts[a := appt])
    case DropAppt(a) =>
      s.(appts := s.appts - {a}, rows := map r | r in s.rows && s.rows[r].appt != a :: s.rows[r])
    case Plan(a, key, sendAt) =>
      var rule := Take(key, KEY_CHARS);
      if a !in s.appts || Exists(s.rows, a, rule) then s
      else s.(rows := s.rows[s.nextRow := Row(a, rule, sendAt, Planned, 0)], nextRow := s.nextRow + 1)
    case Cancel(a) =>
      s.(rows := map r | r in s.rows ::
           if s.rows[r].appt == a && s.rows[r].status.Planned? then s.rows[r].(status := Cancelled) else s.rows[r])
    case Claim(w, r) =>
      var row := ClaimRow(s.rows[r]);
      s.(rows := s.rows[r := row], jobs := s.jobs[w := Work(r, row.appt, row.attempts, Claimed)],
         claims := s.claims + multiset{r})
    case Read(w) => Advance(s, w, if Upcoming(s, s.jobs[w].appt) then Cleared else Refused)
    case Enqueue(w, hasRecipient) =>
      if hasRecipient then Advance(s, w, Mailed).(mails := s.mails + multiset{s.jobs[w].row})
      else Advance(s, w, NoAddress)
    case Finish(w, phase) =>
      s.(rows := SetStatus(s.rows, s.jobs[w].row, FinalStatus(phase)), jobs := s.jobs - {w})
    case Fault(w) =>
      Advance(s, w, Handler(s.jobs[w].attempt)).(mailFaults := WithFault(s, w))
    case Replan(w) =>
      var r := s.jobs[w].row;
      s.(rows := if r in s.rows then s.rows[r := s.rows[r].(status := Planned, sendAt := s.now + RETRY_DELAY)]
          else s.rows,
         jobs := s.jobs - {w})
    case Crash(w) => s.(jobs := s.jobs - {w})
    case LateFault(w) =>
      Advance(s, w, Handler(s.jobs[w].attempt)).(
        rows := SetStatus(s.rows, s.jobs[w].row, FinalStatus(s.jobs[w].phase)), mailFaults := WithFault(s, w))
  }

  ghost predicate Initial(s: State) {
    && s.rows == map[] && s.jobs == map[]
    && s.claims == multiset{} && s.mails == multiset{} && s.mailFaults == multiset{}
  }

  // ---------------------------------------------------------------- what every step keeps

  // One row per appointment and rule.
  ghost predicate Unique(rows: map<RowId, Row>) {
    forall r, q :: r in rows && q in rows && rows[r].appt == rows[q].appt && rows[r].rule == rows[q].rule ==> r == q
  }

  // Two workers never hold the same row.
  ghost predicate OneOwner(jobs: map<Worker, Work>) {
    forall v, w :: v in jobs && w in jobs && jobs[v].row == jobs[w].row ==> v == w
  }

  ghost predicate RowInv(s: State, r: RowId) {
    && r < s.nextRow
    && r in s.rows
    && |s.rows[r].rule| <= KEY_CHARS
    && s.rows[r].attempts == s.claims[r]
    && (s.rows[r].status.Planned? ==> s.claims[r] < MAX_ATTEMPTS && s.mails[r] <= s.mailFaults[r])
  }

  // A row in hand is being sent - or is finished, when an exception after its _finish left it to the
  // handler.
  predicate HeldStatus(status: Status, phase: Phase) {
    status.Sending? || (status.Terminal() && (phase.Giving? || phase.Retrying?))
  }

  ghost predicate JobInv(s: State, w: Worker) {
    && w in s.jobs
    && var j := s.jobs[w];
    && j.row < s.nextRow
    && j.attempt == s.claims[j.row]
    && (j.row in s.rows ==> s.rows[j.row].appt == j.appt && HeldStatus(s.rows[j.row].status, j.phase))
    && (!j.phase.Mailed? ==> s.mails[j.row] <= s.mailFaults[j.row])
    && (j.phase.Claimed? || j.phase.Cleared? ==> s.mails[j.row] < s.claims[j.row])
    && (j.phase.Retrying? ==> j.attempt < MAX_ATTEMPTS)
  }

  ghost predicate HistoryInv(s: State, r: RowId) {
    && s.claims[r] <= MAX_ATTEMPTS
    && s.mails[r] <= s.claims[r]
    && s.mails[r] <= s.mailFaults[r] + 1
    && (r >= s.nextRow ==> s.claims[r] == 0)
  }

  ghost predicate Inv(s: State) {
    && Unique(s.rows) && OneOwner(s.jobs)
    && (forall r :: r in s.rows ==> RowInv(s, r))
    && (forall w :: w in s.jobs ==> JobInv(s, w))
    && (forall r :: HistoryInv(s, r))
  }

  // What the steps that move worker w along change, and what they leave.
  predicate IsPhaseStep(l: Label, w: Worker) {
    l == Read(w) || (l.Enqueue? && l.w == w) || l == Fault(w) || l == Crash(w)
  }

  lemma PhaseStepChanges(s: State, l: Label, w: Worker)
    requires Enabled(s, l) && IsPhaseStep(l, w)
    ensures var t := Next(s, l);
            && t.rows == s.rows && t.nextRow == s.nextRow && t.claims == s.claims
            && (forall v :: v != w ==> (v in t.jobs <==> v in s.jobs) && (v in s.jobs ==> t.jobs[v] == s.jobs[v]))
            && (w in t.jobs <==> !l.Crash?)
            && (w in t.jobs ==>
                  && t.jobs[w] == s.jobs[w].(phase := t.jobs[w].phase)
                  && (l.Enqueue? && l.hasRecipient <==> t.jobs[w].phase.Mailed?)
                  && (t.jobs[w].phase.Retrying? ==> s.jobs[w].attempt < MAX_ATTEMPTS)
                  && !s.jobs[w].phase.Giving? && !s.jobs[w].phase.Retrying?
                  && (t.jobs[w].phase.Cleared? ==> s.jobs[w].phase.Claimed?) && !t.jobs[w].phase.Claimed?)
            && t.mails == (if l.Enqueue? && l.hasRecipient then s.mails + multiset{s.jobs[w].row} else s.mails)
            && t.mailFaults == (if l.Fault? then WithFault(s, w) else s.mailFaults)
  {
  }

  // Steps that move worker w along without touching the tables.
  lemma PhaseStepKeepsInv(s: State, l: Label, w: Worker)
    requires Inv(s) && Enabled(s, l) && IsPhaseStep(l, w)
    ensures Inv(Next(s, l))
  {
    hide Next;
    PhaseStepChanges(s, l, w);
    var t := Next(s, l);
    assert JobInv(s, w) && HistoryInv(s, s.jobs[w].row);
    forall q | q in t.rows ensures RowInv(t, q) {
      assert RowInv(s, q);
    }
    forall v | v in t.jobs ensures JobInv(t, v) {
      assert JobInv(s, v);
    }
    forall q ensures HistoryInv(t, q) {
      assert HistoryInv(s, q);
    }
  }

  // Steps in which worker w writes its row and lets go of it.
  lemma ReleaseKeepsInv(s: State, l: Label, w: Worker)
    requires Inv(s) && Enabled(s, l) && ((l.Finish? && l.w == w) || l == Replan(w))
    ensures Inv(Next(s, l))
  {
    var t := Next(s, l);
    assert JobInv(s, w) && HistoryInv(s, s.jobs[w].row);
    forall q | q in t.rows ensures RowInv(t, q) {
      assert RowInv(s, q);
    }
    forall v | v in t.jobs ensures JobInv(t, v) {
      assert JobInv(s, v);
    }
    forall q ensures HistoryInv(t, q) {
      assert HistoryInv(s, q);
    }
  }

  // _finish commits, and the handler takes over all the same.
  lemma LateFaultKeepsInv(s: State, w: Worker)
    requires Inv(s) && Enabled(s, LateFault(w))
    ensures Inv(Next(s, LateFault(w)))
  {
    var t := Next(s, LateFault(w));
    assert JobInv(s, w) && HistoryInv(s, s.jobs[w].row);
    forall q | q in t.rows ensures RowInv(t, q) {
      assert RowInv(s, q);
    }
    forall v | v in t.jobs ensures JobInv(t, v) {
      assert JobInv(s, v);
    }
    forall q ensures HistoryInv(t, q) {
      assert HistoryInv(s, q);
    }
  }

  lemma ClaimKeepsInv(s: State, w: Worker, r: RowId)
    requires Inv(s) && Enabled(s, Claim(w, r))
    ensures Inv(Next(s, Claim(w, r)))
  {
    var t := Next(s, Claim(w, r));
    assert RowInv(s, r) && HistoryInv(s, r);
    forall v | v in t.jobs ensures JobInv(t, v) {
      if v != w {
        assert JobInv(s, v) && s.jobs[v].row != r;
      }
    }
    forall q | q in t.rows ensures RowInv(t, q) {
      assert RowInv(s, q);
    }
    forall q ensures HistoryInv(t, q) {
      assert HistoryInv(s, q);
    }
  }

  lemma TableStepKeepsInv(s: State, l: Label)
    requires Inv(s) && (l.Tick? || l.PutAppt? || l.DropAppt? || l.Plan? || l.Cancel?)
    ensures Inv(Next(s, l))
  {
    var t := Next(s, l);
    forall q | q in t.rows ensures RowInv(t, q) {
      if q in s.rows {
        assert RowInv(s, q);
      } else {
        assert HistoryInv(s, q);
      }
    }
    forall v | v in t.jobs ensures JobInv(t, v) {
      assert JobInv(s, v);
    }
    forall q ensures HistoryInv(t, q) {
      assert HistoryInv(s, q);
    }
  }

  lemma StepKeepsInv(s: State, l: Label)
    requires Inv(s) && Enabled(s, l)
    ensures Inv(Next(s, l))
  {
    hide Inv, Next;
    match l
    case Claim(w, r) => ClaimKeepsInv(s, w, r);
    case Read(w) => PhaseStepKeepsInv(s, l, w);
    case Enqueue(w, b) => PhaseStepKeepsInv(s, l, w);
    case Fault(w) => PhaseStepKeepsInv(s, l, w);
    case Crash(w) => PhaseStepKeepsInv(s, l, w);
    case Finish(w, _) => ReleaseKeepsInv(s, l, w);
    case Replan(w) => ReleaseKeepsInv(s, l, w);
    case LateFault(w) => LateFaultKeepsInv(s, w);
    case _ => TableStepKeepsInv(s, l);
  }

  // ---------------------------------------------------------------- whole runs

  ghost predicate IsRun(states: seq<State>, labels: seq<Label>) {
    && |states| == |labels| + 1
    && Initial(states[0])
    && forall i :: 0 <= i < |labels| ==> Enabled(states[i], labels[i]) && states[i + 1] == Next(states[i], labels[i])
  }

  lemma RunStep(states: seq<State>, labels: seq<Label>, i: nat)
    requires IsRun(states, labels) && i < |states| - 1
    ensures i < |labels| && Enabled(states[i], labels[i]) && states[i + 1] == Next(states[i], labels[i])
  {}

  lemma {:induction false} RunKeepsInv(states: seq<State>, labels: seq<Label>, i: nat)
    requires IsRun(states, labels) && i < |states|
    ensures Inv(states[i])
  {
    hide Next;
    if i == 0 {
      forall r ensures HistoryInv(states[0], r) {}
    } else {
      RunKeepsInv(states, labels, i - 1);
      hide Inv;
      StepKeepsInv(states[i - 1], labels[i - 1]);
    }
  }

  // Safety, in every reachable state, whatever faults: one row per appointment and truncated rule
  // key; at most one worker per row; at most three claims and three mails a row, and at most one
  // mail more than there were faults that hit a worker that had just mailed.
  lemma Safety(states: seq<State>, labels: seq<Label>, i: nat)
    requires IsRun(states, labels) && i < |states|
    ensures var s := states[i];
            && Unique(s.rows) && OneOwner(s.jobs)
            && (forall w :: w in s.jobs && s.jobs[w].row in s.rows ==>
                  HeldStatus(s.rows[s.jobs[w].row].status, s.jobs[w].phase))
            && (forall r :: r in s.rows ==> |s.rows[r].rule| <= KEY_CHARS && s.rows[r].attempts == s.claims[r])
            && (forall r :: s.mails[r] <= s.claims[r] <= MAX_ATTEMPTS)
            && (forall r :: s.mails[r] <= s.mailFaults[r] + 1)
  {
    RunKeepsInv(states, labels, i);
    var s := states[i];
    forall w | w in s.jobs && s.jobs[w].row in s.rows
      ensures HeldStatus(s.rows[s.jobs[w].row].status, s.jobs[w].phase)
    {
      assert JobInv(s, w);
    }
    forall r | r in s.rows ensures |s.rows[r].rule| <= KEY_CHARS && s.rows[r].attempts == s.claims[r] {
      assert RowInv(s, r);
    }
    forall r ensures s.mails[r] <= s.claims[r] <= MAX_ATTEMPTS && s.mails[r] <= s.mailFaults[r] + 1 {
      assert HistoryInv(s, r);
    }
  }

  // ---------------------------------------------------------------- once _finish has committed

  // Nothing raises after a committed _finish.
  ghost predicate NoLateFault(labels: seq<Label>) {
    forall l :: l in labels ==> !l.LateFault?
  }

  // Every row in hand is being sent.
  ghost predicate HeldIsSending(s: State) {
    forall w :: w in s.jobs && s.jobs[w].row in s.rows ==> s.rows[s.jobs[w].row].status.Sending?
  }

  lemma StepKeepsSending(s: State, l: Label)
    requires Inv(s) && HeldIsSending(s) && Enabled(s, l) && !l.LateFault?
    ensures HeldIsSending(Next(s, l))
  {
    var t := Next(s, l);
    forall w | w in t.jobs && t.jobs[w].row in t.rows ensures t.rows[t.jobs[w].row].status.Sending? {
      if w in s.jobs {
        assert JobInv(s, w);
      }
    }
  }

  // Then a row in hand is never finished.
  lemma {:induction false} RowsInHandAreSending(states: seq<State>, labels: seq<Label>, i: nat)
    requires IsRun(states, labels) && NoLateFault(labels) && i < |states|
    ensures HeldIsSending(states[i])
  {
    hide Inv, Next, Enabled;
    if i > 0 {
      RowsInHandAreSending(states, labels, i - 1);
      RunKeepsInv(states, labels, i - 1);
      RunStep(states, labels, i - 1);
      StepKeepsSending(states[i - 1], labels[i - 1]);
    }
  }

  lemma StepKeepsTerminal(s: State, l: Label, r: RowId)
    requires Inv(s) && HeldIsSending(s) && Enabled(s, l) && !l.LateFault?
    requires r in s.rows && s.rows[r].status.Terminal() && r in Next(s, l).rows
    ensures Next(s, l).rows[r] == s.rows[r]
  {
    assert RowInv(s, r);
    if l.Finish? || l.Replan? {
      assert JobInv(s, l.w);
    }
  }

  lemma RowIdIsOld(s: State, r: RowId)
    requires Inv(s) && r in s.rows
    ensures r < s.nextRow
  {
    assert RowInv(s, r);
  }

  // A sent, failed or cancelled reminder never changes again while it exists.
  lemma {:induction false} TerminalIsFinal(states: seq<State>, labels: seq<Label>, i: nat, j: nat, r: RowId)
    requires IsRun(states, labels) && NoLateFault(labels) && i <= j < |states| == |labels| + 1
    requires r in states[i].rows && states[i].rows[r].status.Terminal() && r in states[j].rows
    ensures states[j].rows[r] == states[i].rows[r]
    decreases j
  {
    hide Inv, Next, IsRun, Enabled, HeldIsSending;
    if i < j {
      RunStep(states, labels, j - 1);
      RowsInHandAreSending(states, labels, j - 1);
      RunKeepsInv(states, labels, i);
      RowIdIsOld(states[i], r);
      RowsDoNotComeBack(states, labels, i, j - 1, r);
      RunKeepsInv(states, labels, j - 1);
      TerminalIsFinal(states, labels, i, j - 1, r);
      StepKeepsTerminal(states[j - 1], labels[j - 1], r);
    }
  }

  // Row ids are never reused.
  lemma {:induction false} RowsDoNotComeBack(states: seq<State>, labels: seq<Label>, i: nat, j: nat, r: RowId)
    requires IsRun(states, labels) && i <= j < |states| - 1
    requires r < states[i].nextRow && r in states[j + 1].rows
    ensures r in states[j].rows && r < states[j].nextRow
    decreases j
  {
    NextRowGrows(states, labels, i, j);
    assert states[j + 1] == Next(states[j], labels[j]);
  }

  lemma {:induction false} NextRowGrows(states: seq<State>, labels: seq<Label>, i: nat, j: nat)
    requires IsRun(states, labels) && i <= j < |states|
    ensures states[i].nextRow <= states[j].nextRow
    decreases j
  {
    if i < j {
      NextRowGrows(states, labels, i, j - 1);
      assert states[j] == Next(states[j - 1], labels[j - 1]);
    }
  }

  // A claim with nobody left to finish it: the worker that made it crashed.
  ghost predicate Orphan(s: State, r: RowId) {
    && r < s.nextRow
    && (r in s.rows ==> s.rows[r].status.Sending?)
    && forall w :: w in s.jobs ==> s.jobs[w].row != r
  }

  lemma StepKeepsOrphan(s: State, l: Label, r: RowId)
    requires Orphan(s, r) && Enabled(s, l)
    ensures var t := Next(s, l);
            && Orphan(t, r) && t.claims[r] == s.claims[r] && t.mails[r] == s.mails[r]
            && (r in t.rows ==> r in s.rows && t.rows[r] == s.rows[r])
  {
    var t := Next(s, l);
    forall w | w in t.jobs ensures t.jobs[w].row != r {
      if w in s.jobs {
        assert s.jobs[w].row != r;
      }
    }
  }

  // A crashed claim stays claimed: whatever happens, late faults included, no step takes the row
  // up again.
  lemma {:induction false} CrashedClaimIsNeverReclaimed(states: seq<State>, labels: seq<Label>, i: nat, j: nat,
                                                        r: RowId)
    requires IsRun(states, labels) && i <= j < |states| && Orphan(states[i], r)
    ensures Orphan(states[j], r)
    ensures states[j].claims[r] == states[i].claims[r] && states[j].mails[r] == states[i].mails[r]
    ensures r in states[j].rows ==> r in states[i].rows && states[j].rows[r] == states[i].rows[r]
    decreases j
  {
    hide Next, Orphan;
    if i < j {
      CrashedClaimIsNeverReclaimed(states, labels, i, j - 1, r);
      StepKeepsOrphan(states[j - 1], labels[j - 1], r);
    }
  }

  // Worker w took the current row up with a read, at step k, that saw the appointment booked
  // and not yet started.
  ghost predicate ClearedAt(states: seq<State>, labels: seq<Label>, k: nat, w: Worker, work: Work) {
    && k < |labels| && |states| == |labels| + 1
    && labels[k] == Read(w) && w in states[k].jobs
    && states[k].jobs[w].row == work.row && states[k].jobs[w].attempt == work.attempt
    && states[k].jobs[w].appt == work.appt && work.appt in states[k].appts
    && states[k].appts[work.appt].booked && states[k].appts[work.appt].startsAt > states[k].now
  }

  lemma {:induction false} ClearedFollowsRead(states: seq<State>, labels: seq<Label>, i: nat,
                                              w: Worker) returns (k: nat)
    requires IsRun(states, labels) && i < |states|
    requires w in states[i].jobs && states[i].jobs[w].phase.Cleared?
    ensures k < i && ClearedAt(states, labels, k, w, states[i].jobs[w])
  {
    assert i > 0;
    var s, l := states[i - 1], labels[i - 1];
    assert states[i] == Next(s, l);
    if l == Read(w) {
      k := i - 1;
    } else {
      assert w in s.jobs && s.jobs[w] == states[i].jobs[w];
      k := ClearedFollowsRead(states, labels, i - 1, w);
    }
  }

  // Every mail is queued by a worker that, in the same attempt, has read the appointment it is
  // about as booked and still to come.
  lemma MailFollowsClearance(states: seq<State>, labels: seq<Label>, i: nat, w: Worker) returns (k: nat)
    requires IsRun(states, labels) && i < |labels| && labels[i] == Enqueue(w, true)
    ensures k < i && w in states[i].jobs && ClearedAt(states, labels, k, w, states[i].jobs[w])
    ensures var j := states[i].jobs[w]; j.row in states[i].rows ==> states[i].rows[j.row].appt == j.appt
    ensures states[i + 1].mails == states[i].mails + multiset{states[i].jobs[w].row}
  {
    assert Enabled(states[i], labels[i]) && states[i + 1] == Next(states[i], labels[i]);
    RunKeepsInv(states, labels, i);
    assert JobInv(states[i], w);
    k := ClearedFollowsRead(states, labels, i, w);
  }

  // When _finish commits and something raises after it, the handler takes the finished row on: with
  // attempts left it is planned again, at the third attempt it is failed, whatever it was before -
  // so it keeps its status exactly when it had failed for want of an address at the third attempt.
  lemma LateFaultReopens(s: State, w: Worker)
    requires Enabled(s, LateFault(w)) && s.jobs[w].row in s.rows
    ensures var r := s.jobs[w].row;
            var t := Next(s, LateFault(w));
            var l := if s.jobs[w].attempt < MAX_ATTEMPTS then Replan(w) else Finish(w, Giving);
            && t.rows[r].status.Terminal() && Enabled(t, l)
            && Next(t, l).rows[r].status == (if s.jobs[w].attempt < MAX_ATTEMPTS then Planned else Failed)
            && (Next(t, l).rows[r].status == t.rows[r].status
                <==> s.jobs[w].attempt >= MAX_ATTEMPTS && s.jobs[w].phase.NoAddress?)
  {}

  // ---------------------------------------------------------------- planning

  datatype Rule = Rule(key: string, before: int)

  datatype ReminderCfg = ReminderCfg(enabled: bool, rules: seq<Rule>, maxPerAppointment: nat, quiet: seq<RawRange>)

  // The INSERT plan_for_appointment attempts for one rule, if its time is still to come.
  function PlanOf(now: int, a: ApptId, startsAt: int, rule: Rule, cfg: ReminderCfg, offset: int): Option<Label> {
    var sendAt := startsAt - rule.before;
    if sendAt <= now then None else Some(Plan(a, rule.key, Shifted(sendAt, cfg.quiet, offset)))
  }

  function RulesUsed(cfg: ReminderCfg): seq<Rule> {
    if cfg.enabled then Take(cfg.rules, cfg.maxPerAppointment) else []
  }

  function PlanFirst(s: State, a: ApptId, startsAt: int, cfg: ReminderCfg, offset: int, n: nat): State
    requires n <= |RulesUsed(cfg)|
  {
    if n == 0 then s
    else
      var t := PlanFirst(s, a, startsAt, cfg, offset, n - 1);
      match PlanOf(s.now, a, startsAt, RulesUsed(cfg)[n - 1], cfg, offset)
      case None => t
      case Some(l) => Next(t, l)
  }

  lemma PlanStarts(s: State, a: ApptId, startsAt: int, cfg: ReminderCfg, offset: int)
    ensures PlanFirst(s, a, startsAt, cfg, offset, 0) == s
    ensures !cfg.enabled || cfg.rules == [] ==> RulesUsed(cfg) == []
  {
  }

  lemma PlanNext(s: State, a: ApptId, startsAt: int, cfg: ReminderCfg, offset: int, n: nat)
    requires n < |RulesUsed(cfg)|
    ensures var t := PlanFirst(s, a, startsAt, cfg, offset, n);
            var sendAt := startsAt - RulesUsed(cfg)[n].before;
            PlanFirst(s, a, startsAt, cfg, offset, n + 1)
            == if sendAt <= s.now then t
               else Next(t, Plan(a, RulesUsed(cfg)[n].key, Shifted(sendAt, cfg.quiet, offset)))
  {
    hide Shifted, Next;
  }

  lemma PlanAddsAtMostOne(s: State, a: ApptId, key: string, sendAt: int)
    ensures var t := Next(s, Plan(a, key, sendAt)); t.now == s.now && s.nextRow <= t.nextRow <= s.nextRow + 1
  {
  }

  function PlanAll(s: State, a: ApptId, startsAt: int, cfg: ReminderCfg, offset: int): State {
    PlanFirst(s, a, startsAt, cfg, offset, |RulesUsed(cfg)|)
  }

  // Once planned, a rule's row exists until its appointment is deleted.
  lemma PlannedRowStays(s: State, l: Label, a: ApptId, rule: string)
    requires Inv(s) && Enabled(s, l) && l != DropAppt(a) && Exists(s.rows, a, rule)
    ensures Exists(Next(s, l).rows, a, rule)
  {
    var r :| r in s.rows && s.rows[r].appt == a && s.rows[r].rule == rule;
    assert RowInv(s, r);
    assert r in Next(s, l).rows && Next(s, l).rows[r].appt == a && Next(s, l).rows[r].rule == rule;
  }

  // Every rule whose time is still to come at `now` has its row.
  ghost predicate AllPlanned(s: State, now: int, a: ApptId, startsAt: int, cfg: ReminderCfg, n: nat)
    requires n <= |RulesUsed(cfg)|
  {
    forall i :: 0 <= i < n && startsAt - RulesUsed(cfg)[i].before > now ==>
                  Exists(s.rows, a, Take(RulesUsed(cfg)[i].key, KEY_CHARS))
  }

  lemma {:induction false} PlanFirstPlans(s: State, a: ApptId, startsAt: int, cfg: ReminderCfg, offset: int, n: nat)
    requires Inv(s) && a in s.appts && n <= |RulesUsed(cfg)|
    ensures var t := PlanFirst(s, a, startsAt, cfg, offset, n);
            Inv(t) && t.appts == s.appts && t.now == s.now && AllPlanned(t, s.now, a, startsAt, cfg, n)
  {
    hide Inv, Take, Shifted;
    if n > 0 {
      PlanFirstPlans(s, a, startsAt, cfg, offset, n - 1);
      var t := PlanFirst(s, a, startsAt, cfg, offset, n - 1);
      var rule := RulesUsed(cfg)[n - 1];
      if startsAt - rule.before > s.now {
        var l := Plan(a, rule.key, Shifted(startsAt - rule.before, cfg.quiet, offset));
        StepKeepsInv(t, l);
        forall i | 0 <= i < n - 1 && startsAt - RulesUsed(cfg)[i].before > s.now
          ensures Exists(Next(t, l).rows, a, Take(RulesUsed(cfg)[i].key, KEY_CHARS))
        {
          PlannedRowStays(t, l, a, Take(RulesUsed(cfg)[i].key, KEY_CHARS));
        }
        PlanMakesRow(t, l.a, l.key, l.sendAt);
      }
    }
  }

  lemma PlanMakesRow(s: State, a: ApptId, key: string, sendAt: int)
    requires a in s.appts
    ensures Exists(Next(s, Plan(a, key, sendAt)).rows, a, Take(key, KEY_CHARS))
  {
    if !Exists(s.rows, a, Take(key, KEY_CHARS)) {
      assert s.nextRow in Next(s, Plan(a, key, sendAt)).rows;
    }
  }

  lemma {:induction false} PlanFirstIsIdle(s: State, a: ApptId, startsAt: int, cfg: ReminderCfg, offset: int, n: nat)
    requires n <= |RulesUsed(cfg)| && AllPlanned(s, s.now, a, startsAt, cfg, n)
    ensures PlanFirst(s, a, startsAt, cfg, offset, n) == s
  {
    hide Take, Shifted;
    if n > 0 {
      PlanFirstIsIdle(s, a, startsAt, cfg, offset, n - 1);
    }
  }

  lemma {:induction false} AllPlannedStays(states: seq<State>, labels: seq<Label>, i: nat, j: nat, a: ApptId,
                                           startsAt: int, cfg: ReminderCfg, n: nat)
    requires IsRun(states, labels) && i <= j < |states| && n <= |RulesUsed(cfg)|
    requires forall k :: i <= k < j ==> labels[k] != DropAppt(a)
    requires AllPlanned(states[i], states[i].now, a, startsAt, cfg, n)
    ensures AllPlanned(states[j], states[j].now, a, startsAt, cfg, n)
    decreases j
  {
    hide Inv, Take, Exists;
    if i < j {
      AllPlannedStays(states, labels, i, j - 1, a, startsAt, cfg, n);
      RunKeepsInv(states, labels, j - 1);
      var s, l := states[j - 1], labels[j - 1];
      assert s.now <= states[j].now;
      hide Next;
      forall k | 0 <= k < n && startsAt - RulesUsed(cfg)[k].before > states[j].now
        ensures Exists(states[j].rows, a, Take(RulesUsed(cfg)[k].key, KEY_CHARS))
      {
        PlannedRowStays(s, l, a, Take(RulesUsed(cfg)[k].key, KEY_CHARS));
      }
    }
  }

  // Planning is safe to repeat: after any run from a completed planning, as long as the
  // appointment is not deleted, planning again changes nothing - sent, failed and cancelled
  // reminders included.
  lemma PlanningAgainIsIdle(states: seq<State>, labels: seq<Label>, i: nat, j: nat, before: State, a: ApptId,
                            startsAt: int, cfg: ReminderCfg, offset: int)
    requires IsRun(states, labels) && i <= j < |states|
    requires Inv(before) && a in before.appts && states[i] == PlanAll(before, a, startsAt, cfg, offset)
    requires forall k :: i <= k < j ==> labels[k] != DropAppt(a)
    ensures PlanAll(states[j], a, startsAt, cfg, offset) == states[j]
  {
    hide Inv, Next, PlanFirst;
    PlanFirstPlans(before, a, startsAt, cfg, offset, |RulesUsed(cfg)|);
    AllPlannedStays(states, labels, i, j, a, startsAt, cfg, |RulesUsed(cfg)|);
    PlanFirstIsIdle(states[j], a, startsAt, cfg, offset, |RulesUsed(cfg)|);
  }
}
