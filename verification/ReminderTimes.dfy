// When and why the rows of the reminder protocol change (app/services/reminders.py:63-238), over all
// runs, faults included: no reminder is claimed early, a cancelled one is never mailed, and a row is
// finished for the reason its status gives.
module ReminderTimes {
  import opened Prelude
  import opened QuietHours
  import opened Reminders

  predicate Unheld(s: State, r: RowId) {
    forall w :: w in s.jobs ==> s.jobs[w].row != r
  }

  // ---------------------------------------------------------------- never early

  // It is not yet t, nobody has row r in hand, and the row is not due before t - or t has come.
  ghost predicate Waits(s: State, r: RowId, t: int) {
    r < s.nextRow && (s.now >= t || (Unheld(s, r) && (r in s.rows ==> s.rows[r].sendAt >= t)))
  }

  lemma StepKeepsWaiting(s: State, l: Label, r: RowId, t: int)
    requires Waits(s, r, t) && Enabled(s, l)
    ensures Waits(Next(s, l), r, t)
    ensures l.Claim? && l.r == r ==> s.now >= t
  {
  }

  lemma {:induction false} RunKeepsWaiting(states: seq<State>, labels: seq<Label>, i: nat, j: nat, r: RowId, t: int)
    requires IsRun(states, labels) && i <= j < |states| && Waits(states[i], r, t)
    ensures Waits(states[j], r, t)
    decreases j
  {
    hide Next, Waits;
    if i < j {
      RunKeepsWaiting(states, labels, i, j - 1, r, t);
      RunStep(states, labels, j - 1);
      StepKeepsWaiting(states[j - 1], labels[j - 1], r, t);
    }
  }

  // Step i makes a row for the rule key, to be sent at t.
  ghost predicate Makes(states: seq<State>, labels: seq<Label>, i: nat, a: ApptId, key: string, t: int, r: RowId) {
    && i < |labels| && |states| == |labels| + 1
    && labels[i] == Plan(a, key, t) && r == states[i].nextRow && states[i + 1].nextRow == r + 1
  }

  lemma NewRowIsUnheld(s: State)
    requires Inv(s)
    ensures Unheld(s, s.nextRow)
  {
    forall w | w in s.jobs ensures s.jobs[w].row != s.nextRow {
      assert JobInv(s, w);
    }
  }

  // Main result: a reminder planned for t is never claimed before t, in any run.
  lemma NeverEarly(states: seq<State>, labels: seq<Label>, i: nat, j: nat, a: ApptId, key: string, t: int, r: RowId,
                   w: Worker)
    requires IsRun(states, labels) && Makes(states, labels, i, a, key, t, r)
    requires i < j < |labels| && labels[j] == Claim(w, r)
    ensures states[j].now >= t
  {
    hide Inv;
    RunKeepsInv(states, labels, i);
    NewRowIsUnheld(states[i]);
    RunStep(states, labels, i);
    RunKeepsWaiting(states, labels, i + 1, j, r, t);
    RunStep(states, labels, j);
    StepKeepsWaiting(states[j], labels[j], r, t);
  }

  // And a row put back at time u is not claimed again before ten minutes are over.
  lemma NotAgainBefore(states: seq<State>, labels: seq<Label>, i: nat, j: nat, v: Worker, w: Worker, r: RowId)
    requires IsRun(states, labels) && i < j < |labels| && labels[i] == Replan(v) && labels[j] == Claim(w, r)
    requires v in states[i].jobs && states[i].jobs[v].row == r
    ensures states[j].now >= states[i].now + 600_000_000
  {
    hide Next, Inv;
    RunKeepsInv(states, labels, i);
    RunStep(states, labels, i);
    ReplanWaits(states[i], v);
    RunKeepsWaiting(states, labels, i + 1, j, r, states[i].now + 600_000_000);
    RunStep(states, labels, j);
    StepKeepsWaiting(states[j], labels[j], r, states[i].now + 600_000_000);
  }

  lemma ReplanWaits(s: State, w: Worker)
    requires Inv(s) && Enabled(s, Replan(w))
    ensures Waits(Next(s, Replan(w)), s.jobs[w].row, s.now + 600_000_000)
  {
    assert JobInv(s, w);
  }

  // ---------------------------------------------------------------- until it is claimed

  // Row r is as it was planned; only a cancellation may have touched it.
  ghost predicate AsPlanned(s: State, r: RowId, a: ApptId, rule: string, t: int) {
    && r < s.nextRow && s.claims[r] == 0 && Unheld(s, r)
    && (r in s.rows ==> s.rows[r] == Row(a, rule, t, Planned, 0) || s.rows[r] == Row(a, rule, t, Cancelled, 0))
  }

  lemma StepKeepsPlanned(s: State, l: Label, r: RowId, a: ApptId, rule: string, t: int)
    requires AsPlanned(s, r, a, rule, t) && Enabled(s, l)
    ensures Next(s, l).claims[r] >= s.claims[r]
    ensures Next(s, l).claims[r] == 0 ==> AsPlanned(Next(s, l), r, a, rule, t)
  {
  }

  lemma ClaimsGrow(s: State, l: Label, r: RowId)
    requires Enabled(s, l)
    ensures Next(s, l).claims[r] >= s.claims[r]
  {
  }

  lemma {:induction false} RunKeepsPlanned(states: seq<State>, labels: seq<Label>, i: nat, j: nat, r: RowId, a: ApptId,
                                           rule: string, t: int)
    requires IsRun(states, labels) && i <= j < |states| && AsPlanned(states[i], r, a, rule, t)
    requires states[j].claims[r] == 0
    ensures AsPlanned(states[j], r, a, rule, t)
    decreases j
  {
    hide Next, AsPlanned;
    if i < j {
      RunStep(states, labels, j - 1);
      ClaimsGrow(states[j - 1], labels[j - 1], r);
      RunKeepsPlanned(states, labels, i, j - 1, r, a, rule, t);
      StepKeepsPlanned(states[j - 1], labels[j - 1], r, a, rule, t);
    }
  }

  // The first 48 characters of a rule key.
  ghost predicate IsCut(rule: string, key: string) {
    rule <= key && |rule| <= 48 && (|rule| < 48 ==> rule == key)
  }

  lemma TakeIsCut(key: string)
    ensures IsCut(Take(key, KEY_CHARS), key)
  {
  }

  lemma PlanMakes(s: State, a: ApptId, key: string, t: int)
    requires Inv(s) && Next(s, Plan(a, key, t)).nextRow == s.nextRow + 1
    ensures var u := Next(s, Plan(a, key, t));
            s.nextRow in u.rows && AsPlanned(u, s.nextRow, a, Take(key, KEY_CHARS), t)
  {
    NewRowIsUnheld(s);
    assert HistoryInv(s, s.nextRow);
  }

  // Until it is claimed, a planned row holds what was planned - its appointment, the first 48
  // characters of its key, its time - so from that time on, unless cancelled, it may be claimed.
  lemma PlannedUntilClaimed(states: seq<State>, labels: seq<Label>, i: nat, j: nat, a: ApptId, key: string, t: int,
                            r: RowId)
    requires IsRun(states, labels) && Makes(states, labels, i, a, key, t, r)
    requires i < j < |states| && states[j].claims[r] == 0 && r in states[j].rows
    ensures var row := states[j].rows[r];
            && row.appt == a && IsCut(row.rule, key) && row.sendAt == t && row.attempts == 0
            && (row.status.Planned? || row.status.Cancelled?)
            && (row.status.Planned? && states[j].now >= t ==>
                  forall w :: w !in states[j].jobs ==> Enabled(states[j], Claim(w, r)))
  {
    hide Inv, Next, Take;
    RunKeepsInv(states, labels, i);
    RunStep(states, labels, i);
    PlanMakes(states[i], a, key, t);
    TakeIsCut(key);
    RunKeepsPlanned(states, labels, i + 1, j, r, a, Take(key, KEY_CHARS), t);
  }

  // ---------------------------------------------------------------- cancelling

  // A cancelled row in nobody's hand is settled: no step of any run changes it.
  ghost predicate Settled(s: State, r: RowId) {
    r < s.nextRow && Unheld(s, r) && (r in s.rows ==> s.rows[r].status.Cancelled?)
  }

  lemma StepKeepsSettled(s: State, l: Label, r: RowId)
    requires Settled(s, r) && Enabled(s, l)
    ensures var t := Next(s, l);
            && Settled(t, r) && t.claims[r] == s.claims[r] && t.mails[r] == s.mails[r]
            && (r in t.rows ==> r in s.rows && t.rows[r] == s.rows[r])
  {
  }

  lemma {:induction false} SettledStays(states: seq<State>, labels: seq<Label>, i: nat, j: nat, r: RowId)
    requires IsRun(states, labels) && i <= j < |states| && Settled(states[i], r)
    ensures Settled(states[j], r)
    ensures states[j].claims[r] == states[i].claims[r] && states[j].mails[r] == states[i].mails[r]
    decreases j
  {
    hide Next, Settled;
    if i < j {
      SettledStays(states, labels, i, j - 1, r);
      RunStep(states, labels, j - 1);
      StepKeepsSettled(states[j - 1], labels[j - 1], r);
    }
  }

  // What cancelling an appointment does: its planned reminders, and nothing else, become cancelled.
  lemma CancelChanges(s: State, a: ApptId, r: RowId)
    requires r in s.rows
    ensures var t := Next(s, Cancel(a));
            && r in t.rows && t.jobs == s.jobs && t.appts == s.appts
            && t.rows[r].appt == s.rows[r].appt && t.rows[r].rule == s.rows[r].rule
            && t.rows[r].sendAt == s.rows[r].sendAt && t.rows[r].attempts == s.rows[r].attempts
            && (s.rows[r].appt == a && s.rows[r].status.Planned? ==> t.rows[r].status.Cancelled?)
            && (s.rows[r].appt != a || !s.rows[r].status.Planned? ==> t.rows[r] == s.rows[r])
  {
  }

  lemma PlannedIsUnheld(s: State, r: RowId)
    requires Inv(s) && r in s.rows && s.rows[r].status.Planned?
    ensures r < s.nextRow && Unheld(s, r)
  {
    assert RowInv(s, r);
    forall w | w in s.jobs ensures s.jobs[w].row != r {
      assert JobInv(s, w);
    }
  }

  // Main result: a reminder that was still planned when its appointment was cancelled is never claimed
  // or mailed after that, in any run, late faults included.
  lemma CancelledIsNeverMailed(states: seq<State>, labels: seq<Label>, i: nat, j: nat, a: ApptId, r: RowId)
    requires IsRun(states, labels) && i < j < |states| && labels[i] == Cancel(a)
    requires r in states[i].rows && states[i].rows[r].appt == a && states[i].rows[r].status.Planned?
    ensures states[j].claims[r] == states[i].claims[r] && states[j].mails[r] == states[i].mails[r]
    ensures r in states[j].rows ==> states[j].rows[r].status.Cancelled?
  {
    hide Inv;
    RunKeepsInv(states, labels, i);
    RunStep(states, labels, i);
    PlannedIsUnheld(states[i], r);
    CancelChanges(states[i], a, r);
    SettledStays(states, labels, i + 1, j, r);
  }

  // ---------------------------------------------------------------- rows and appointments

  ghost predicate HasAppts(s: State) {
    forall r :: r in s.rows ==> s.rows[r].appt in s.appts
  }

  // No row outlives its appointment, and only the deletion of its appointment removes a row.
  lemma {:induction false} RowsHaveAppts(states: seq<State>, labels: seq<Label>, i: nat)
    requires IsRun(states, labels) && i < |states|
    ensures HasAppts(states[i])
    ensures i > 0 ==> forall r :: r in states[i - 1].rows && labels[i - 1] != DropAppt(states[i - 1].rows[r].appt) ==>
                        r in states[i].rows && states[i].rows[r].appt == states[i - 1].rows[r].appt
  {
    hide Inv;
    if i > 0 {
      RowsHaveAppts(states, labels, i - 1);
      RunKeepsInv(states, labels, i - 1);
      RunStep(states, labels, i - 1);
      StepKeepsAppts(states[i - 1], labels[i - 1]);
    }
  }

  // Booking, rescheduling and deleting an appointment: it is what it was set to, or gone with its rows,
  // and everything else stays.
  lemma ApptChanges(s: State, a: ApptId, appt: Appt)
    ensures var t := Next(s, PutAppt(a, appt));
            t == s.(appts := t.appts) && a in t.appts && t.appts[a] == appt
            && forall b :: b != a ==> (b in t.appts <==> b in s.appts) && (b in s.appts ==> t.appts[b] == s.appts[b])
    ensures var t := Next(s, DropAppt(a));
            && t == s.(appts := t.appts, rows := t.rows) && a !in t.appts
            && (forall b :: b != a ==> (b in t.appts <==> b in s.appts) && (b in s.appts ==> t.appts[b] == s.appts[b]))
            && (forall r :: r in t.rows <==> r in s.rows && s.rows[r].appt != a)
            && (forall r :: r in t.rows ==> t.rows[r] == s.rows[r])
  {
  }

  lemma StepKeepsAppts(s: State, l: Label)
    requires Inv(s) && Enabled(s, l) && HasAppts(s)
    ensures HasAppts(Next(s, l))
    ensures forall r :: r in s.rows && l != DropAppt(s.rows[r].appt) ==>
              r in Next(s, l).rows && Next(s, l).rows[r].appt == s.rows[r].appt
  {
    forall r | r in s.rows ensures r < s.nextRow {
      assert RowInv(s, r);
    }
  }

  // ---------------------------------------------------------------- why a row is finished

  // Step k is what brought worker w, with this row, attempt and appointment, into the phase.
  ghost predicate Reason(s: State, l: Label, w: Worker, work: Work) {
    && w in s.jobs && s.jobs[w].row == work.row && s.jobs[w].attempt == work.attempt && s.jobs[w].appt == work.appt
    && match work.phase
       case Refused =>
         l == Read(w) && !(work.appt in s.appts && s.appts[work.appt].booked && s.appts[work.appt].startsAt > s.now)
       case Cleared =>
         l == Read(w) && work.appt in s.appts && s.appts[work.appt].booked && s.appts[work.appt].startsAt > s.now
       case Mailed => l == Enqueue(w, true)
       case NoAddress => l == Enqueue(w, false)
       case Giving => (l == Fault(w) || l == LateFault(w)) && work.attempt >= 3
       case Retrying => (l == Fault(w) || l == LateFault(w)) && work.attempt < 3
       case Claimed => false
  }

  lemma StepHasReason(s: State, l: Label, w: Worker)
    requires Enabled(s, l) && w in Next(s, l).jobs && !Next(s, l).jobs[w].phase.Claimed?
    ensures Reason(s, l, w, Next(s, l).jobs[w]) || (w in s.jobs && s.jobs[w] == Next(s, l).jobs[w])
  {
    hide SetStatus, FinalStatus, Exists, Take, WithFault, ClaimRow;
    if !OwnStep(l, w) {
      OtherWorkerStays(s, l, w);
    }
  }

  predicate OwnStep(l: Label, w: Worker) {
    match l
    case Read(v) => v == w
    case Enqueue(v, _) => v == w
    case Fault(v) => v == w
    case LateFault(v) => v == w
    case _ => false
  }

  lemma OtherWorkerStays(s: State, l: Label, w: Worker)
    requires Enabled(s, l) && !OwnStep(l, w) && w in Next(s, l).jobs && !Next(s, l).jobs[w].phase.Claimed?
    ensures w in s.jobs && s.jobs[w] == Next(s, l).jobs[w]
  {
    hide SetStatus, FinalStatus, Exists, Take, WithFault, ClaimRow, Handler;
  }

  // Every worker past the claim is there for a reason that some earlier step of the attempt gave.
  lemma {:induction false} PhaseHasReason(states: seq<State>, labels: seq<Label>, i: nat, w: Worker) returns (k: nat)
    requires IsRun(states, labels) && i < |states| && w in states[i].jobs && !states[i].jobs[w].phase.Claimed?
    ensures k < i && Reason(states[k], labels[k], w, states[i].jobs[w])
  {
    hide Next, Reason;
    assert i > 0;
    RunStep(states, labels, i - 1);
    StepHasReason(states[i - 1], labels[i - 1], w);
    if Reason(states[i - 1], labels[i - 1], w, states[i].jobs[w]) {
      k := i - 1;
    } else {
      k := PhaseHasReason(states, labels, i - 1, w);
    }
  }

  // The step that finishes row r with another status than it had.
  ghost predicate Finishes(s: State, t: State, r: RowId) {
    && r in s.rows && r in t.rows
    && (t.rows[r].status.Sent? || t.rows[r].status.Failed? || t.rows[r].status.Cancelled?)
    && t.rows[r].status != s.rows[r].status
  }

  lemma StepFinishes(s: State, l: Label, r: RowId)
    requires Enabled(s, l) && Finishes(s, Next(s, l), r) && r < s.nextRow
    ensures || (l == Cancel(s.rows[r].appt) && s.rows[r].status.Planned? && Next(s, l).rows[r].status.Cancelled?)
            || ((l.Finish? || l.LateFault?) && l.w in s.jobs && s.jobs[l.w].row == r
                && var p := s.jobs[l.w].phase;
                && !p.Claimed?
                && (Next(s, l).rows[r].status.Sent? ==> p.Mailed?)
                && (Next(s, l).rows[r].status.Cancelled? ==> p.Refused?)
                && (Next(s, l).rows[r].status.Failed? ==> p.NoAddress? || p.Giving?))
  {
  }

  // Main result: a row becomes sent only by a worker that queued its mail in that attempt; failed only
  // by one that found no address or was at its third attempt when it faulted; cancelled only while
  // planned, by a cancellation of its appointment, or by a worker that read the appointment as gone,
  // not booked or begun.
  lemma WhyFinished(states: seq<State>, labels: seq<Label>, i: nat, r: RowId) returns (k: nat, w: Worker)
    requires IsRun(states, labels) && i < |labels| && Finishes(states[i], states[i + 1], r)
    ensures || (labels[i] == Cancel(states[i].rows[r].appt) && states[i].rows[r].status.Planned?
                && states[i + 1].rows[r].status.Cancelled?)
            || (k < i && w in states[i].jobs && states[i].jobs[w].row == r
                && Reason(states[k], labels[k], w, states[i].jobs[w])
                && match states[i + 1].rows[r].status
                   case Sent => labels[k] == Enqueue(w, true)
                   case Failed => labels[k] == Enqueue(w, false)
                                  || (states[i].jobs[w].attempt >= 3
                                      && (labels[k] == Fault(w) || labels[k] == LateFault(w)))
                   case _ => labels[k] == Read(w) && states[i].jobs[w].phase.Refused?)
  {
    hide Inv, Next;
    k, w := 0, 0;
    RunKeepsInv(states, labels, i);
    RowIdIsOld(states[i], r);
    RunStep(states, labels, i);
    StepFinishes(states[i], labels[i], r);
    if labels[i] != Cancel(states[i].rows[r].appt) {
      w := labels[i].w;
      k := PhaseHasReason(states, labels, i, w);
    }
  }

  // ---------------------------------------------------------------- what planning plans

  // t is x moved on by the fewest whole hours, below 24, after which it is not quiet; or x itself when
  // all 24 hourly points are quiet.
  ghost predicate IsLeastShift(x: int, t: int, quiet: seq<RawRange>, offset: int) {
    || (exists h: nat :: h < 24 && t == HoursOn(x, h) && !QuietAt(t, quiet, offset)
                         && forall g: nat :: g < h ==> QuietAt(HoursOn(x, g), quiet, offset))
    || (t == x && forall g: nat :: g < 24 ==> QuietAt(HoursOn(x, g), quiet, offset))
  }

  function HoursOn(x: int, h: nat): int {
    x + h * 3_600_000_000
  }

  lemma ShiftedIsLeast(x: int, quiet: seq<RawRange>, offset: int)
    ensures IsLeastShift(x, Shifted(x, quiet, offset), quiet, offset)
  {
    hide QuietAt, Shifted;
    ShiftIsLeast(x, quiet, offset);
    var t := Shifted(x, quiet, offset);
    forall h: nat ensures HoursOn(x, h) == x + h * HOUR {
    }
    if QuietAt(t, quiet, offset) {
      forall g: nat | g < 24 ensures QuietAt(HoursOn(x, g), quiet, offset) {
        assert QuietAt(x + g * HOUR, quiet, offset);
      }
    } else {
      var h: nat :| h < 24 && t == x + h * HOUR && QuietFor(x, quiet, offset, h);
      forall g: nat | g < h ensures QuietAt(HoursOn(x, g), quiet, offset) {
        assert QuietAt(x + g * HOUR, quiet, offset);
      }
      assert t == HoursOn(x, h);
    }
  }

  // Of the first n rules, the i-th is due, none due before it has the same first 48 characters, and the
  // row is the one it asks for.
  ghost predicate PlannedBy(now: int, row: Row, a: ApptId, startsAt: int, cfg: ReminderCfg, offset: int, n: nat,
                            i: nat) {
    && i < n && cfg.enabled && i < |cfg.rules| && i < cfg.maxPerAppointment
    && startsAt - cfg.rules[i].before > now
    && row.appt == a && IsCut(row.rule, cfg.rules[i].key) && row.status.Planned? && row.attempts == 0
    && IsLeastShift(startsAt - cfg.rules[i].before, row.sendAt, cfg.quiet, offset)
    && forall j :: 0 <= j < i && startsAt - cfg.rules[j].before > now ==> !IsCut(row.rule, cfg.rules[j].key)
  }

  ghost predicate AskedFor(now: int, row: Row, a: ApptId, startsAt: int, cfg: ReminderCfg, offset: int, n: nat) {
    exists i: nat :: PlannedBy(now, row, a, startsAt, cfg, offset, n, i)
  }

  // The rows of t are those of s, and new ones that the rules ask for.
  ghost predicate PlannedRows(s: State, t: State, a: ApptId, startsAt: int, cfg: ReminderCfg, offset: int, n: nat) {
    && (forall r :: r in s.rows ==> r in t.rows && t.rows[r] == s.rows[r])
    && (forall r :: r in t.rows && r !in s.rows ==> AskedFor(s.now, t.rows[r], a, startsAt, cfg, offset, n))
  }

  lemma UsedRule(cfg: ReminderCfg, i: nat)
    requires i < |RulesUsed(cfg)|
    ensures cfg.enabled && i < |cfg.rules| && i < cfg.maxPerAppointment && RulesUsed(cfg)[i] == cfg.rules[i]
  {
  }

  lemma OneCut(key: string, rule: string)
    ensures IsCut(rule, key) ==> rule == Take(key, KEY_CHARS)
  {
  }

  lemma OneMorePlanned(now: int, row: Row, a: ApptId, startsAt: int, cfg: ReminderCfg, offset: int, n: nat)
    requires AskedFor(now, row, a, startsAt, cfg, offset, n)
    ensures AskedFor(now, row, a, startsAt, cfg, offset, n + 1)
  {
    var i: nat :| PlannedBy(now, row, a, startsAt, cfg, offset, n, i);
    assert PlannedBy(now, row, a, startsAt, cfg, offset, n + 1, i);
  }

  // The row a due rule makes, when the rules before it have had their turn and its key is still free.
  lemma RuleMakesRow(s: State, t: State, a: ApptId, startsAt: int, cfg: ReminderCfg, offset: int, n: nat)
    requires n < |RulesUsed(cfg)| && startsAt - RulesUsed(cfg)[n].before > s.now
    requires AllPlanned(t, s.now, a, startsAt, cfg, n) && !Exists(t.rows, a, Take(RulesUsed(cfg)[n].key, KEY_CHARS))
    ensures var rule := RulesUsed(cfg)[n];
            var sendAt := Shifted(startsAt - rule.before, cfg.quiet, offset);
            PlannedBy(s.now, Row(a, Take(rule.key, KEY_CHARS), sendAt, Planned, 0), a, startsAt, cfg, offset, n + 1, n)
  {
    hide Exists, Take, Shifted, IsLeastShift, IsCut;
    var rule := RulesUsed(cfg)[n];
    UsedRule(cfg, n);
    TakeIsCut(rule.key);
    ShiftedIsLeast(startsAt - rule.before, cfg.quiet, offset);
    forall j | 0 <= j < n && startsAt - cfg.rules[j].before > s.now
      ensures !IsCut(Take(rule.key, KEY_CHARS), cfg.rules[j].key)
    {
      UsedRule(cfg, j);
      OneCut(cfg.rules[j].key, Take(rule.key, KEY_CHARS));
    }
  }

  // What one INSERT changes of the table.
  lemma InsertedRow(t: State, a: ApptId, key: string, sendAt: int)
    requires Inv(t) && a in t.appts
    ensures var u := Next(t, Plan(a, key, sendAt));
            if Exists(t.rows, a, Take(key, KEY_CHARS)) then u.rows == t.rows
            else t.nextRow !in t.rows
                 && u.rows == t.rows[t.nextRow := Row(a, Take(key, KEY_CHARS), sendAt, Planned, 0)]
  {
    if t.nextRow in t.rows {
      RowIdIsOld(t, t.nextRow);
    }
    hide Inv, Take, Exists;
  }

  // Main result: planning, left alone, adds exactly the rows the configured rules ask for, each for the
  // least open hour from its time on, and leaves every other row as it was.
  lemma {:induction false} PlanningPlans(s: State, a: ApptId, startsAt: int, cfg: ReminderCfg, offset: int, n: nat)
    requires Inv(s) && a in s.appts && n <= |RulesUsed(cfg)|
    ensures PlannedRows(s, PlanFirst(s, a, startsAt, cfg, offset, n), a, startsAt, cfg, offset, n)
    ensures AllPlanned(PlanFirst(s, a, startsAt, cfg, offset, n), s.now, a, startsAt, cfg, n)
  {
    hide Inv, Take, Shifted, Next, PlanFirst, PlannedBy, Exists, AllPlanned;
    PlanStarts(s, a, startsAt, cfg, offset);
    PlanFirstPlans(s, a, startsAt, cfg, offset, n);
    if n > 0 {
      PlanningPlans(s, a, startsAt, cfg, offset, n - 1);
      PlanNext(s, a, startsAt, cfg, offset, n - 1);
      PlanFirstPlans(s, a, startsAt, cfg, offset, n - 1);
      var t, u := PlanFirst(s, a, startsAt, cfg, offset, n - 1), PlanFirst(s, a, startsAt, cfg, offset, n);
      var rule := RulesUsed(cfg)[n - 1];
      if startsAt - rule.before > s.now {
        InsertedRow(t, a, rule.key, Shifted(startsAt - rule.before, cfg.quiet, offset));
        if !Exists(t.rows, a, Take(rule.key, KEY_CHARS)) {
          RuleMakesRow(s, t, a, startsAt, cfg, offset, n - 1);
        }
      }
      forall r | r in u.rows && r !in s.rows
        ensures AskedFor(s.now, u.rows[r], a, startsAt, cfg, offset, n)
      {
        if r in t.rows {
          OneMorePlanned(s.now, t.rows[r], a, startsAt, cfg, offset, n - 1);
        }
      }
    }
  }
}
