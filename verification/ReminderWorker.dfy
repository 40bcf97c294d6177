// The reminder code as it runs (app/services/reminders.py): plan_for_appointment and send_due,
// statement by statement, against a database that other workers and requests keep changing.
module ReminderWorker {
  import opened Prelude
  import opened Reminders
  import opened ReminderTimes
  import opened QuietHours

  // What the worker cannot foresee: the transactions the rest of the system commits before its
  // n-th own one, whether its n-th step raises, before its transaction commits or after, and whether
  // an address is usable.
  datatype World = World(others: nat -> seq<Label>, raises: nat -> bool, raisesLate: nat -> bool,
                         hasRecipient: nat -> bool)

  // Nobody else is about, and nothing raises.
  ghost predicate Quiet(world: World) {
    forall n :: world.others(n) == [] && !world.raises(n) && !world.raisesLate(n)
  }

  // Nothing raises.
  ghost predicate NeverRaises(world: World) {
    forall n :: !world.raises(n) && !world.raisesLate(n)
  }

  // The steps lead from s to t, each enabled where it is taken.
  ghost predicate Executes(s: State, steps: seq<Label>, t: State)
    decreases |steps|
  {
    if steps == [] then s == t
    else
      var n := |steps| - 1;
      exists mid :: Executes(s, steps[..n], mid) && Enabled(mid, steps[n]) && t == Next(mid, steps[n])
  }

  lemma ExecutesOneMore(s: State, steps: seq<Label>, t: State, l: Label)
    requires Executes(s, steps, t) && Enabled(t, l)
    ensures Executes(s, steps + [l], Next(t, l))
  {
    assert (steps + [l])[..|steps|] == steps;
  }

  lemma NothingExecutes(s: State)
    ensures Executes(s, [], s)
  {
  }

  // A sequence of steps from an initial state is a run of the protocol.
  lemma {:induction false} ExecutionIsRun(s: State, steps: seq<Label>, t: State) returns (states: seq<State>)
    requires Initial(s) && Executes(s, steps, t)
    ensures IsRun(states, steps) && states[|steps|] == t
    decreases |steps|
  {
    hide Next, Enabled;
    if steps == [] {
      states := [s];
    } else {
      var n := |steps| - 1;
      var mid :| Executes(s, steps[..n], mid) && Enabled(mid, steps[n]) && t == Next(mid, steps[n]);
      var prefix := ExecutionIsRun(s, steps[..n], mid);
      states := prefix + [t];
      assert steps == steps[..n] + [steps[n]];
      forall i | 0 <= i < |steps|
        ensures Enabled(states[i], steps[i]) && states[i + 1] == Next(states[i], steps[i])
      {
        if i < n {
          assert steps[i] == steps[..n][i];
        }
      }
    }
  }

  // What no run takes away short of deleting the appointment: the appointment, and the rows planned for
  // it, whatever becomes of them.
  ghost predicate Spared(s: State, t: State, a: ApptId) {
    && (a in s.appts ==> a in t.appts)
    && forall rule :: Exists(s.rows, a, rule) ==> Exists(t.rows, a, rule)
  }

  lemma {:induction false} ExecutionSpares(s: State, steps: seq<Label>, t: State, a: ApptId)
    requires Inv(s) && Executes(s, steps, t)
    ensures Inv(t) && s.nextRow <= t.nextRow && (DropAppt(a) in steps || Spared(s, t, a))
    decreases |steps|
  {
    hide Inv, Next, Enabled, Exists;
    if steps != [] {
      var n := |steps| - 1;
      var mid :| Executes(s, steps[..n], mid) && Enabled(mid, steps[n]) && t == Next(mid, steps[n]);
      ExecutionSpares(s, steps[..n], mid, a);
      StepKeepsInv(mid, steps[n]);
      StepSpares(mid, steps[n], a);
    }
  }

  lemma StepSpares(s: State, l: Label, a: ApptId)
    requires Inv(s) && Enabled(s, l)
    ensures s.nextRow <= Next(s, l).nextRow && (l == DropAppt(a) || Spared(s, Next(s, l), a))
  {
    hide Inv, Exists;
    if l != DropAppt(a) {
      forall rule | Exists(s.rows, a, rule) ensures Exists(Next(s, l).rows, a, rule) {
        PlannedRowStays(s, l, a, rule);
      }
    }
  }

  // A step that is not worker w's own.
  predicate Foreign(l: Label, w: Worker) {
    match l
    case Claim(v, _) => v != w
    case Read(v) => v != w
    case Enqueue(v, _) => v != w
    case Finish(v, _) => v != w
    case Fault(v) => v != w
    case Replan(v) => v != w
    case Crash(v) => v != w
    case LateFault(v) => v != w
    case _ => true
  }

  lemma ForeignLeavesWork(s: State, l: Label, w: Worker)
    requires Enabled(s, l) && Foreign(l, w)
    ensures w in s.jobs <==> w in Next(s, l).jobs
    ensures w in s.jobs ==> Next(s, l).jobs[w] == s.jobs[w]
  {}

  // Worker w's own steps in a log, by what they mean for send_due.
  datatype Score = Score(claims: nat, sent: nat, cancelled: nat, failed: nat, skipped: nat, replanned: nat)

  ghost function AddStep(score: Score, l: Label): Score {
    match l
    case Claim(_, _) => score.(claims := score.claims + 1)
    case Finish(_, Mailed) => score.(sent := score.sent + 1)
    case Finish(_, Refused) => score.(cancelled := score.cancelled + 1)
    case Finish(_, Giving) => score.(failed := score.failed + 1)
    case Finish(_, NoAddress) => score.(skipped := score.skipped + 1)
    case Replan(_) => score.(replanned := score.replanned + 1)
    case _ => score
  }

  ghost function ScoreOf(log: seq<Label>, w: Worker): Score {
    if log == [] then Score(0, 0, 0, 0, 0, 0)
    else
      var n := |log| - 1;
      if Foreign(log[n], w) then ScoreOf(log[..n], w) else AddStep(ScoreOf(log[..n], w), log[n])
  }

  lemma ScoreOneMore(log: seq<Label>, l: Label, w: Worker)
    ensures ScoreOf(log + [l], w) == if Foreign(l, w) then ScoreOf(log, w) else AddStep(ScoreOf(log, w), l)
  {
    assert (log + [l])[..|log|] == log;
  }

  predicate IsDue(s: State, r: RowId) {
    r in s.rows && s.rows[r].status.Planned? && s.rows[r].sendAt <= s.now
  }

  // The database connection of worker w. `log` is history: every step committed since `origin`.
  class Database {
    const w: Worker
    var s: State
    var calls: nat
    ghost const origin: State
    ghost var log: seq<Label>

    ghost predicate Valid()
      reads this
    {
      Executes(origin, log, s)
    }

    constructor (w: Worker, s: State)
      ensures Valid() && this.w == w && this.s == s && origin == s && log == []
    {
      this.w, this.s, this.calls := w, s, 0;
      this.origin, this.log := s, [];
    }

    method Commit(l: Label)
      requires Valid() && Enabled(s, l)
      modifies this`s, this`log
      ensures Valid() && s == Next(old(s), l) && log == old(log) + [l]
      ensures ScoreOf(log, w) == if Foreign(l, w) then ScoreOf(old(log), w) else AddStep(ScoreOf(old(log), w), l)
    {
      ExecutesOneMore(origin, log, s, l);
      ScoreOneMore(log, l, w);
      s, log := Next(s, l), log + [l];
    }

    // What the rest of the system does until our next step; steps not enabled are skipped.
    method Interfere(world: World) returns (ghost steps: seq<Label>)
      requires Valid()
      modifies this
      ensures Valid() && ScoreOf(log, w) == ScoreOf(old(log), w)
      ensures log == old(log) + steps && Executes(old(s), steps, s)
      ensures world.others(old(calls)) == [] ==> steps == [] && s == old(s)
      ensures calls == old(calls) + 1
      ensures w in s.jobs <==> w in old(s).jobs
      ensures w in s.jobs ==> s.jobs[w] == old(s).jobs[w]
    {
      hide Next, Enabled, Foreign, Executes, ScoreOf;
      var others := world.others(calls);
      calls := calls + 1;
      steps := [];
      NothingExecutes(s);
      for i := 0 to |others|
        invariant Valid() && ScoreOf(log, w) == ScoreOf(old(log), w)
        invariant log == old(log) + steps && Executes(old(s), steps, s)
        invariant i == 0 ==> steps == [] && s == old(s)
        invariant calls == old(calls) + 1
        invariant w in s.jobs <==> w in old(s).jobs
        invariant w in s.jobs ==> s.jobs[w] == old(s).jobs[w]
      {
        if Enabled(s, others[i]) && Foreign(others[i], w) {
          ForeignLeavesWork(s, others[i], w);
          ExecutesOneMore(old(s), steps, s, others[i]);
          Commit(others[i]);
          steps := steps + [others[i]];
        }
      }
    }

    // The row the claim's subquery selects: due, planned, earliest send time first.
    method EarliestDue() returns (r: Option<RowId>)
      ensures r.None? ==> forall q :: q in s.rows ==> !IsDue(s, q)
      ensures r.Some? ==> IsDue(s, r.value)
      ensures r.Some? ==> forall q :: q in s.rows && IsDue(s, q) ==> s.rows[r.value].sendAt <= s.rows[q].sendAt
    {
      var due := set q | q in s.rows && IsDue(s, q);
      assert forall q :: q in s.rows && IsDue(s, q) ==> q in due;
      if due == {} {
        return None;
      }
      var best :| best in due;
      var rest := due - {best};
      while rest != {}
        invariant best in due && rest <= due
        invariant forall q :: q in due && q !in rest ==> s.rows[best].sendAt <= s.rows[q].sendAt
        decreases rest
      {
        var q :| q in rest;
        if s.rows[q].sendAt < s.rows[best].sendAt {
          best := q;
        }
        rest := rest - {q};
      }
      return Some(best);
    }
  }

  // ---------------------------------------------------------------- send_due

  datatype Tally = Tally(sent: nat, cancelled: nat, failed: nat, skipped: nat)

  // Before a step of our own: the others have their turn, and then the step may raise instead.
  method Raises(db: Database, world: World) returns (raised: bool)
    requires db.Valid() && db.w in db.s.jobs && Enabled(db.s, Fault(db.w))
    modifies db
    ensures db.Valid() && db.w in db.s.jobs
    ensures ScoreOf(db.log, db.w) == ScoreOf(old(db.log), db.w)
    ensures !raised ==> db.s.jobs[db.w] == old(db.s).jobs[db.w]
    ensures Quiet(world) ==> db.s == old(db.s)
    ensures db.calls == old(db.calls) + 1 && (raised <==> world.raises(db.calls))
    ensures raised ==> db.s.jobs[db.w].phase == Handler(db.s.jobs[db.w].attempt)
  {
    ghost var _ := db.Interfere(world);
    raised := world.raises(db.calls);
    if raised {
      db.Commit(Fault(db.w));
    }
  }

  // The claim statement: the earliest due row, if any, becomes ours.
  method ClaimOne(db: Database) returns (claimed: bool)
    requires db.Valid() && db.w !in db.s.jobs
    modifies db
    ensures db.Valid()
    ensures !claimed ==> db.s == old(db.s) && db.log == old(db.log)
    ensures claimed ==> db.w in db.s.jobs && db.s.jobs[db.w].phase.Claimed?
    ensures claimed ==> ScoreOf(db.log, db.w) == AddStep(ScoreOf(old(db.log), db.w), Claim(db.w, db.s.jobs[db.w].row))
    ensures claimed <==> exists q :: q in old(db.s).rows && IsDue(old(db.s), q)
    ensures claimed ==> var r := db.s.jobs[db.w].row;
                        && IsDue(old(db.s), r) && db.s == Next(old(db.s), Claim(db.w, r))
                        && forall q :: q in old(db.s).rows && IsDue(old(db.s), q) ==>
                             old(db.s).rows[r].sendAt <= old(db.s).rows[q].sendAt
  {
    var due := db.EarliestDue();
    claimed := due.Some?;
    if claimed {
      db.Commit(Claim(db.w, due.value));
    }
  }

  // Row r has got the status of this end, and the rest of the tables is as it was.
  ghost predicate Wrote(s: State, t: State, r: RowId, end: Phase) {
    && t.appts == s.appts && t.now == s.now && t.rows.Keys == s.rows.Keys
    && (forall q :: q in s.rows && q != r ==> t.rows[q] == s.rows[q])
    && (r in s.rows ==>
          && t.rows[r] == s.rows[r].(status := t.rows[r].status)
          && t.rows[r].status == match end
                                 case Refused => Cancelled
                                 case Mailed => Sent
                                 case _ => Failed)
  }

  // The steps of worker w on the row it has in hand, one by one.
  ghost predicate SameTables(s: State, t: State) {
    t.rows == s.rows && t.appts == s.appts && t.now == s.now
  }

  lemma ReadStep(s: State, w: Worker)
    requires w in s.jobs && s.jobs[w].phase.Claimed?
    ensures Enabled(s, Read(w)) && Enabled(s, Fault(w)) && !Foreign(Read(w), w)
    ensures var t := Next(s, Read(w));
            && SameTables(s, t) && t.mails == s.mails && w in t.jobs
            && t.jobs[w] == s.jobs[w].(phase := t.jobs[w].phase)
            && (t.jobs[w].phase.Refused? || t.jobs[w].phase.Cleared?)
            && (t.jobs[w].phase.Refused? <==> !Bookable(s, s.jobs[w].appt))
    ensures forall score :: AddStep(score, Read(w)) == score
  {
  }

  predicate Bookable(s: State, a: ApptId) {
    a in s.appts && s.appts[a].booked && s.appts[a].startsAt > s.now
  }

  lemma EnqueueStep(s: State, w: Worker, hasRecipient: bool)
    requires w in s.jobs && s.jobs[w].phase.Cleared?
    ensures Enabled(s, Enqueue(w, hasRecipient)) && Enabled(s, Fault(w)) && !Foreign(Enqueue(w, hasRecipient), w)
    ensures var t := Next(s, Enqueue(w, hasRecipient));
            && SameTables(s, t) && w in t.jobs
            && t.mails == (if hasRecipient then s.mails + multiset{s.jobs[w].row} else s.mails)
            && t.jobs[w] == s.jobs[w].(phase := if hasRecipient then Mailed else NoAddress)
    ensures forall score :: AddStep(score, Enqueue(w, hasRecipient)) == score
  {
  }

  lemma FinishStep(s: State, w: Worker)
    requires w in s.jobs && s.jobs[w].phase in {Refused, Mailed, NoAddress}
    ensures var p := s.jobs[w].phase;
            && Enabled(s, Fault(w)) && Enabled(s, LateFault(w)) && Enabled(s, Finish(w, p)) && !Foreign(Finish(w, p), w)
            && var t := Next(s, Finish(w, p));
            && w !in t.jobs && t.mails == s.mails && Wrote(s, t, s.jobs[w].row, p)
    ensures var t := Next(s, LateFault(w)); w in t.jobs && t.jobs[w].phase == Handler(t.jobs[w].attempt)
    ensures !Foreign(LateFault(w), w) && forall score :: AddStep(score, LateFault(w)) == score
  {
  }

  // The try block of one round: how it ended, or None when it raised.
  method TryToSend(db: Database, world: World) returns (end: Option<Phase>)
    requires db.Valid() && db.w in db.s.jobs && db.s.jobs[db.w].phase.Claimed?
    modifies db
    ensures db.Valid()
    ensures end.Some? ==> end.value in {Refused, Mailed, NoAddress} && db.w !in db.s.jobs
    ensures end.Some? ==> ScoreOf(db.log, db.w) == AddStep(ScoreOf(old(db.log), db.w), Finish(db.w, end.value))
    ensures end.None? ==> db.w in db.s.jobs && db.s.jobs[db.w].phase == Handler(db.s.jobs[db.w].attempt)
    ensures end.None? ==> ScoreOf(db.log, db.w) == ScoreOf(old(db.log), db.w)
    ensures NeverRaises(world) ==> end.Some?
    // left alone, the row is finished as the appointment and the address have it
    ensures Quiet(world) ==>
              && end.Some? && (end.value.Refused? <==> !Bookable(old(db.s), old(db.s).jobs[db.w].appt))
              && (end.value.Mailed? ==> world.hasRecipient(old(db.calls) + 2))
              && (end.value.NoAddress? ==> !world.hasRecipient(old(db.calls) + 2))
              && Wrote(old(db.s), db.s, old(db.s).jobs[db.w].row, end.value)
              && db.s.mails
                 == old(db.s).mails + (if end.value.Mailed? then multiset{old(db.s).jobs[db.w].row} else multiset{})
  {
    hide Executes, ScoreOf, AddStep, Next, Enabled, Foreign, Wrote, Bookable, Handler;
    ReadStep(db.s, db.w);
    var raised := Raises(db, world);
    if raised { return None; }
    ReadStep(db.s, db.w);
    db.Commit(Read(db.w));
    var phase := db.s.jobs[db.w].phase;
    if phase.Cleared? {
      EnqueueStep(db.s, db.w, true);
      raised := Raises(db, world);
      if raised { return None; }
      EnqueueStep(db.s, db.w, world.hasRecipient(db.calls));
      db.Commit(Enqueue(db.w, world.hasRecipient(db.calls)));
      phase := db.s.jobs[db.w].phase;
    }
    ghost var mid := db.s;
    end := Conclude(db, world);
    if Quiet(world) {
      WroteSince(old(db.s), mid, db.s, mid.jobs[db.w].row, end.value);
    }
  }

  lemma WroteSince(s: State, t: State, u: State, r: RowId, end: Phase)
    requires SameTables(s, t)
    ensures Wrote(t, u, r, end) <==> Wrote(s, u, r, end)
  {
  }

  // The end of the try block: _finish, unless something raises before it or after.
  method Conclude(db: Database, world: World) returns (end: Option<Phase>)
    requires db.Valid() && db.w in db.s.jobs && db.s.jobs[db.w].phase in {Refused, Mailed, NoAddress}
    modifies db
    ensures db.Valid()
    ensures end.Some? ==> end.value == old(db.s).jobs[db.w].phase && db.w !in db.s.jobs
    ensures end.Some? ==> ScoreOf(db.log, db.w) == AddStep(ScoreOf(old(db.log), db.w), Finish(db.w, end.value))
    ensures end.None? ==> db.w in db.s.jobs && db.s.jobs[db.w].phase == Handler(db.s.jobs[db.w].attempt)
    ensures end.None? ==> ScoreOf(db.log, db.w) == ScoreOf(old(db.log), db.w)
    ensures end.None? <==> world.raises(db.calls) || world.raisesLate(db.calls)
    ensures Quiet(world) ==> && end.Some? && db.s.mails == old(db.s).mails
                             && Wrote(old(db.s), db.s, old(db.s).jobs[db.w].row, end.value)
  {
    hide Executes, ScoreOf, AddStep, Next, Enabled, Foreign, Wrote, Handler;
    FinishStep(db.s, db.w);
    var raised := Raises(db, world);
    if raised { return None; }
    FinishStep(db.s, db.w);
    if world.raisesLate(db.calls) {
      db.Commit(LateFault(db.w));
      return None;
    }
    end := Some(db.s.jobs[db.w].phase);
    db.Commit(Finish(db.w, end.value));
  }

  // How a round may end: nothing was due, the claimed row is dealt with, or an exception leaves send_due.
  datatype Ending = Idle | Handled | Raised

  // The exception handler: give the row up or put it back, by the attempts it has had. It may raise itself,
  // before its transaction - the row is then left as it is - or after.
  method Handle(db: Database, world: World) returns (ending: Ending, ghost l: Label)
    requires db.Valid() && db.w in db.s.jobs && db.s.jobs[db.w].phase == Handler(db.s.jobs[db.w].attempt)
    modifies db
    ensures db.Valid() && db.w !in db.s.jobs && !ending.Idle?
    ensures l in {Crash(db.w), Replan(db.w), Finish(db.w, Giving)}
    ensures l.Finish? ==> old(db.s).jobs[db.w].attempt >= MAX_ATTEMPTS
    ensures l.Replan? ==> old(db.s).jobs[db.w].attempt < MAX_ATTEMPTS
    ensures l.Crash? <==> world.raises(db.calls)
    ensures ending.Raised? <==> world.raises(db.calls) || world.raisesLate(db.calls)
    ensures ScoreOf(db.log, db.w) == AddStep(ScoreOf(old(db.log), db.w), l)
  {
    ghost var _ := db.Interfere(world);
    if world.raises(db.calls) {
      l := Crash(db.w);
      db.Commit(Crash(db.w));
      return Raised, l;
    }
    if db.s.jobs[db.w].attempt >= MAX_ATTEMPTS {
      l := Finish(db.w, Giving);
      db.Commit(Finish(db.w, Giving));
    } else {
      l := Replan(db.w);
      db.Commit(Replan(db.w));
    }
    ending := if world.raisesLate(db.calls) then Raised else Handled;
  }

  // The tally counts exactly how the claims between two scores ended; the rest went back as planned.
  ghost predicate Accounts(tally: Tally, before: Score, after: Score) {
    && tally.sent == after.sent - before.sent && tally.cancelled == after.cancelled - before.cancelled
    && tally.failed == after.failed - before.failed && tally.skipped == after.skipped - before.skipped
    && after.claims - before.claims ==
         tally.sent + tally.cancelled + tally.failed + tally.skipped + (after.replanned - before.replanned)
  }

  // Row r was due; it has now had one attempt more and is cancelled if its appointment is gone, not
  // booked or begun, and otherwise sent, or failed for want of an address. Nothing else has changed.
  ghost predicate DealtWith(s: State, t: State, r: RowId) {
    && t.appts == s.appts && t.now == s.now && t.rows.Keys == s.rows.Keys
    && (forall q :: q in s.rows && q != r ==> t.rows[q] == s.rows[q])
    && r in s.rows && IsDue(s, r)
    && t.rows[r] == s.rows[r].(status := t.rows[r].status, attempts := s.rows[r].attempts + 1)
    && (t.rows[r].status.Cancelled? <==> !Bookable(s, s.rows[r].appt))
    && (t.rows[r].status.Cancelled?
        || (t.rows[r].status.Sent? && t.mails == s.mails + multiset{r}) || t.rows[r].status.Failed?)
  }

  ghost predicate NothingDue(s: State) {
    forall q :: q in s.rows ==> !IsDue(s, q)
  }

  lemma ClaimedAndWritten(s: State, t: State, u: State, w: Worker, r: RowId, end: Phase)
    requires Enabled(s, Claim(w, r)) && t == Next(s, Claim(w, r))
    requires Wrote(t, u, r, end) && end in {Refused, Mailed, NoAddress}
    requires end.Refused? <==> !Bookable(t, s.rows[r].appt)
    requires u.mails == t.mails + (if end.Mailed? then multiset{r} else multiset{})
    ensures t.jobs[w].row == r && t.jobs[w].appt == s.rows[r].appt && DealtWith(s, u, r)
  {
  }

  lemma ClaimedWork(s: State, w: Worker, r: RowId)
    requires Enabled(s, Claim(w, r))
    ensures var t := Next(s, Claim(w, r));
            w in t.jobs && t.jobs[w].row == r && t.jobs[w].appt == s.rows[r].appt && t.jobs[w].phase.Claimed?
  {
  }

  // One round, claim included. The claim may raise before it commits, or after. When the round finds
  // nothing due, nothing is; left alone, it deals with the earliest due row.
  method Round(db: Database, world: World, tally: Tally, ghost before: Score)
    returns (ending: Ending, tally': Tally, ghost r: RowId)
    requires db.Valid() && db.w !in db.s.jobs && Accounts(tally, before, ScoreOf(db.log, db.w))
    modifies db
    ensures db.Valid() && db.w !in db.s.jobs
    ensures !ending.Raised? ==> Accounts(tally', before, ScoreOf(db.log, db.w))
    ensures ScoreOf(db.log, db.w).claims <= ScoreOf(old(db.log), db.w).claims + 1
    ensures ending.Idle? ==> NothingDue(db.s) && ScoreOf(db.log, db.w).claims == ScoreOf(old(db.log), db.w).claims
    ensures ending.Handled? ==> ScoreOf(db.log, db.w).claims == ScoreOf(old(db.log), db.w).claims + 1
    ensures NeverRaises(world) ==> !ending.Raised?
    ensures Quiet(world) ==> && !ending.Raised? && (ending.Idle? ==> db.s == old(db.s))
                             && (ending.Handled? ==> DealtWith(old(db.s), db.s, r))
  {
    hide Executes, ScoreOf, AddStep, Accounts, Next, Enabled, IsDue, DealtWith, Wrote, Bookable, Handler;
    tally', r := tally, 0;
    ghost var was := ScoreOf(db.log, db.w);
    ghost var _ := db.Interfere(world);
    if world.raises(db.calls) {
      return Raised, tally, r;
    }
    ghost var start := db.s;
    var claimed := ClaimOne(db);
    if world.raisesLate(db.calls) {
      if claimed {
        Counted(tally, before, was, db.w, db.s.jobs[db.w].row, Crash(db.w));
        Die(db);
      }
      return Raised, tally, r;
    }
    if !claimed {
      return Idle, tally, r;
    }
    r := db.s.jobs[db.w].row;
    DueIsEnabled(start, db.w, r);
    ClaimedWork(start, db.w, r);
    ghost var mid := db.s;
    var end := TryToSend(db, world);
    if Quiet(world) {
      ClaimedAndWritten(start, mid, db.s, db.w, r, end.value);
    }
    ending := Handled;
    if end.None? {
      var gaveUp := db.s.jobs[db.w].attempt >= MAX_ATTEMPTS;
      ghost var l;
      ending, l := Handle(db, world);
      Counted(tally, before, was, db.w, r, l);
      if gaveUp && ending.Handled? {
        tally' := tally.(failed := tally.failed + 1);
      }
      return;
    }
    Counted(tally, before, was, db.w, r, Finish(db.w, end.value));
    if end.value.Refused? {
      tally' := tally.(cancelled := tally.cancelled + 1);
    } else if end.value.Mailed? {
      tally' := tally.(sent := tally.sent + 1);
    } else {
      tally' := tally.(skipped := tally.skipped + 1);
    }
  }

  lemma DueIsEnabled(s: State, w: Worker, r: RowId)
    requires w !in s.jobs
    ensures IsDue(s, r) ==> Enabled(s, Claim(w, r))
  {
  }

  // What each end of a round adds to the score, and to the tally.
  lemma Counted(tally: Tally, before: Score, was: Score, w: Worker, r: RowId, last: Label)
    requires Accounts(tally, before, was)
    requires last in {Finish(w, Refused), Finish(w, Mailed), Finish(w, NoAddress), Finish(w, Giving), Replan(w),
                      Crash(w)}
    ensures var after := AddStep(AddStep(was, Claim(w, r)), last);
            && after.claims == was.claims + 1 && AddStep(was, Claim(w, r)).claims == was.claims + 1
            && (last == Finish(w, Refused) ==> Accounts(tally.(cancelled := tally.cancelled + 1), before, after))
            && (last == Finish(w, Mailed) ==> Accounts(tally.(sent := tally.sent + 1), before, after))
            && (last == Finish(w, NoAddress) ==> Accounts(tally.(skipped := tally.skipped + 1), before, after))
            && (last == Finish(w, Giving) ==> Accounts(tally.(failed := tally.failed + 1), before, after))
            && (last == Replan(w) ==> Accounts(tally, before, after))
  {
  }

  // The exception leaves send_due with the row still claimed.
  method Die(db: Database)
    requires db.Valid() && db.w in db.s.jobs
    modifies db
    ensures db.Valid() && db.w !in db.s.jobs && db.s.rows == old(db.s).rows
    ensures ScoreOf(db.log, db.w) == ScoreOf(old(db.log), db.w)
  {
    db.Commit(Crash(db.w));
  }

  // A sweep left alone: rows that were not due are as they were, and due ones are as they were or dealt with.
  ghost predicate Swept(s: State, t: State) {
    && t.appts == s.appts && t.now == s.now && t.rows.Keys == s.rows.Keys
    && forall r :: r in s.rows ==>
         || t.rows[r] == s.rows[r]
         || (IsDue(s, r)
             && t.rows[r] == s.rows[r].(status := t.rows[r].status, attempts := s.rows[r].attempts + 1)
             && (t.rows[r].status.Cancelled? <==> !Bookable(s, s.rows[r].appt))
             && (t.rows[r].status.Cancelled? || t.rows[r].status.Sent? || t.rows[r].status.Failed?))
  }

  lemma SweptOneMore(s: State, t: State, u: State, r: RowId)
    requires Swept(s, t) && DealtWith(t, u, r)
    ensures Swept(s, u)
  {
  }

  // send_due, in any surroundings and with an exception at any statement: what it does is a stretch
  // of a legal run (db.Valid), it ends with nothing in hand, it claims at most `limit` rows, and when no
  // exception gets out, fewer than that only if nothing is due any more, and the tally accounts for
  // every claim. Left alone, it deals with due rows and touches no other.
  method SendDue(db: Database, limit: nat, world: World) returns (tally: Option<Tally>)
    requires db.Valid() && db.w !in db.s.jobs
    modifies db
    ensures db.Valid() && db.w !in db.s.jobs
    ensures tally.Some? ==> Accounts(tally.value, ScoreOf(old(db.log), db.w), ScoreOf(db.log, db.w))
    ensures ScoreOf(db.log, db.w).claims <= ScoreOf(old(db.log), db.w).claims + limit
    ensures tally.Some? ==>
              ScoreOf(db.log, db.w).claims == ScoreOf(old(db.log), db.w).claims + limit || NothingDue(db.s)
    ensures NeverRaises(world) ==> tally.Some?
    ensures Quiet(world) ==> tally.Some? && Swept(old(db.s), db.s)
  {
    var counts := Tally(0, 0, 0, 0);
    ghost var before := ScoreOf(db.log, db.w);
    hide Executes, ScoreOf, Swept, DealtWith, NothingDue, Quiet;
    assert Accounts(counts, before, ScoreOf(db.log, db.w));
    assert Swept(db.s, db.s) by { NothingSwept(db.s); }
    hide Accounts;
    for i := 0 to limit
      invariant db.Valid() && db.w !in db.s.jobs && Accounts(counts, before, ScoreOf(db.log, db.w))
      invariant ScoreOf(db.log, db.w).claims == before.claims + i
      invariant Quiet(world) ==> Swept(old(db.s), db.s)
    {
      ghost var was := db.s;
      var ending;
      ghost var r;
      ending, counts, r := Round(db, world, counts, before);
      if ending.Raised? {
        return None;
      }
      if ending.Idle? {
        break;
      }
      if Quiet(world) {
        SweptOneMore(old(db.s), was, db.s, r);
      }
    }
    tally := Some(counts);
  }

  lemma NothingSwept(s: State)
    ensures Swept(s, s)
  {
  }

  // ---------------------------------------------------------------- plan_for_appointment

  // One INSERT, in its own transaction: whether it made a row. A constraint violation is no error.
  method Insert(db: Database, a: ApptId, key: string, sendAt: int) returns (made: bool)
    requires db.Valid()
    modifies db
    ensures db.Valid() && db.s == Next(old(db.s), Plan(a, key, sendAt))
    ensures db.log == old(db.log) + [Plan(a, key, sendAt)] && db.calls == old(db.calls)
    ensures made <==> a in old(db.s).appts && !Exists(old(db.s).rows, a, Take(key, KEY_CHARS))
  {
    hide Executes, ScoreOf, Take, Exists;
    var rowsBefore := db.s.nextRow;
    db.Commit(Plan(a, key, sendAt));
    made := db.s.nextRow > rowsBefore;
  }
  // Without interference: exactly the rows of PlanAll appear, and their number is returned.
  // The loop body, for one rule: whether it made a row, or None when it raised.
  method PlanRule(db: Database, world: World, a: ApptId, startsAt: int, rule: Rule, cfg: ReminderCfg, offset: int,
                  now: int)
    returns (made: Option<bool>, ghost since: seq<Label>)
    requires db.Valid() && Inv(db.s)
    modifies db
    ensures db.Valid() && Inv(db.s) && db.log == old(db.log) + since
    ensures DropAppt(a) in since || Spared(old(db.s), db.s, a)
    ensures made.Some? && a in old(db.s).appts && DropAppt(a) !in since && startsAt - rule.before > now ==>
              Exists(db.s.rows, a, Take(rule.key, KEY_CHARS))
    ensures old(db.s).nextRow + (if made == Some(true) then 1 else 0) <= db.s.nextRow
    ensures NeverRaises(world) ==> made.Some?
    ensures Quiet(world) ==>
              && made.Some?
              && db.s == Inserted(old(db.s), PlanOf(now, a, startsAt, rule, cfg, offset))
              && db.s.nextRow == old(db.s).nextRow + (if made.value then 1 else 0)
  {
    hide Executes, ScoreOf, Take, Exists, Inv, Next, Shifted;
    since := [];
    var sendAt := startsAt - rule.before;
    if sendAt <= now {
      return Some(false), [];
    }
    sendAt := ShiftOutOfQuiet(sendAt, cfg.quiet, offset);
    since := db.Interfere(world);
    IdleExecution(old(db.s), since, db.s);
    ExecutionSpares(old(db.s), since, db.s, a);
    if world.raises(db.calls) {
      return None, since;
    }
    InsertKeeps(db.s, a, rule.key, sendAt);
    var inserted := Insert(db, a, rule.key, sendAt);
    since := since + [Plan(a, rule.key, sendAt)];
    made := if world.raisesLate(db.calls) then None else Some(inserted);
  }

  ghost function Inserted(s: State, l: Option<Label>): State
    requires l.Some? ==> l.value.Plan?
  {
    match l
    case None => s
    case Some(l) => Next(s, l)
  }

  lemma IdleExecution(s: State, steps: seq<Label>, t: State)
    requires Executes(s, steps, t)
    ensures steps == [] ==> s == t
  {
  }

  lemma InsertKeeps(s: State, a: ApptId, key: string, sendAt: int)
    requires Inv(s)
    ensures var t := Next(s, Plan(a, key, sendAt));
            && Inv(t) && Spared(s, t, a) && (a in s.appts ==> Exists(t.rows, a, Take(key, KEY_CHARS)))
            && t.nextRow == s.nextRow + (if a in s.appts && !Exists(s.rows, a, Take(key, KEY_CHARS)) then 1 else 0)
  {
    StepKeepsInv(s, Plan(a, key, sendAt));
    StepSpares(s, Plan(a, key, sendAt), a);
    if a in s.appts {
      PlanMakesRow(s, a, key, sendAt);
    }
    hide Inv, Take, Exists;
  }

  // plan_for_appointment, amid other transactions and exceptions: when it returns, every rule whose time
  // was still to come has its row, unless the appointment is deleted meanwhile, and it returns no more
  // than the rows made. Left alone, exactly the rows of PlanAll appear, and their number is returned.
  method PlanForAppointment(db: Database, world: World, a: ApptId, startsAt: int, cfg: ReminderCfg, offset: int)
    returns (planned: Option<nat>, ghost since: seq<Label>)
    requires db.Valid() && Inv(db.s)
    modifies db
    ensures db.Valid() && Inv(db.s) && db.log == old(db.log) + since
    ensures planned.Some? && a in old(db.s).appts && DropAppt(a) !in since ==>
              AllPlanned(db.s, old(db.s).now, a, startsAt, cfg, |RulesUsed(cfg)|)
    ensures planned.Some? ==> planned.value <= db.s.nextRow - old(db.s).nextRow
    ensures NeverRaises(world) ==> planned.Some?
    ensures Quiet(world) ==> && planned.Some? && db.s == PlanAll(old(db.s), a, startsAt, cfg, offset)
                             && planned.value == db.s.nextRow - old(db.s).nextRow
    ensures Quiet(world) && a in old(db.s).appts ==>
              PlannedRows(old(db.s), db.s, a, startsAt, cfg, offset, |RulesUsed(cfg)|)
  {
    hide Executes, ScoreOf, Inv, Next, PlanFirst, Shifted, Take, Quiet, Exists;
    PlanStarts(db.s, a, startsAt, cfg, offset);
    since := [];
    if a in db.s.appts {
      PlanningPlans(db.s, a, startsAt, cfg, offset, |RulesUsed(cfg)|);
    }
    hide PlannedRows;
    if !cfg.enabled || cfg.rules == [] {
      return Some(0), [];
    }
    var count := 0;
    var now := db.s.now;
    var rules := Take(cfg.rules, cfg.maxPerAppointment);
    for i := 0 to |rules|
      invariant db.Valid() && Inv(db.s) && db.log == old(db.log) + since
      invariant a in old(db.s).appts && DropAppt(a) !in since ==>
                  a in db.s.appts && AllPlanned(db.s, now, a, startsAt, cfg, i)
      invariant count <= db.s.nextRow - old(db.s).nextRow
      invariant Quiet(world) ==> && db.s == PlanFirst(old(db.s), a, startsAt, cfg, offset, i)
                                 && count == db.s.nextRow - old(db.s).nextRow
    {
      PlanNext(old(db.s), a, startsAt, cfg, offset, i);
      var made;
      ghost var steps;
      made, steps := PlanRule(db, world, a, startsAt, rules[i], cfg, offset, now);
      since := since + steps;
      if made.None? {
        return None, since;
      }
      if made.value {
        count := count + 1;
      }
    }
    planned := Some(count);
  }
}
