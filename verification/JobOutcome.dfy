// Why jobs of the queue change (app/rag/worker.py:31-57, 123-156 and 179-206): over all runs, what a job's
// status says about how its last claim ended, when a retry is due, and what each kind of job reports.
module JobOutcome {
  import opened Prelude
  import opened JobQueue

  lemma RunStep(s: State, states: seq<State>, labels: seq<Label>, i: nat)
    requires IsRunFrom(s, states, labels) && i < |labels|
    ensures Enabled(states[i], labels[i]) && states[i + 1] == Next(states[i], labels[i])
  {
  }

  // ---------------------------------------------------------------- what a worker is about to write

  // Step l brought worker w into the phase: _handle returned a status, or it raised - and then the job has
  // failed at its fifth attempt, or is due again after 1, 4, 9 or 16 minutes.
  ghost predicate Decides(s: State, l: Label, w: Worker, work: Work) {
    && w in s.workers && s.workers[w].job == work.job && s.workers[w].attempt == work.attempt
    && match work.phase
       case Handling => false
       case Finishing(status) => l == Return(w, status) || (l == Raise(w) && work.attempt >= 5 && status.Failed?)
       case Retrying(runAfter) =>
         l == Raise(w) && work.attempt < 5 && runAfter == s.now + Minutes(work.attempt) * 60_000_000
  }

  function Minutes(attempt: nat): nat {
    if attempt == 1 then 1 else if attempt == 2 then 4 else if attempt == 3 then 9 else if attempt == 4 then 16 else 0
  }

  lemma StepDecides(s: State, l: Label, w: Worker)
    requires Enabled(s, l) && w in Next(s, l).workers && !Next(s, l).workers[w].phase.Handling?
    requires w in s.workers ==> s.workers[w].attempt >= 1
    ensures Decides(s, l, w, Next(s, l).workers[w]) || (w in s.workers && s.workers[w] == Next(s, l).workers[w])
  {
  }

  lemma AttemptIsPositive(s: State, w: Worker)
    requires Inv(s) && w in s.workers
    ensures s.workers[w].attempt >= 1
  {
    assert WorkInv(s, w);
  }

  lemma {:induction false} PhaseWasDecided(s: State, states: seq<State>, labels: seq<Label>, i: nat, w: Worker)
    returns (k: nat)
    requires Initial(s) && IsRunFrom(s, states, labels) && i < |states|
    requires w in states[i].workers && !states[i].workers[w].phase.Handling?
    ensures k < i && Decides(states[k], labels[k], w, states[i].workers[w])
  {
    hide Next, Decides, Inv, Spaced;
    assert i > 0;
    RunStep(s, states, labels, i - 1);
    InitialInv(s);
    RunKeepsInv(s, states, labels, i - 1);
    if w in states[i - 1].workers {
      AttemptIsPositive(states[i - 1], w);
    }
    StepDecides(states[i - 1], labels[i - 1], w);
    if Decides(states[i - 1], labels[i - 1], w, states[i].workers[w]) {
      k := i - 1;
    } else {
      k := PhaseWasDecided(s, states, labels, i - 1, w);
    }
  }

  lemma InitialInv(s: State)
    requires Initial(s)
    ensures Inv(s)
  {
    forall j ensures Spaced(s.Claims(j), s.now) {
      assert s.Claims(j) == [];
    }
  }

  // ---------------------------------------------------------------- what is written

  lemma StepChanges(s: State, l: Label, j: JobId)
    requires Inv(s) && Enabled(s, l) && j in s.jobs && j in Next(s, l).jobs && Next(s, l).jobs[j] != s.jobs[j]
    ensures || (l.Claim? && l.j == j && s.jobs[j].status.Pending? && s.jobs[j].runAfter <= s.now
                && Next(s, l).jobs[j] == Job(Running, s.jobs[j].attempts + 1, s.jobs[j].runAfter))
            || (l.Write? && l.w in s.workers && s.workers[l.w].job == j && !s.workers[l.w].phase.Handling?
                && Next(s, l).jobs[j].attempts == s.jobs[j].attempts && s.workers[l.w].attempt == s.jobs[j].attempts
                && match s.workers[l.w].phase
                   case Finishing(status) =>
                     Next(s, l).jobs[j].status == status && Next(s, l).jobs[j].runAfter == s.jobs[j].runAfter
                   case Retrying(runAfter) =>
                     Next(s, l).jobs[j].status.Pending? && Next(s, l).jobs[j].runAfter == runAfter
                   case Handling => false)
  {
    assert JobInv(s, j);
    if l.Write? {
      assert WorkInv(s, l.w);
    }
  }

  // Main result: a job becomes running only by a claim when it is due; done only because _handle said so;
  // failed because _handle said so or raised at the fifth attempt; and pending again only because it raised
  // before that, and then it is due 1, 4, 9 or 16 minutes after it raised.
  lemma WhyChanged(s: State, states: seq<State>, labels: seq<Label>, i: nat, j: JobId) returns (k: nat, w: Worker)
    requires Initial(s) && IsRunFrom(s, states, labels) && i < |labels|
    requires j in states[i].jobs && j in states[i + 1].jobs && states[i + 1].jobs[j] != states[i].jobs[j]
    ensures var job, job' := states[i].jobs[j], states[i + 1].jobs[j];
            || (labels[i] == Claim(w, j) && job.status.Pending? && job.runAfter <= states[i].now
                && job' == Job(Running, job.attempts + 1, job.runAfter))
            || (k < i && labels[i] == Write(w) && w in states[k].workers && states[k].workers[w].job == j
                && job'.attempts == job.attempts == states[k].workers[w].attempt
                && match job'.status
                   case Done => labels[k] == Return(w, Done)
                   case Failed => labels[k] == Return(w, Failed) || (labels[k] == Raise(w) && job.attempts >= 5)
                   case Pending => labels[k] == Raise(w) && job.attempts < 5
                                   && job'.runAfter == states[k].now + Minutes(job.attempts) * 60_000_000
                   case Running => false)
  {
    hide Inv, Next, Spaced;
    k := 0;
    InitialInv(s);
    RunKeepsInv(s, states, labels, i);
    RunStep(s, states, labels, i);
    StepChanges(states[i], labels[i], j);
    w := labels[i].w;
    if labels[i].Write? {
      k := PhaseWasDecided(s, states, labels, i, w);
      DecidesTerminal(states[i], labels[i], w);
    }
  }

  lemma DecidesTerminal(s: State, l: Label, w: Worker)
    requires Inv(s) && Enabled(s, l) && w in s.workers
    ensures s.workers[w].phase.Finishing? ==> s.workers[w].phase.status.Terminal()
  {
    assert WorkInv(s, w);
  }

  // From the fourth attempt on the wait stays at a quarter of an hour and a minute.
  lemma WaitsOf(attempts: nat)
    ensures Backoff(attempts) == (if attempts <= 3 then attempts * attempts else 16) * 60_000_000
  {
  }

  // A new job is pending, untried and due at once.
  lemma NewJob(s: State)
    ensures var t := Next(s, Enqueue);
            && t.jobs == s.jobs[s.nextJob := Job(Pending, 0, s.now)] && t.nextJob == s.nextJob + 1
            && t.workers == s.workers && t.now == s.now
  {
  }

  // And a deleted one is gone, whoever holds it; its claims are remembered.
  lemma DeletedJob(s: State, j: JobId)
    ensures var t := Next(s, Delete(j));
            && t == s.(jobs := t.jobs)
            && forall i :: (i in t.jobs <==> i in s.jobs && i != j) && (i in t.jobs ==> t.jobs[i] == s.jobs[i])
  {
  }

  // ---------------------------------------------------------------- what a job of each kind reports

  // A crawl or a purge is done unless it raises. Mail and webhooks are done when they are accepted, failed
  // for good when they are rejected for good, and otherwise raise, to be tried again. What is of no known
  // kind has failed, and is not tried again.
  lemma Reports(kind: string, d: Delivery)
    ensures (kind == "crawl" || kind == "retention" ==>
               (Outcome(kind, d) == Some(Done) <==> d != Exception) && (Outcome(kind, d) == None <==> d == Exception))
    ensures (kind == "email" || kind == "webhook" ==>
               && (Outcome(kind, d) == Some(Done) <==> d == Ok)
               && (Outcome(kind, d) == Some(Failed) <==> d == Rejected)
               && (Outcome(kind, d) == None <==> d == Unavailable || d == Exception))
    ensures (kind != "crawl" && kind != "retention" && kind != "email" && kind != "webhook" ==>
               Outcome(kind, d) == Some(Failed))
  {
  }
}
