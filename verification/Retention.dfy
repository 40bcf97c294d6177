// Data retention (app/services/retention.py): the batched purge over conversations and what hangs off
// them (app/db/models.py), and the erasure of a whole tenant. Times are in seconds.
module Retention {
  import opened Prelude

  type Id = nat

  const BATCH_SIZE := 500
  const DAY := 86400

  datatype Conversation = Conversation(tenant: Id, createdAt: int)
  datatype Message = Message(tenant: Id, conversation: Id, content: string)
  // A lead or an appointment: it may outlive its conversation.
  datatype Record = Record(tenant: Id, conversation: Option<Id>, fields: string)

  datatype Db = Db(conversations: map<Id, Conversation>, messages: map<Id, Message>,
                   leads: map<Id, Record>, appointments: map<Id, Record>)

  // Foreign keys hold, and rows belong to the tenant of their conversation.
  ghost predicate Linked(db: Db) {
    && (forall m :: m in db.messages ==>
          && db.messages[m].conversation in db.conversations
          && db.messages[m].tenant == db.conversations[db.messages[m].conversation].tenant)
    && RecordsLinked(db, db.leads) && RecordsLinked(db, db.appointments)
  }

  ghost predicate RecordsLinked(db: Db, rows: map<Id, Record>) {
    forall l :: l in rows && rows[l].conversation.Some? ==>
      && rows[l].conversation.value in db.conversations
      && rows[l].tenant == db.conversations[rows[l].conversation.value].tenant
  }

  // ---------------------------------------------------------------- deleting conversations

  function Detach(row: Record, gone: set<Id>): Record {
    if row.conversation.Some? && row.conversation.value in gone then row.(conversation := None) else row
  }

  function DetachAll(rows: map<Id, Record>, gone: set<Id>): map<Id, Record> {
    map l | l in rows :: Detach(rows[l], gone)
  }

  // DELETE FROM conversations, with ON DELETE CASCADE on messages and SET NULL on the records.
  function Delete(db: Db, gone: set<Id>): Db {
    Db(db.conversations - gone,
       map m | m in db.messages && db.messages[m].conversation !in gone :: db.messages[m],
       DetachAll(db.leads, gone),
       DetachAll(db.appointments, gone))
  }

  lemma DeleteTwice(db: Db, a: set<Id>, b: set<Id>)
    ensures Delete(Delete(db, a), b) == Delete(db, a + b)
  {
    assert Delete(Delete(db, a), b).conversations == Delete(db, a + b).conversations;
  }

  lemma DeleteNothing(db: Db)
    ensures Delete(db, {}) == db
  {
    assert Delete(db, {}).conversations == db.conversations;
  }

  // ---------------------------------------------------------------- what is due to go

  function Expired(db: Db, tenant: Id, cutoff: int): set<Id> {
    set c | c in db.conversations && db.conversations[c].tenant == tenant && db.conversations[c].createdAt < cutoff
  }

  function ExpiredMessages(db: Db, tenant: Id, cutoff: int): set<Id> {
    set m | m in db.messages && db.messages[m].conversation in Expired(db, tenant, cutoff)
  }

  function ExpiredLeads(db: Db, tenant: Id, cutoff: int): set<Id> {
    set l | l in db.leads && db.leads[l].tenant == tenant && db.leads[l].conversation.Some?
            && db.leads[l].conversation.value in Expired(db, tenant, cutoff)
  }

  datatype Preview = Preview(conversations: nat, messages: nat, leadsDetached: nat)

  // _count_expiring
  function CountExpiring(db: Db, tenant: Id, cutoff: int): Preview {
    Preview(|Expired(db, tenant, cutoff)|, |ExpiredMessages(db, tenant, cutoff)|, |ExpiredLeads(db, tenant, cutoff)|)
  }

  // No conversation left behind is older than one taken.
  ghost predicate Oldest(db: Db, pool: set<Id>, taken: set<Id>)
    requires pool <= db.conversations.Keys
  {
    && taken <= pool
    && forall x, y :: x in taken && y in pool - taken ==> db.conversations[x].createdAt <= db.conversations[y].createdAt
  }

  // What ORDER BY created_at LIMIT n may select: any n oldest, all of them if there are fewer.
  ghost predicate IsBatch(db: Db, pool: set<Id>, n: nat, batch: set<Id>)
    requires pool <= db.conversations.Keys
  {
    Oldest(db, pool, batch) && |batch| == Min(|pool|, n)
  }

  lemma {:induction false} EarliestExists(db: Db, pool: set<Id>) returns (x: Id)
    requires pool <= db.conversations.Keys && pool != {}
    ensures x in pool && forall y :: y in pool ==> db.conversations[x].createdAt <= db.conversations[y].createdAt
    decreases pool
  {
    x :| x in pool;
    var rest := pool - {x};
    if rest != {} {
      var y := EarliestExists(db, rest);
      x := if db.conversations[y].createdAt < db.conversations[x].createdAt then y else x;
    } else {
      assert forall y :: y in pool ==> y == x || y in rest;
    }
  }

  // Taking the oldest of what is left after taking the oldest is taking the oldest.
  lemma OldestTwice(db: Db, pool: set<Id>, a: set<Id>, b: set<Id>)
    requires pool <= db.conversations.Keys
    requires Oldest(db, pool, a) && Oldest(Delete(db, a), pool - a, b)
    ensures Oldest(db, pool, a + b)
  {
    var left := Delete(db, a);
    forall x, y | x in a + b && y in pool - (a + b)
      ensures db.conversations[x].createdAt <= db.conversations[y].createdAt
    {
      if x in b {
        assert y in (pool - a) - b && left.conversations[x] == db.conversations[x]
            && left.conversations[y] == db.conversations[y];
      }
    }
  }

  lemma ExpiredAfter(db: Db, tenant: Id, cutoff: int, gone: set<Id>)
    ensures Expired(Delete(db, gone), tenant, cutoff) == Expired(db, tenant, cutoff) - gone
  {
  }

  // ---------------------------------------------------------------- the purge

  // How many conversations a run of so many batches can delete.
  function Ceiling(maxBatches: int): nat {
    if maxBatches > 0 then maxBatches * BATCH_SIZE else 0
  }

  datatype Report =
    | Skipped
    | DryRun(wouldDelete: Preview)
    | Purged(conversationsDeleted: nat, batches: nat, leadsDetached: nat, complete: bool)

  // What one run leaves of the database: the oldest expired conversations, up to the ceiling, are gone.
  ghost predicate PurgedTo(db: Db, tenant: Id, cutoff: int, maxBatches: int, gone: set<Id>, after: Db) {
    && IsBatch(db, Expired(db, tenant, cutoff), Ceiling(maxBatches), gone)
    && after == Delete(db, gone)
  }

  // What the report's flag says of a run.
  ghost predicate SaysComplete(db: Db, tenant: Id, cutoff: int, maxBatches: int) {
    |Expired(db, tenant, cutoff)| < Ceiling(maxBatches)
  }

  function Cutoff(now: int, retentionDays: int): int {
    now - retentionDays * DAY
  }

  class Store {
    var db: Db

    constructor (db: Db)
      ensures this.db == db
    {
      this.db := db;
    }

    // One DELETE ... LIMIT in its own transaction.
    method DeleteBatch(tenant: Id, cutoff: int) returns (removed: nat, ghost batch: set<Id>)
      modifies this
      ensures IsBatch(old(db), Expired(old(db), tenant, cutoff), BATCH_SIZE, batch)
      ensures db == Delete(old(db), batch) && removed == |batch|
    {
      var ids := Choose(db, Expired(db, tenant, cutoff), BATCH_SIZE);
      db := Delete(db, ids);
      removed, batch := |ids|, ids;
    }

    method Purge(tenant: Id, retentionDays: int, now: int, dryRun: bool, maxBatches: int)
      returns (r: Report, ghost gone: set<Id>)
      modifies this
      ensures retentionDays <= 0 ==> r == Skipped && db == old(db)
      ensures retentionDays > 0 && dryRun ==>
                r == DryRun(CountExpiring(db, tenant, Cutoff(now, retentionDays))) && db == old(db)
      ensures retentionDays > 0 && !dryRun ==>
                var cutoff := Cutoff(now, retentionDays);
                var due := |Expired(old(db), tenant, cutoff)|;
                && PurgedTo(old(db), tenant, cutoff, maxBatches, gone, db)
                && r.Purged?
                && r.conversationsDeleted == Min(due, Ceiling(maxBatches))
                && r.batches == Min(due / BATCH_SIZE + 1, Max(maxBatches, 0))
                && r.leadsDetached == CountExpiring(old(db), tenant, cutoff).leadsDetached
                && (r.complete <==> SaysComplete(old(db), tenant, cutoff, maxBatches))
    {
      hide Oldest, Delete, Expired, ExpiredLeads, ExpiredMessages;
      gone := {};
      if retentionDays <= 0 {
        return Skipped, {};
      }
      var cutoff := Cutoff(now, retentionDays);
      var preview := CountExpiring(db, tenant, cutoff);
      if dryRun {
        return DryRun(preview), {};
      }
      ghost var before := db;
      ghost var due := Expired(before, tenant, cutoff);
      DueIsStored(before, tenant, cutoff);
      NothingIsOldest(before, due);
      DeleteNothing(before);
      var deleted, batches := 0, 0;
      var more := true;
      while batches < maxBatches && more
        invariant 0 <= batches <= Max(maxBatches, 0)
        invariant due <= before.conversations.Keys
        invariant Oldest(before, due, gone) && db == Delete(before, gone) && deleted == |gone|
        invariant gone <= due
        invariant deleted == if more then batches * BATCH_SIZE else |due|
        invariant !more ==> batches == |due| / BATCH_SIZE + 1
        invariant more ==> batches <= |due| / BATCH_SIZE
        decreases maxBatches - batches, more
      {
        ghost var was := gone;
        ExpiredAfter(before, tenant, cutoff, was);
        DueIsStored(db, tenant, cutoff);
        ghost var batch;
        var removed;
        removed, batch := DeleteBatch(tenant, cutoff);
        BatchAfter(before, due, was, batch, BATCH_SIZE);
        gone := was + batch;
        deleted := deleted + removed;
        batches := batches + 1;
        if removed < BATCH_SIZE {
          more := false;
        }
      }
      SubsetSize(gone, due);
      r := Purged(deleted, batches, preview.leadsDetached, deleted < maxBatches * BATCH_SIZE);
    }
  }

  method Choose(db: Db, pool: set<Id>, n: nat) returns (batch: set<Id>)
    requires pool <= db.conversations.Keys
    ensures IsBatch(db, pool, n, batch)
  {
    batch := {};
    var rest := pool;
    for i := 0 to n
      invariant batch <= pool && rest == pool - batch && |batch| <= i
      invariant |batch| == i || rest == {}
      invariant Oldest(db, pool, batch)
    {
      if rest == {} {
        break;
      }
      ghost var _ := EarliestExists(db, rest);
      var x :| x in rest && forall y :: y in rest ==> db.conversations[x].createdAt <= db.conversations[y].createdAt;
      batch := batch + {x};
      rest := rest - {x};
    }
    SubsetSize(batch, pool);
    if rest == {} {
      assert batch == pool;
    }
  }

  lemma DueIsStored(db: Db, tenant: Id, cutoff: int)
    ensures Expired(db, tenant, cutoff) <= db.conversations.Keys
  {
  }

  lemma NothingIsOldest(db: Db, pool: set<Id>)
    requires pool <= db.conversations.Keys
    ensures Oldest(db, pool, {})
  {
  }

  lemma BatchAfter(db: Db, due: set<Id>, was: set<Id>, batch: set<Id>, n: nat)
    requires due <= db.conversations.Keys && Oldest(db, due, was) && was <= due
    requires due - was <= Delete(db, was).conversations.Keys
    requires IsBatch(Delete(db, was), due - was, n, batch)
    ensures Oldest(db, due, was + batch) && was + batch <= due
    ensures Delete(Delete(db, was), batch) == Delete(db, was + batch)
    ensures |was + batch| == |was| + |batch| && |batch| == Min(|due| - |was|, n)
  {
    hide Delete;
    DeleteTwice(db, was, batch);
    OldestTwice(db, due, was, batch);
    assert was !! batch;
    assert |due| == |was| + |due - was|;
  }

  // ---------------------------------------------------------------- what a purge does to the rows

  // A run keeps exactly the messages whose conversation it kept, and every lead and appointment: one
  // whose conversation went loses only the link.
  lemma PurgeKeepsRecords(db: Db, tenant: Id, cutoff: int, maxBatches: int, gone: set<Id>, after: Db)
    requires Linked(db) && PurgedTo(db, tenant, cutoff, maxBatches, gone, after)
    ensures Linked(after) && after.conversations.Keys <= db.conversations.Keys
    ensures forall m :: m in after.messages <==> m in db.messages && db.messages[m].conversation in after.conversations
    ensures forall m :: m in after.messages ==> after.messages[m] == db.messages[m]
    ensures KeepsRecords(db.leads, after.leads, after.conversations.Keys)
    ensures KeepsRecords(db.appointments, after.appointments, after.conversations.Keys)
  {
    hide IsBatch, Expired;
  }

  ghost predicate KeepsRecords(was: map<Id, Record>, after: map<Id, Record>, kept: set<Id>) {
    && was.Keys == after.Keys
    && forall l :: l in was ==>
         && after[l].tenant == was[l].tenant && after[l].fields == was[l].fields
         && after[l].conversation ==
              if was[l].conversation.Some? && was[l].conversation.value in kept then was[l].conversation else None
  }

  // Older than the tenant's retention, in seconds.
  predicate IsOld(c: Conversation, tenant: Id, now: int, retentionDays: int) {
    c.tenant == tenant && now - c.createdAt > retentionDays * 86_400
  }

  // A run takes conversations of the tenant that are older than its retention, the oldest first, 500 a
  // batch; it leaves one of these only when it has used up its batches. All others stay as they are.
  lemma PurgeTakesOldest(db: Db, tenant: Id, now: int, retentionDays: int, maxBatches: int, gone: set<Id>, after: Db)
    requires PurgedTo(db, tenant, Cutoff(now, retentionDays), maxBatches, gone, after)
    ensures |gone| <= 500 * Max(maxBatches, 0)
    ensures forall c :: c in gone ==> c in db.conversations && IsOld(db.conversations[c], tenant, now, retentionDays)
    ensures forall c ::
              c in db.conversations && c !in gone && IsOld(db.conversations[c], tenant, now, retentionDays) ==>
              |gone| == 500 * Max(maxBatches, 0)
              && forall g :: g in gone ==> db.conversations[g].createdAt <= db.conversations[c].createdAt
    ensures forall c :: c in after.conversations <==> c in db.conversations && c !in gone
    ensures forall c :: c in after.conversations ==> after.conversations[c] == db.conversations[c]
  {
    var due := Expired(db, tenant, Cutoff(now, retentionDays));
    if |due| <= Ceiling(maxBatches) {
      AllTaken(db, due, Ceiling(maxBatches), gone);
    }
  }

  // Nothing of another tenant changes, and of this one no conversation that has not expired.
  lemma PurgeStaysInTenant(db: Db, tenant: Id, cutoff: int, maxBatches: int, gone: set<Id>, after: Db)
    requires Linked(db) && PurgedTo(db, tenant, cutoff, maxBatches, gone, after)
    ensures forall c :: c in db.conversations
                        && (db.conversations[c].tenant != tenant || db.conversations[c].createdAt >= cutoff) ==>
                          c in after.conversations && after.conversations[c] == db.conversations[c]
    ensures forall m :: m in db.messages && db.messages[m].tenant != tenant ==>
                          m in after.messages && after.messages[m] == db.messages[m]
    ensures forall l :: l in db.leads && db.leads[l].tenant != tenant ==>
                          l in after.leads && after.leads[l] == db.leads[l]
    ensures forall l :: l in db.appointments && db.appointments[l].tenant != tenant ==>
                          l in after.appointments && after.appointments[l] == db.appointments[l]
  {
    hide IsBatch;
    DueIsStored(db, tenant, cutoff);
    BatchIsPart(db, Expired(db, tenant, cutoff), Ceiling(maxBatches), gone);
  }

  // The links a run cut, and the messages it deleted.
  function Detached(was: map<Id, Record>, after: map<Id, Record>): set<Id> {
    set l | l in was && l in after && was[l].conversation != after[l].conversation
  }

  function LinksTo(rows: map<Id, Record>, pool: set<Id>): set<Id> {
    set l | l in rows && rows[l].conversation.Some? && rows[l].conversation.value in pool
  }

  lemma DetachedAreLinks(rows: map<Id, Record>, gone: set<Id>)
    ensures Detached(rows, DetachAll(rows, gone)) == LinksTo(rows, gone)
  {
  }

  lemma ExpiredLeadsAreLinks(db: Db, tenant: Id, cutoff: int)
    requires Linked(db)
    ensures ExpiredLeads(db, tenant, cutoff) == LinksTo(db.leads, Expired(db, tenant, cutoff))
  {
  }

  // Nothing expired is left exactly when no more had expired than the run may delete.
  lemma RemainsIff(db: Db, tenant: Id, cutoff: int, maxBatches: int, gone: set<Id>, after: Db)
    requires PurgedTo(db, tenant, cutoff, maxBatches, gone, after)
    ensures Expired(after, tenant, cutoff) == {} <==> |Expired(db, tenant, cutoff)| <= Ceiling(maxBatches)
    ensures |Expired(after, tenant, cutoff)| == Max(0, |Expired(db, tenant, cutoff)| - Ceiling(maxBatches))
  {
    hide Delete, Oldest;
    var due := Expired(db, tenant, cutoff);
    ExpiredAfter(db, tenant, cutoff, gone);
    assert gone <= due by { OldestIsPart(db, due, gone); }
    assert |due| == |gone| + |due - gone|;
  }

  // Main result: the flag of the report says whether anything expired is left, exactly when the number
  // that had expired is not the number a run may delete. (It never claims too much.)
  lemma CompleteIff(db: Db, tenant: Id, cutoff: int, maxBatches: int, gone: set<Id>, after: Db)
    requires PurgedTo(db, tenant, cutoff, maxBatches, gone, after)
    ensures (SaysComplete(db, tenant, cutoff, maxBatches) <==> Expired(after, tenant, cutoff) == {})
            <==> |Expired(db, tenant, cutoff)| != Ceiling(maxBatches)
    ensures SaysComplete(db, tenant, cutoff, maxBatches) ==> Expired(after, tenant, cutoff) == {}
  {
    hide Expired, PurgedTo;
    RemainsIff(db, tenant, cutoff, maxBatches, gone, after);
  }

  // As many conversations as a run may delete: every such run clears them all and says that more remains.
  lemma FullRunSaysIncomplete(maxBatches: int, gone: set<Id>, after: Db)
    requires var n := Ceiling(maxBatches);
             PurgedTo(Db(Pile(n), map[], map[], map[]), 1, n, maxBatches, gone, after)
    ensures var n := Ceiling(maxBatches);
            var db := Db(Pile(n), map[], map[], map[]);
            && Linked(db) && after.conversations == map[]
            && Expired(after, 1, n) == {} && !SaysComplete(db, 1, n, maxBatches)
  {
    hide Ceiling, Below;
    var n := Ceiling(maxBatches);
    var db := Db(Pile(n), map[], map[], map[]);
    assert Expired(db, 1, n) == Below(n);
    AllTaken(db, Below(n), n, gone);
    assert db.conversations.Keys == gone;
  }

  lemma OldestIsPart(db: Db, pool: set<Id>, taken: set<Id>)
    requires pool <= db.conversations.Keys && Oldest(db, pool, taken)
    ensures taken <= pool
  {
  }

  lemma AllTaken(db: Db, pool: set<Id>, n: nat, batch: set<Id>)
    requires pool <= db.conversations.Keys && IsBatch(db, pool, n, batch) && |pool| <= n
    ensures batch == pool
  {
    assert |pool| == |batch| + |pool - batch|;
  }

  // A complete run deleted just what the dry run announced, and cut just the links it announced.
  lemma CompleteMatchesPreview(db: Db, tenant: Id, cutoff: int, maxBatches: int, gone: set<Id>, after: Db)
    requires Linked(db) && PurgedTo(db, tenant, cutoff, maxBatches, gone, after)
    requires |Expired(db, tenant, cutoff)| < Ceiling(maxBatches)
    ensures CountExpiring(db, tenant, cutoff)
            == Preview(|db.conversations.Keys - after.conversations.Keys|,
                       |db.messages.Keys - after.messages.Keys|,
                       |Detached(db.leads, after.leads)|)
    ensures CountExpiring(after, tenant, cutoff) == Preview(0, 0, 0)
  {
    hide Oldest, Linked, Detached, LinksTo, ExpiredLeads, ExpiredMessages, Expired, DetachAll;
    DueIsStored(db, tenant, cutoff);
    AllTaken(db, Expired(db, tenant, cutoff), Ceiling(maxBatches), gone);
    DeletedKeys(db, tenant, cutoff);
    DetachedAreLinks(db.leads, gone);
    ExpiredLeadsAreLinks(db, tenant, cutoff);
    NothingExpires(db, tenant, cutoff);
  }

  lemma DeletedKeys(db: Db, tenant: Id, cutoff: int)
    ensures var after := Delete(db, Expired(db, tenant, cutoff));
            && db.conversations.Keys - after.conversations.Keys == Expired(db, tenant, cutoff)
            && db.messages.Keys - after.messages.Keys == ExpiredMessages(db, tenant, cutoff)
  {
  }

  lemma NothingExpires(db: Db, tenant: Id, cutoff: int)
    ensures CountExpiring(Delete(db, Expired(db, tenant, cutoff)), tenant, cutoff) == Preview(0, 0, 0)
  {
    var after := Delete(db, Expired(db, tenant, cutoff));
    assert Expired(after, tenant, cutoff) == {};
    assert ExpiredMessages(after, tenant, cutoff) == {};
    assert ExpiredLeads(after, tenant, cutoff) == {};
  }

  // What one run reports of links cut, against what it cut: the report counts the links to every
  // expired conversation, so it is right when no lead points at one that stayed.
  lemma LinksOfOneRun(db: Db, tenant: Id, cutoff: int, maxBatches: int, gone: set<Id>, after: Db)
    requires Linked(db) && PurgedTo(db, tenant, cutoff, maxBatches, gone, after)
    ensures gone <= Expired(db, tenant, cutoff)
    ensures ReportIsRight(db, tenant, cutoff, after)
            <==> forall l :: l in db.leads && db.leads[l].conversation.Some? ==>
                   db.leads[l].conversation.value !in Expired(db, tenant, cutoff) - gone
  {
    hide IsBatch, Linked, Detached, ExpiredLeads, DetachAll, Expired;
    DueIsStored(db, tenant, cutoff);
    BatchIsPart(db, Expired(db, tenant, cutoff), Ceiling(maxBatches), gone);
    DetachedAreLinks(db.leads, gone);
    ExpiredLeadsAreLinks(db, tenant, cutoff);
    LinksSplit(db.leads, Expired(db, tenant, cutoff), gone);
  }

  // The number of detached leads Purge reports is the number it detached.
  ghost predicate ReportIsRight(db: Db, tenant: Id, cutoff: int, after: Db) {
    CountExpiring(db, tenant, cutoff).leadsDetached == |Detached(db.leads, after.leads)|
  }

  // The others of the pool that are no newer than c: any of them may be deleted before it.
  function NoNewer(db: Db, pool: set<Id>, c: Id): set<Id>
    requires pool <= db.conversations.Keys && c in pool
  {
    set y | y in pool && y != c && db.conversations[y].createdAt <= db.conversations[c].createdAt
  }

  lemma TakenAreNoNewer(db: Db, pool: set<Id>, n: nat, batch: set<Id>, c: Id)
    requires pool <= db.conversations.Keys && c in pool && IsBatch(db, pool, n, batch) && c !in batch
    ensures |NoNewer(db, pool, c)| >= n
  {
    assert batch <= NoNewer(db, pool, c);
    SubsetSize(batch, NoNewer(db, pool, c));
    if |pool| <= n {
      AllTaken(db, pool, n, batch);
    }
  }

  lemma {:induction false} BatchExists(db: Db, pool: set<Id>, n: nat) returns (batch: set<Id>)
    requires pool <= db.conversations.Keys
    ensures IsBatch(db, pool, n, batch)
    decreases n
  {
    if n == 0 || pool == {} {
      batch := {};
    } else {
      var x := EarliestExists(db, pool);
      var rest := BatchExists(db, pool - {x}, n - 1);
      batch := {x} + rest;
      assert pool - batch == (pool - {x}) - rest;
    }
  }

  // With n others no newer than c, some choice of ties leaves c behind.
  lemma SomeBatchLeaves(db: Db, pool: set<Id>, n: nat, c: Id) returns (batch: set<Id>)
    requires pool <= db.conversations.Keys && c in pool && |NoNewer(db, pool, c)| >= n
    ensures IsBatch(db, pool, n, batch) && c !in batch
  {
    var others := pool - {c};
    var older := NoNewer(db, pool, c);
    batch := BatchExists(db, others, n);
    assert older <= others;
    SubsetSize(older, others);
    forall x | x in batch ensures db.conversations[x].createdAt <= db.conversations[c].createdAt {
      if x !in older {
        OlderGoFirst(db, others, older, batch, x);
        assert older + {x} <= batch;
        SubsetSize(older + {x}, batch);
      }
    }
    assert pool - batch == (others - batch) + {c};
  }

  lemma OlderGoFirst(db: Db, others: set<Id>, older: set<Id>, batch: set<Id>, x: Id)
    requires others <= db.conversations.Keys && older <= others && Oldest(db, others, batch) && x in batch
    requires forall y :: y in older ==> db.conversations[y].createdAt < db.conversations[x].createdAt
    ensures older <= batch
  {
  }

  // Main result: the report is right whichever of equally old conversations the run takes, exactly
  // when every lead that points at an expired conversation has fewer others no newer than it than
  // the run may delete. In particular when no more have expired than that.
  lemma ReportedLinksIff(db: Db, tenant: Id, cutoff: int, maxBatches: int)
    requires Linked(db)
    ensures Expired(db, tenant, cutoff) <= db.conversations.Keys
    ensures (forall gone, after :: PurgedTo(db, tenant, cutoff, maxBatches, gone, after) ==>
               ReportIsRight(db, tenant, cutoff, after))
            <==> forall l :: l in LinksTo(db.leads, Expired(db, tenant, cutoff)) ==>
                   |NoNewer(db, Expired(db, tenant, cutoff), db.leads[l].conversation.value)| < Ceiling(maxBatches)
  {
    hide IsBatch, Linked, Expired, ReportIsRight, NoNewer, Delete;
    DueIsStored(db, tenant, cutoff);
    var due, n := Expired(db, tenant, cutoff), Ceiling(maxBatches);
    if l :| l in LinksTo(db.leads, due) && |NoNewer(db, due, db.leads[l].conversation.value)| >= n {
      var gone := SomeBatchLeaves(db, due, n, db.leads[l].conversation.value);
      assert PurgedTo(db, tenant, cutoff, maxBatches, gone, Delete(db, gone));
      LinksOfOneRun(db, tenant, cutoff, maxBatches, gone, Delete(db, gone));
    } else {
      forall gone, after | PurgedTo(db, tenant, cutoff, maxBatches, gone, after)
        ensures ReportIsRight(db, tenant, cutoff, after)
      {
        LinksOfOneRun(db, tenant, cutoff, maxBatches, gone, after);
        forall l | l in db.leads && db.leads[l].conversation.Some?
          ensures db.leads[l].conversation.value !in due - gone
        {
          var c := db.leads[l].conversation.value;
          assert c in due ==> l in LinksTo(db.leads, due);
          if c in due && c !in gone {
            TakenAreNoNewer(db, due, n, gone, c);
          }
        }
      }
    }
  }

  function Below(n: nat): (ids: set<Id>)
    ensures |ids| == n && forall c: Id :: c in ids <==> c < n
  {
    if n == 0 then {} else Below(n - 1) + {n - 1}
  }

  // n conversations, each a second older than the next.
  function Pile(n: nat): map<Id, Conversation> {
    map c | c in Below(n) :: Conversation(1, c)
  }

  // One conversation more than a run may delete, and a lead of the newest.
  function OneTooMany(n: nat): Db {
    Db(Pile(n + 1), map[], map[0 := Record(1, Some(n), "")], map[])
  }

  // Every such run reports one detached lead, and detaches none.
  lemma ReportIsWrong(maxBatches: int, gone: set<Id>, after: Db)
    requires var n := Ceiling(maxBatches); PurgedTo(OneTooMany(n), 1, n + 1, maxBatches, gone, after)
    ensures var n := Ceiling(maxBatches);
            var db := OneTooMany(n);
            && Linked(db)
            && CountExpiring(db, 1, n + 1).leadsDetached == 1 && Detached(db.leads, after.leads) == {}
            && !ReportIsRight(db, 1, n + 1, after)
  {
    hide Ceiling, Expired, Delete, Below;
    var n := Ceiling(maxBatches);
    var db := OneTooMany(n);
    AllExpire(n);
    NewestStays(db, Below(n + 1), gone, n);
    DetachedOf(db, gone);
    assert ExpiredLeads(db, 1, n + 1) == {0};
  }

  // Of one conversation too many the newest is the one left.
  lemma NewestStays(db: Db, pool: set<Id>, gone: set<Id>, n: Id)
    requires pool <= db.conversations.Keys && Oldest(db, pool, gone) && |gone| < |pool| && n in pool
    requires forall c :: c in pool && c != n ==> db.conversations[c].createdAt < db.conversations[n].createdAt
    ensures n !in gone
  {
    assert |pool| == |gone| + |pool - gone|;
    var y :| y in pool - gone;
  }

  lemma DetachedOf(db: Db, gone: set<Id>)
    ensures Detached(db.leads, Delete(db, gone).leads) == LinksTo(db.leads, gone)
  {
    DetachedAreLinks(db.leads, gone);
  }

  lemma AllExpire(n: nat)
    ensures Expired(OneTooMany(n), 1, n + 1) == Below(n + 1)
  {
    hide Below;
  }

  lemma LinksSplit(rows: map<Id, Record>, pool: set<Id>, gone: set<Id>)
    requires gone <= pool
    ensures |LinksTo(rows, pool)| == |LinksTo(rows, gone)|
            <==> forall l :: l in rows && rows[l].conversation.Some? ==> rows[l].conversation.value !in pool - gone
  {
    var all, cut, rest := LinksTo(rows, pool), LinksTo(rows, gone), LinksTo(rows, pool - gone);
    assert all == cut + rest && cut !! rest;
    assert rest == {} <==> forall l :: l in rows && rows[l].conversation.Some? ==> l !in rest;
  }

  lemma BatchIsPart(db: Db, pool: set<Id>, n: nat, batch: set<Id>)
    requires pool <= db.conversations.Keys && IsBatch(db, pool, n, batch)
    ensures batch <= pool
  {
  }

  // Running again at the same cutoff after a complete run changes nothing.
  lemma RerunIsIdle(db: Db, tenant: Id, cutoff: int, maxBatches: int, gone: set<Id>, after: Db,
                    again: int, gone2: set<Id>, after2: Db)
    requires PurgedTo(db, tenant, cutoff, maxBatches, gone, after)
    requires PurgedTo(after, tenant, cutoff, again, gone2, after2)
    requires |Expired(db, tenant, cutoff)| < Ceiling(maxBatches)
    ensures gone2 == {} && after2 == after
  {
    hide Delete, Oldest, Expired;
    RemainsIff(db, tenant, cutoff, maxBatches, gone, after);
    BatchIsPart(after, {}, Ceiling(again), gone2);
    DeleteNothing(after);
  }

  // Two runs in a row are one run with both ceilings, for whatever ties they broke.
  lemma RunsAddUp(db: Db, tenant: Id, cutoff: int, m: int, gone: set<Id>, mid: Db, n: int, gone2: set<Id>, after: Db)
    requires m >= 0 && n >= 0
    requires PurgedTo(db, tenant, cutoff, m, gone, mid) && PurgedTo(mid, tenant, cutoff, n, gone2, after)
    ensures PurgedTo(db, tenant, cutoff, m + n, gone + gone2, after)
  {
    hide Delete, Oldest, Expired;
    var due := Expired(db, tenant, cutoff);
    DueIsStored(db, tenant, cutoff);
    DueIsStored(mid, tenant, cutoff);
    OldestIsPart(db, due, gone);
    ExpiredAfter(db, tenant, cutoff, gone);
    BatchAfter(db, due, gone, gone2, Ceiling(n));
  }

  // ---------------------------------------------------------------- erasing a tenant

  datatype Table = Messages | Leads | Appointments | Conversations | Chunks | Documents
                 | EvalRuns | EvalDatasets | TenantCredentials | JobQueue | Locations
                 | Other(name: string)

  const TABLES := [Messages, Leads, Appointments, Conversations, Chunks, Documents,
                   EvalRuns, EvalDatasets, TenantCredentials, JobQueue, Locations]

  // Every table that has a tenant_id: its rows, each with its tenant.
  type Rows = map<Table, map<Id, Id>>

  function Of(rows: Rows, table: Table, tenant: Id): set<Id> {
    if table in rows then set r | r in rows[table] && rows[table][r] == tenant else {}
  }

  // Deleting the tenant cascades to every row it still owns, in every table.
  function WithoutTenant(rows: Rows, tenant: Id): Rows {
    map t | t in rows :: map r | r in rows[t] && rows[t][r] != tenant :: rows[t][r]
  }

  // The tables whose rows go with a row of this one, by ON DELETE CASCADE.
  function Cascades(table: Table): set<Table> {
    match table
    case Conversations => {Messages}
    case Appointments => {Other("reminders")}
    case Documents => {Chunks}
    case Locations => {Documents, Chunks}
    case _ => {}
  }

  // Deleting these rows of the tenant, and those of its rows that hang on them.
  function Cascaded(rows: Rows, table: Table, ids: set<Id>, tenant: Id, hangs: (Table, set<Id>, Table) -> set<Id>)
    : Rows
  {
    map t | t in rows ::
      if t == table then rows[t] - ids
      else if t in Cascades(table) then rows[t] - hangs(table, ids, t) * Of(rows, t, tenant)
      else rows[t]
  }

  // What hangs on what: messages on conversations, reminders on appointments, chunks on documents, and
  // documents and chunks on locations.
  lemma CascadesAre(parent: Table, child: Table)
    ensures child in Cascades(parent)
            <==> || (parent == Conversations && child == Messages)
                 || (parent == Appointments && child == Other("reminders"))
                 || (parent == Documents && child == Chunks)
                 || (parent == Locations && (child == Documents || child == Chunks))
  {
  }

  // The place of a table in the order of erasure, -1 if it is left to the final cascade.
  function Place(table: Table): int {
    match table
    case Messages => 0
    case Leads => 1
    case Appointments => 2
    case Conversations => 3
    case Chunks => 4
    case Documents => 5
    case EvalRuns => 6
    case EvalDatasets => 7
    case TenantCredentials => 8
    case JobQueue => 9
    case Locations => 10
    case Other(_) => -1
  }

  lemma PlaceOf(i: nat)
    requires i < |TABLES|
    ensures Place(TABLES[i]) == i
  {
  }

  // Children first: no cascade reaches a table that is still to be emptied and counted.
  lemma ChildrenGoFirst(table: Table, child: Table)
    requires child in Cascades(table)
    ensures Place(child) < Place(table)
  {
  }

  // What is left is exactly what belongs to others.
  lemma WithoutTenantMeaning(rows: Rows, tenant: Id)
    ensures var left := WithoutTenant(rows, tenant);
            && left.Keys == rows.Keys
            && forall t, r :: t in rows ==>
                 (r in left[t] <==> r in rows[t] && rows[t][r] != tenant) && (r in left[t] ==> left[t][r] == rows[t][r])
  {
  }

  datatype Erasure = Erasure(erased: map<Table, nat>, truncated: seq<Table>)

  class Tables {
    var rows: Rows
    const hangs: (Table, set<Id>, Table) -> set<Id>  // the rows of a table that hang on rows of another

    constructor (rows: Rows, hangs: (Table, set<Id>, Table) -> set<Id>)
      ensures this.rows == rows && this.hangs == hangs
    {
      this.rows, this.hangs := rows, hangs;
    }

    // One DELETE ... LIMIT, which may pick any rows of the tenant, and what it cascades to.
    method DeleteSome(table: Table, tenant: Id) returns (n: nat)
      modifies this
      ensures n == Min(|Of(old(rows), table, tenant)|, BATCH_SIZE)
      ensures |Of(rows, table, tenant)| == |Of(old(rows), table, tenant)| - n
      ensures forall t :: t != table && t !in Cascades(table) ==> Of(rows, t, tenant) == Of(old(rows), t, tenant)
      ensures forall t :: Of(rows, t, tenant) <= Of(old(rows), t, tenant)
      ensures WithoutTenant(rows, tenant) == WithoutTenant(old(rows), tenant)
    {
      ghost var before := rows;
      var ids := PickSome(Of(rows, table, tenant), BATCH_SIZE);
      n := |ids|;
      if table in rows {
        rows := Cascaded(rows, table, ids, tenant, hangs);
        RowsSpare(before, table, ids, tenant, hangs);
      }
    }

    // A table is reported truncated exactly when it held as many rows as a run may delete, or more.
    // Its rows are gone either way: the tenant's own row goes last, and cascades.
    method EraseTenant(tenant: Id, maxBatches: int) returns (r: Erasure)
      modifies this
      ensures rows == WithoutTenant(old(rows), tenant)
      ensures r.erased.Keys == set t | t in TABLES
      ensures forall t :: t in TABLES ==> r.erased[t] == Min(|Of(old(rows), t, tenant)|, Ceiling(maxBatches))
      ensures forall t :: t in r.truncated <==> t in TABLES && |Of(old(rows), t, tenant)| >= Ceiling(maxBatches)
    {
      hide Of, WithoutTenant, Place, Cascades;
      ghost var before := rows;
      var removed: map<Table, nat> := map[];
      var truncated: seq<Table> := [];
      for i := 0 to |TABLES|
        invariant WithoutTenant(rows, tenant) == WithoutTenant(before, tenant)
        invariant forall t :: Place(t) >= i ==> Of(rows, t, tenant) == Of(before, t, tenant)
        invariant removed.Keys == set t | t in TABLES[..i]
        invariant forall t :: t in removed ==> removed[t] == Min(|Of(before, t, tenant)|, Ceiling(maxBatches))
        invariant forall t :: t in truncated <==> t in TABLES[..i] && |Of(before, t, tenant)| >= Ceiling(maxBatches)
      {
        var table := TABLES[i];
        PlaceOf(i);
        forall child | child in Cascades(table) ensures Place(child) < i {
          ChildrenGoFirst(table, child);
        }
        var total, full := EraseTable(table, tenant, maxBatches);
        if full {
          truncated := truncated + [table];
        }
        removed := removed[table := total];
        assert TABLES[..i + 1] == TABLES[..i] + [table];
      }
      assert TABLES[..|TABLES|] == TABLES;
      rows := WithoutTenant(rows, tenant);
      r := Erasure(removed, truncated);
    }

    // The bounded loop over one table, and whether it ran to its bound.
    method EraseTable(table: Table, tenant: Id, maxBatches: int) returns (total: nat, full: bool)
      modifies this
      ensures total == Min(|Of(old(rows), table, tenant)|, Ceiling(maxBatches))
      ensures full <==> |Of(old(rows), table, tenant)| >= Ceiling(maxBatches)
      ensures forall t :: t != table && t !in Cascades(table) ==> Of(rows, t, tenant) == Of(old(rows), t, tenant)
      ensures forall t :: Of(rows, t, tenant) <= Of(old(rows), t, tenant)
      ensures WithoutTenant(rows, tenant) == WithoutTenant(old(rows), tenant)
    {
      hide Of, WithoutTenant;
      ghost var owned := |Of(rows, table, tenant)|;
      var batches := 0;
      total, full := 0, true;
      while batches < maxBatches && full
        invariant 0 <= batches <= Max(maxBatches, 0)
        invariant forall t :: t != table && t !in Cascades(table) ==> Of(rows, t, tenant) == Of(old(rows), t, tenant)
        invariant forall t :: Of(rows, t, tenant) <= Of(old(rows), t, tenant)
        invariant WithoutTenant(rows, tenant) == WithoutTenant(old(rows), tenant)
        invariant |Of(rows, table, tenant)| == owned - total
        invariant total == if full then batches * BATCH_SIZE else owned
        invariant !full ==> owned < batches * BATCH_SIZE
        decreases maxBatches - batches, full
      {
        var n := DeleteSome(table, tenant);
        total := total + n;
        batches := batches + 1;
        if n < BATCH_SIZE {
          full := false;
        }
      }
    }
  }

  // LIMIT n without an ORDER BY: any n of them.
  method PickSome(all: set<Id>, n: nat) returns (ids: set<Id>)
    ensures ids <= all && |ids| == Min(|all|, n) && |all - ids| == |all| - |ids|
  {
    ids := {};
    var left := all;
    while left != {} && |ids| < n
      invariant ids <= all && left == all - ids && |ids| <= n
      decreases left
    {
      var id :| id in left;
      ids := ids + {id};
      left := left - {id};
    }
    assert |all| == |ids| + |all - ids|;
  }

  lemma RowsSpare(before: Rows, table: Table, ids: set<Id>, tenant: Id, hangs: (Table, set<Id>, Table) -> set<Id>)
    requires table in before && ids <= Of(before, table, tenant)
    ensures var after := Cascaded(before, table, ids, tenant, hangs);
            && Of(after, table, tenant) == Of(before, table, tenant) - ids
            && (forall t :: t != table && t !in Cascades(table) ==> Of(after, t, tenant) == Of(before, t, tenant))
            && (forall t :: Of(after, t, tenant) <= Of(before, t, tenant))
            && WithoutTenant(after, tenant) == WithoutTenant(before, tenant)
  {
    hide Cascades, WithoutTenant;
    OthersSpared(before, table, ids, tenant, hangs);
  }

  lemma OthersSpared(before: Rows, table: Table, ids: set<Id>, tenant: Id, hangs: (Table, set<Id>, Table) -> set<Id>)
    requires table in before && ids <= Of(before, table, tenant)
    ensures WithoutTenant(Cascaded(before, table, ids, tenant, hangs), tenant) == WithoutTenant(before, tenant)
  {
    hide Cascades;
    var after := Cascaded(before, table, ids, tenant, hangs);
    var x, y := WithoutTenant(after, tenant), WithoutTenant(before, tenant);
    forall t | t in x ensures x[t] == y[t] {
      forall r | r in before[t] && before[t][r] != tenant ensures r in after[t] {
      }
      assert x[t].Keys == y[t].Keys;
    }
    assert x.Keys == y.Keys;
  }
}
