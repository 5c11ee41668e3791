/** Idempotency over whole runs: one receipt and one event per (tenant, client, key), and a repeated
    command answered from its receipt for ever after.
 */
module ExactlyOnce {
  import opened Domain
  import opened Folding
  import opened FoldInvariants
  import opened LiveProjection
  import opened Mutations
  import opened MutationSafety
  import opened CandidateLifecycle
  import opened MutationRuns

  // ---------------------------------------------------------------- receipts

  predicate SameKey(a: Receipt, b: Receipt) {
    a.tenant == b.tenant && a.client == b.client && a.key == b.key
  }

  ghost predicate OneReceiptPerKey(receipts: seq<Receipt>) {
    forall i, j :: 0 <= i < j < |receipts| ==> !SameKey(receipts[i], receipts[j])
  }

  predicate SameEventKey(a: Event, b: Event) {
    a.owner.tenant == b.owner.tenant && a.client == b.client && a.idempotencyKey == b.idempotencyKey
  }

  ghost predicate OneEventPerKey(events: seq<Event>) {
    forall i, j :: 0 <= i < j < |events| ==> !SameEventKey(events[i], events[j]) && events[i].id != events[j].id
  }

  /** Every receipt that names an event is backed by it, under the same key; the promotion a nomination brings about is
      recorded under an internal key of its own. */
  ghost predicate ReceiptsBacked(db: Db) {
    forall r :: r in db.receipts && r.result.event.Some? ==> exists e :: e in db.events && Backs(e, r)
  }

  predicate Backs(e: Event, r: Receipt) {
    && Some(e.id) == r.result.event && e.owner.tenant == r.tenant
    && (e.operation != CandidatePromoted ==> e.client == r.client && e.idempotencyKey == r.key)
  }

  ghost predicate Ledgered(db: Db) {
    OneReceiptPerKey(db.receipts) && OneEventPerKey(db.events) && ReceiptsBacked(db)
  }

  lemma {:induction false} FoundReceipt(receipts: seq<Receipt>, principal: Principal, key: string)
    ensures match FindReceipt(receipts, principal, key)
            case Some(r) => r in receipts && Keyed(r, principal, key)
            case None => forall r :: r in receipts ==> !Keyed(r, principal, key)
    decreases |receipts|
  {
    if receipts != [] {
      FoundReceipt(receipts[1..], principal, key);
      assert receipts == [receipts[0]] + receipts[1..];
    }
  }

  /** With one receipt per key, the lookup finds the receipt wherever it is. */
  lemma LookupFinds(receipts: seq<Receipt>, principal: Principal, r: Receipt)
    requires OneReceiptPerKey(receipts) && r in receipts
    requires Keyed(r, principal, r.key)
    ensures FindReceipt(receipts, principal, r.key) == Some(r)
  {
    FoundReceipt(receipts, principal, r.key);
    var i :| 0 <= i < |receipts| && receipts[i] == r;
    var found := FindReceipt(receipts, principal, r.key).value;
    var j :| 0 <= j < |receipts| && receipts[j] == found;
    assert SameKey(receipts[i], receipts[j]) && SameKey(receipts[j], receipts[i]);
  }

  // ---------------------------------------------------------------- what each step may add

  /** Log and receipts grow by at most one entry each, under a fresh key. */
  ghost predicate LedgerGrows(db: Db, next: Db) {
    && (next.events == db.events || exists e :: NewEvent(db, e) && next.events == db.events + [e])
    && (next.receipts == db.receipts || exists r :: ReceiptFree(db.receipts, r) && next.receipts == db.receipts + [r]
                                                    && (r.result.event.Some? ==>
                                                         exists e :: next.events == db.events + [e] && Backs(e, r)))
  }

  ghost predicate NewEvent(db: Db, e: Event) {
    e.id !in db.live.eventScopes && !KeyTaken(db.events, e.owner.tenant, e.client, e.idempotencyKey)
  }

  lemma AppendedIsNew(db: Db, e: Event)
    requires Append(db, e).Ok?
    ensures NewEvent(db, e) && Append(db, e).value.events == db.events + [e]
    ensures Append(db, e).value == db.(live := Append(db, e).value.live, events := db.events + [e])
  {
  }

  /** An attempt that changes anything is the commit of what it prepared, past the gate and with no receipt. */
  lemma AttemptCommits(db: Db, principal: Principal, command: Command, ids: Identities, now: Time)
    ensures var next := Attempt(db, principal, command, ids, now).1;
            next != db ==>
              && Gate(db, principal, command).Ok?
              && FindReceipt(db.receipts, principal, command.idempotencyKey).None?
              && Prepare(db, command, Gate(db, principal, command).value, ids.aggregate, now).Ok?
              && Commit(db, principal, command, Gate(db, principal, command).value,
                        Prepare(db, command, Gate(db, principal, command).value, ids.aggregate, now).value, ids, now)
                          == Ok(next)
  {
  }

  lemma AppendKeepsBranches(db: Db, e: Event)
    requires Append(db, e).Ok?
    ensures Append(db, e).value.live.branches == db.live.branches
  {
  }

  /** What a corroboration does. */
  lemma CorroborateShape(db: Db, c: Corroboration)
    ensures var next, e := CorroborateNext(db, c), c.event;
            next == db ||
            (&& Corroborable(db, c) && Append(db, e).Ok? && NewEvent(db, e)
             && next.live == Append(db, e).value.live && next.events == db.events + [e]
             && next.live.branches == db.live.branches && next.directory == db.directory && next.keys == db.keys
             && next.receipts == db.receipts + [c.receipt]
             && next.jobs == db.jobs + LifecycleJobs(e.payload.memory.owner.tenant, e, e.payload.memory, c.ids))
  {
    if Corroborable(db, c) && Append(db, c.event).Ok? {
      AppendedIsNew(db, c.event);
      AppendKeepsBranches(db, c.event);
    }
  }

  /** What a commit does outside the live tables. */
  lemma CommitShape(db: Db, principal: Principal, command: Command, owner: Owner, prepared: Prepared, ids: Identities,
      now: Time)
    requires Commit(db, principal, command, owner, prepared, ids, now).Ok?
    ensures var e := EventOf(db, principal, command, owner, prepared, ids.event, now);
            var specs := ScheduledJobs(command.body, e, prepared.resultMemory, prepared.resultRevision);
            var next := Commit(db, principal, command, owner, prepared, ids, now).value;
            && NewEvent(db, e)
            && |specs| <= |ids.jobs| && next.jobs == db.jobs + Enqueued(specs, ids.jobs, principal.tenant)
            && next.events == db.events + [e]
            && next.live.branches == db.live.branches && next.directory == db.directory
            && next.receipts == db.receipts + [ReceiptOf(principal, command, owner, prepared, ids)]
            && next.keys == if HardForget(command.body) && prepared.resultMemory.Some?
                            then RequestDestruction(db.keys, owner, prepared.resultMemory.value, now) else db.keys
  {
    var e := EventOf(db, principal, command, owner, prepared, ids.event, now);
    CommitAppends(db, principal, command, owner, prepared, ids, now);
    AppendedIsNew(db, e);
    AppendKeepsBranches(db, e);
  }

  lemma AttemptGrows(db: Db, principal: Principal, command: Command, ids: Identities, now: Time)
    ensures LedgerGrows(db, Attempt(db, principal, command, ids, now).1)
  {
    AttemptCommits(db, principal, command, ids, now);
    if Attempt(db, principal, command, ids, now).1 != db {
      var owner := Gate(db, principal, command).value;
      var prepared := Prepare(db, command, owner, ids.aggregate, now).value;
      GateOwner(db, principal, command);
      FoundReceipt(db.receipts, principal, command.idempotencyKey);
      CommitGrows(db, principal, command, owner, prepared, ids, now);
    }
  }

  lemma CommitGrows(db: Db, principal: Principal, command: Command, owner: Owner, prepared: Prepared, ids: Identities,
      now: Time)
    requires Commit(db, principal, command, owner, prepared, ids, now).Ok?
    requires owner.tenant == principal.tenant
    requires forall r :: r in db.receipts ==> !Keyed(r, principal, command.idempotencyKey)
    ensures LedgerGrows(db, Commit(db, principal, command, owner, prepared, ids, now).value)
  {
    var e := EventOf(db, principal, command, owner, prepared, ids.event, now);
    CommitShape(db, principal, command, owner, prepared, ids, now);
    var r := ReceiptOf(principal, command, owner, prepared, ids);
    assert Backs(e, r) && ReceiptFree(db.receipts, r);
  }

  lemma LifecycleGrows(db: Db, principal: Principal, request: Request, op: LifecycleOp, ids: LifecycleIds, facts: Facts,
      now: Time)
    ensures LedgerGrows(db, LifecycleAttempt(db, principal, request, op, ids, facts, now).1)
  {
    AttemptSettles(db, principal, request, op, ids, facts, now);
    if Movable(db, principal, request, op, facts, now) {
      var m := db.live.memories[request.memory];
      var reason := Evaluate(db, op, facts, m, now).1;
      SettleGrows(db, principal, request, op, m, ids, reason, now);
    }
  }

  lemma SettleGrows(db: Db, principal: Principal, request: Request, op: LifecycleOp, m: Memory, ids: LifecycleIds,
      reason: Reason, now: Time)
    ensures LedgerGrows(db, Settle(db, principal, request, op, m, ids, reason, now).1)
  {
    var e := LifecycleEvent(db, principal, request, op, m, ids, now);
    SettleAppends(db, principal, request, op, m, ids, reason, now);
    if Settle(db, principal, request, op, m, ids, reason, now).0.Moved? { AppendedIsNew(db, e); }
  }

  lemma NominateGrows(db: Db, n: Nomination)
    ensures LedgerGrows(db, NominateNext(db, n))
  {
    if Nominable(db, n) && Append(db, n.event).Ok? {
      AppendedIsNew(db, n.event);
      assert Backs(n.event, n.receipt);
    }
  }

  lemma CorroborateGrows(db: Db, c: Corroboration)
    ensures LedgerGrows(db, CorroborateNext(db, c))
  {
    CorroborateShape(db, c);
    if CorroborateNext(db, c) != db { assert Backs(c.event, c.receipt); }
  }

  lemma StepGrows(db: Db, step: Step)
    ensures LedgerGrows(db, Next(db, step))
  {
    match step {
      case Execute(principal, command, ids, now) => AttemptGrows(db, principal, command, ids, now);
      case Reassess(principal, request, op, ids, facts, now) =>
        LifecycleGrows(db, principal, request, op, ids, facts, now);
      case Nominate(n) => NominateGrows(db, n);
      case Corroborate(c) => CorroborateGrows(db, c);
      case _ =>
    }
  }

  // ---------------------------------------------------------------- one event and one receipt per key

  lemma FoldRecordsScope(p: Projection, q: Projection, e: Event)
    requires Fold(p, e) == Some(q)
    ensures q.eventScopes == p.eventScopes[e.id := e.owner]
  {
  }

  predicate ScopesKnow(scopes: map<Uuid, Owner>, log: seq<Event>) {
    forall i :: 0 <= i < |log| ==> log[i].id in scopes
  }

  lemma ScopesGrow(p: Projection, q: Projection, log: seq<Event>)
    requires log != [] && Fold(p, log[|log| - 1]) == Some(q) && ScopesKnow(p.eventScopes, log[..|log| - 1])
    ensures ScopesKnow(q.eventScopes, log)
  {
    var init := log[..|log| - 1];
    FoldRecordsScope(p, q, log[|log| - 1]);
    forall i | 0 <= i < |log| ensures log[i].id in q.eventScopes {
      if i < |init| { assert init[i] == log[i]; }
    }
  }

  /** The projection knows the identifiers of the log. */
  lemma {:induction false} ScopesAreEventIds(branches: map<Uuid, Branch>, log: seq<Event>)
    requires Rebuild(branches, log).Some?
    ensures ScopesKnow(Rebuild(branches, log).value.eventScopes, log)
    decreases |log|
  {
    if log != [] {
      var init := log[..|log| - 1];
      LastStep(branches, log);
      ScopesAreEventIds(branches, init);
      ScopesGrow(Rebuild(branches, init).value, Rebuild(branches, log).value, log);
    }
  }

  lemma EventKeysStayUnique(db: Db, e: Event)
    requires Sound(db) && OneEventPerKey(db.events) && NewEvent(db, e)
    ensures OneEventPerKey(db.events + [e])
  {
    var log := db.events + [e];
    ScopesAreEventIds(db.live.branches, db.events);
    forall i, j | 0 <= i < j < |log| ensures !SameEventKey(log[i], log[j]) && log[i].id != log[j].id {
      if j == |db.events| {
        assert log[i] == db.events[i] && db.events[i] in db.events;
      }
    }
  }

  lemma ReceiptsStayUnique(receipts: seq<Receipt>, r: Receipt)
    requires OneReceiptPerKey(receipts) && ReceiptFree(receipts, r)
    ensures OneReceiptPerKey(receipts + [r])
  {
    var longer := receipts + [r];
    forall i, j | 0 <= i < j < |longer| ensures !SameKey(longer[i], longer[j]) {
      if j == |receipts| { assert longer[i] in receipts; }
    }
  }

  lemma ReceiptsStayBacked(db: Db, next: Db)
    requires ReceiptsBacked(db) && LedgerGrows(db, next)
    ensures ReceiptsBacked(next)
  {
    forall r | r in next.receipts && r.result.event.Some? ensures exists e :: e in next.events && Backs(e, r) {
      if r in db.receipts {
        var e :| e in db.events && Backs(e, r);
        assert e in next.events;
      } else {
        var e :| next.events == db.events + [e] && Backs(e, r);
        assert e in next.events;
      }
    }
  }

  lemma StepKeepsLedger(db: Db, step: Step)
    requires Sound(db) && Ledgered(db)
    ensures Ledgered(Next(db, step))
  {
    var next := Next(db, step);
    StepGrows(db, step);
    if next.events != db.events {
      var e :| NewEvent(db, e) && next.events == db.events + [e];
      EventKeysStayUnique(db, e);
    }
    if next.receipts != db.receipts {
      var r :| ReceiptFree(db.receipts, r) && next.receipts == db.receipts + [r];
      ReceiptsStayUnique(db.receipts, r);
    }
    ReceiptsStayBacked(db, next);
  }

  /** In every run there is at most one receipt and one event per (tenant, client, key), and every receipt
      that names an event is backed by it. */
  lemma {:induction false} RunsAreLedgered(directory: Directory, branches: map<Uuid, Branch>, steps: seq<Step>)
    ensures Ledgered(Run(Start(directory, branches), steps))
    decreases |steps|
  {
    if steps != [] {
      var init := steps[..|steps| - 1];
      RunsAreLedgered(directory, branches, init);
      RunsAreSound(directory, branches, init);
      StepKeepsLedger(Run(Start(directory, branches), init), steps[|steps| - 1]);
    }
  }

  // ---------------------------------------------------------------- repeating a command

  lemma {:induction false} HistoryIsKept(db: Db, steps: seq<Step>)
    ensures db.receipts <= Run(db, steps).receipts
    ensures db.events <= Run(db, steps).events
    ensures forall b :: b in db.directory.branches ==>
              b in Run(db, steps).directory.branches
                && Run(db, steps).directory.branches[b].owner == db.directory.branches[b].owner
    decreases |steps|
  {
    if steps != [] {
      var init := steps[..|steps| - 1];
      HistoryIsKept(db, init);
      StepGrows(Run(db, init), steps[|steps| - 1]);
      DirectoryIsKept(Run(db, init), steps[|steps| - 1]);
    }
  }

  lemma DirectoryIsKept(db: Db, step: Step)
    ensures forall b :: b in db.directory.branches ==>
              b in Next(db, step).directory.branches
                && Next(db, step).directory.branches[b].owner == db.directory.branches[b].owner
  {
    if step.Execute? { AttemptKeepsDirectory(db, step.principal, step.command, step.ids, step.now); }
    if step.Reassess? {
      LifecycleKeepsDirectory(db, step.principal, step.request, step.op, step.lifecycleIds, step.facts, step.now);
    }
    if step.Nominate? { NominateKeepsDirectory(db, step.nomination); }
    if step.Corroborate? { CorroborateShape(db, step.corroboration); }
  }

  lemma AttemptKeepsDirectory(db: Db, principal: Principal, command: Command, ids: Identities, now: Time)
    ensures Attempt(db, principal, command, ids, now).1.directory == db.directory
  {
    AttemptCommits(db, principal, command, ids, now);
    if Attempt(db, principal, command, ids, now).1 != db {
      var owner := Gate(db, principal, command).value;
      CommitShape(db, principal, command, owner, Prepare(db, command, owner, ids.aggregate, now).value, ids, now);
    }
  }

  lemma LifecycleKeepsDirectory(db: Db, principal: Principal, request: Request, op: LifecycleOp, ids: LifecycleIds,
      facts: Facts, now: Time)
    ensures LifecycleAttempt(db, principal, request, op, ids, facts, now).1.directory == db.directory
  {
    AttemptSettles(db, principal, request, op, ids, facts, now);
  }

  lemma NominateKeepsDirectory(db: Db, n: Nomination)
    ensures NominateNext(db, n).directory == db.directory
  {
  }

  /** A committed command leaves its receipt. */
  lemma CommittedLeavesReceipt(db: Db, principal: Principal, command: Command, ids: Identities, now: Time)
    requires var (response, next) := Attempt(db, principal, command, ids, now); response.Success? && next != db
    ensures var (response, next) := Attempt(db, principal, command, ids, now);
            && Gate(db, principal, command).Ok? && !response.result.replay
            && Receipt(ids.receipt, principal.tenant, principal.client, command.idempotencyKey,
                       DigestOf(principal, Gate(db, principal, command).value.lineage, command),
                         response.result) in next.receipts
  {
  }

  /** The gate reads the owner of the branch out of the directory. */
  lemma GateOwner(db: Db, principal: Principal, command: Command)
    requires Gate(db, principal, command).Ok?
    ensures command.branch in db.directory.branches
    ensures Gate(db, principal, command).value == db.directory.branches[command.branch].owner
    ensures db.directory.branches[command.branch].owner.tenant == principal.tenant
  {
  }

  /** With its receipt in place, a command is answered from it: the same command with the stored result
      marked as a replay, any other with a refusal. The database does not change, and it does not matter
      whether the branch is closed by then. */
  lemma AnsweredFromReceipt(db: Db, principal: Principal, command: Command, ids: Identities, now: Time, r: Receipt)
    requires OneReceiptPerKey(db.receipts) && r in db.receipts && Keyed(r, principal, command.idempotencyKey)
    requires Gate(db, principal, command).Ok?
    ensures var same := r.digest == DigestOf(principal, Gate(db, principal, command).value.lineage, command);
            Attempt(db, principal, command, ids, now)
            == (if same then Success(r.result.(replay := true)) else Failed(IdempotencyKeyReused), db)
  {
    LookupFinds(db.receipts, principal, r);
  }

  /** Once a command has committed, then after any further run every caller that still passes the gate with
      the same identity and key gets the stored result for the same command, and a refusal for any command
      that differs in its persona, branch, causation, reason or body. */
  lemma CommittedOnce(
    directory: Directory, branches: map<Uuid, Branch>, earlier: seq<Step>,
    principal: Principal, command: Command, ids: Identities, now: Time,
    later: seq<Step>, again: Principal, repeated: Command, freshIds: Identities, moment: Time)
    requires var (response, next) := Attempt(Run(Start(directory, branches), earlier), principal, command, ids, now);
             response.Success? && next != Run(Start(directory, branches), earlier)
    requires var db := Run(Next(Run(Start(directory, branches), earlier), Execute(principal, command, ids, now)),
             later);
             Gate(db, again, repeated).Ok?
    requires again.tenant == principal.tenant && again.client == principal.client
    requires repeated.idempotencyKey == command.idempotencyKey
    ensures var first := Attempt(Run(Start(directory, branches), earlier), principal, command, ids, now).0;
            var db := Run(Next(Run(Start(directory, branches), earlier), Execute(principal, command, ids, now)), later);
            var same := again.actor == principal.actor && repeated == command.(session := repeated.session);
            && (same ==> Attempt(db, again, repeated, freshIds, moment) == (Success(first.result.(replay := true)), db))
            && (!same ==> Attempt(db, again, repeated, freshIds, moment) == (Failed(IdempotencyKeyReused), db))
  {
    var before := Run(Start(directory, branches), earlier);
    var step := Execute(principal, command, ids, now);
    var committed := Next(before, step);
    var db := Run(committed, later);
    CommittedLeavesReceipt(before, principal, command, ids, now);
    var lineage := Gate(before, principal, command).value.lineage;
    var r := Receipt(ids.receipt, principal.tenant, principal.client, command.idempotencyKey,
                     DigestOf(principal, lineage, command), Attempt(before, principal, command, ids, now).0.result);
    HistoryIsKept(committed, later);
    assert r in db.receipts;
    RunsConcatenate(Start(directory, branches), earlier, step, later);
    RunsAreLedgered(directory, branches, earlier + [step] + later);
    AnsweredFromReceipt(db, again, repeated, freshIds, moment, r);
    GateOwner(before, principal, command);
    GateOwner(db, again, repeated);
    DirectoryIsKept(before, step);
  }

  lemma RunGrows(db: Db, steps: seq<Step>, step: Step)
    ensures Run(db, steps + [step]) == Next(Run(db, steps), step)
  {
    assert (steps + [step])[..|steps|] == steps;
  }

  lemma {:induction false} RunsConcatenate(db: Db, earlier: seq<Step>, step: Step, later: seq<Step>)
    ensures Run(Next(Run(db, earlier), step), later) == Run(db, earlier + [step] + later)
    decreases |later|
  {
    if later == [] {
      RunGrows(db, earlier, step);
      assert earlier + [step] + later == earlier + [step];
    } else {
      var init, last := later[..|later| - 1], later[|later| - 1];
      RunsConcatenate(db, earlier, step, init);
      RunGrows(db, earlier + [step] + init, last);
      RunGrows(Next(Run(db, earlier), step), init, last);
      assert earlier + [step] + later == earlier + [step] + init + [last] && later == init + [last];
    }
  }
}
