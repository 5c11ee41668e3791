/** The lock protocol of create and revise, step by step: an unlocked read, advisory locks taken one at
    a time, a locked re-read, the duplicate check, and the commit that releases everything. Attempts
    interleave freely. The lock key is an arbitrary function of what it covers, so different contents
    may share a key.
 */
module FingerprintLocks {
  import opened Domain
  import opened Folding
  import opened FoldInvariants
  import opened Mutations

  type TxId = nat

  /** What an advisory key is derived from. */
  datatype LockInput = Content(owner: Owner, subject: Uuid, claim: Claim) | SealedRow(owner: Owner, subject: Uuid,
      memory: Uuid)

  datatype Work =
    | Create(memory: Memory)
    | Revise(id: Uuid, expected: nat, changes: Changes, now: Time)
    | Restate(op: Operation, statuses: map<Uuid, Status>, now: Time)

  /** Where an attempt stands. `copies` are the rows read without locks, `rows` the rows read under lock. */
  datatype Phase =
    | Waiting(work: Work, copies: map<Uuid, Memory>)
    | Reread(work: Work, rows: map<Uuid, Memory>)
    | Ready(work: Work, rows: map<Uuid, Memory>)

  datatype System = System(committed: map<Uuid, Memory>, advisory: map<nat, TxId>, rowLocks: map<Uuid, TxId>,
      txs: map<TxId, Phase>)

  datatype Action = Begin(t: TxId, work: Work) | Acquire(t: TxId,
      key: nat) | ReadLocked(t: TxId) | Check(t: TxId) | Commit(t: TxId) | Abort(t: TxId)

  // ---------------------------------------------------------------- what an attempt reads, locks and writes

  function Named(work: Work): set<Uuid> {
    match work
    case Create(_) => {}
    case Revise(id, _, _, _) => {id}
    case Restate(_, statuses, _) => statuses.Keys
  }

  function LockInputOf(m: Memory): LockInput {
    if m.fingerprint.Some? then Content(m.owner, m.subject, m.fingerprint.value)
      else SealedRow(m.owner, m.subject, m.id)
  }

  /** Advisory keys an attempt needs, computed from rows it has read. */
  function Wanted(hash: LockInput -> nat, work: Work, rows: map<Uuid, Memory>): set<nat>
    requires Named(work) <= rows.Keys
  {
    match work
    case Create(m) => {hash(LockInputOf(m))}
    case Revise(id, _, changes, now) => {hash(LockInputOf(rows[id])),
      hash(LockInputOf(RevisedMemory(rows[id], changes, now)))}
    case Restate(_, statuses, _) => set id | id in statuses :: hash(LockInputOf(rows[id]))
  }

  function Writes(work: Work, rows: map<Uuid, Memory>): map<Uuid, Memory>
    requires Named(work) <= rows.Keys
  {
    match work
    case Create(m) => map[m.id := m]
    case Revise(id, _, changes, now) => map[id := RevisedMemory(rows[id], changes, now)]
    case Restate(_, statuses, now) =>
      map id | id in statuses ::
        if statuses[id] == Tombstoned then TombstoneOf(rows[id], now) else Restated(rows[id], statuses[id], now)
  }

  /** The row another reader sees is the row the attempt already has. */
  predicate Unchanged(copy: Memory, row: Memory) {
    copy.revision == row.revision && copy.subject == row.subject && copy.fingerprint == row.fingerprint
  }

  /** The checks made on the locked rows just before writing. */
  predicate Allowed(committed: map<Uuid, Memory>, work: Work, rows: map<Uuid, Memory>)
    requires Named(work) <= rows.Keys
  {
    match work
    case Create(m) => !exists id :: id in committed && SameLiveClaim(committed[id], m)
    case Revise(id, expected, changes, now) =>
      && rows[id].revision == expected
      && StatusMove(Revised, rows[id].status, rows[id].status)
      && !Duplicated(committed, RevisedMemory(rows[id], changes, now).(status := Active))
    case Restate(op, statuses, _) =>
      forall id :: id in statuses ==> StatusMove(op, rows[id].status, statuses[id])
  }

  // ---------------------------------------------------------------- steps

  function Release(s: System, t: TxId): System {
    System(s.committed,
           map k | k in s.advisory && s.advisory[k] != t :: s.advisory[k],
           map r | r in s.rowLocks && s.rowLocks[r] != t :: s.rowLocks[r],
           s.txs - {t})
  }

  predicate HoldsKeys(s: System, t: TxId, keys: set<nat>) {
    forall k :: k in keys ==> k in s.advisory && s.advisory[k] == t
  }

  predicate HoldsRows(s: System, t: TxId, ids: set<Uuid>) {
    forall id :: id in ids ==> id in s.rowLocks && s.rowLocks[id] == t
  }

  function LockRows(s: System, t: TxId, ids: set<Uuid>): map<Uuid, TxId> {
    map id | id in s.rowLocks.Keys + ids :: if id in ids then t else s.rowLocks[id]
  }

  function BeginNext(s: System, t: TxId, work: Work): System {
    if t in s.txs || !(Named(work) <= s.committed.Keys) || (work.Create? && work.memory.fingerprint.None?) then s
    else s.(txs := s.txs[t := Waiting(work, RowsFor(s.committed, Named(work)))])
  }

  function AcquireNext(s: System, t: TxId, key: nat): System {
    if t !in s.txs || !s.txs[t].Waiting? || key in s.advisory then s
    else s.(advisory := s.advisory[key := t])
  }

  /** Every advisory key is held and no other attempt has locked a named row. */
  predicate MayReread(hash: LockInput -> nat, s: System, t: TxId) {
    && t in s.txs && s.txs[t].Waiting?
    && var work, copies := s.txs[t].work, s.txs[t].copies;
       && Named(work) <= copies.Keys && copies.Keys <= s.committed.Keys
       && HoldsKeys(s, t, Wanted(hash, work, copies))
       && forall id :: id in copies && id in s.rowLocks ==> s.rowLocks[id] == t
  }

  predicate StillCurrent(committed: map<Uuid, Memory>, copies: map<Uuid, Memory>) {
    forall id :: id in copies ==> id in committed && Unchanged(copies[id], committed[id])
  }

  function RowsFor(committed: map<Uuid, Memory>, ids: set<Uuid>): map<Uuid, Memory>
    requires ids <= committed.Keys
  {
    map id | id in ids :: committed[id]
  }

  /** Re-reads the named rows under row locks; a changed row ends the attempt. */
  function ReadLockedNext(hash: LockInput -> nat, s: System, t: TxId): System {
    if !MayReread(hash, s, t) then s
    else if !StillCurrent(s.committed, s.txs[t].copies) then Release(s, t)
    else
      var copies := s.txs[t].copies;
      s.(rowLocks := LockRows(s, t, copies.Keys),
        txs := s.txs[t := Reread(s.txs[t].work, RowsFor(s.committed, copies.Keys))])
  }

  function CheckNext(s: System, t: TxId): System {
    if t !in s.txs || !s.txs[t].Reread? || !(Named(s.txs[t].work) <= s.txs[t].rows.Keys) then s
    else if !Allowed(s.committed, s.txs[t].work, s.txs[t].rows) then Release(s, t)
    else s.(txs := s.txs[t := Ready(s.txs[t].work, s.txs[t].rows)])
  }

  /** Publishes the writes and releases every lock. A taken primary key rolls back instead. */
  function CommitNext(s: System, t: TxId): System {
    if t !in s.txs || !s.txs[t].Ready? || !(Named(s.txs[t].work) <= s.txs[t].rows.Keys) then s
    else
      var work, rows := s.txs[t].work, s.txs[t].rows;
      if work.Create? && work.memory.id in s.committed then Release(s, t)
      else Release(s.(committed := s.committed + Writes(work, rows)), t)
  }

  function Next(hash: LockInput -> nat, s: System, action: Action): System {
    match action
    case Begin(t, work) => BeginNext(s, t, work)
    case Acquire(t, key) => AcquireNext(s, t, key)
    case ReadLocked(t) => ReadLockedNext(hash, s, t)
    case Check(t) => CheckNext(s, t)
    case Commit(t) => CommitNext(s, t)
    case Abort(t) => Release(s, t)
  }

  function Run(hash: LockInput -> nat, s: System, actions: seq<Action>): System
    decreases |actions|
  {
    if actions == [] then s else Next(hash, Run(hash, s, actions[..|actions| - 1]), actions[|actions| - 1])
  }

  // ---------------------------------------------------------------- invariant

  /** A copy read without locks is out of date exactly when the revision moved on. */
  ghost predicate Fresh(committed: map<Uuid, Memory>, copies: map<Uuid, Memory>) {
    forall id :: id in copies ==>
      && id in committed
      && copies[id].revision <= committed[id].revision
      && (copies[id].revision == committed[id].revision ==> copies[id] == committed[id])
  }

  ghost predicate Pinned(s: System, t: TxId, rows: map<Uuid, Memory>) {
    && HoldsRows(s, t, rows.Keys)
    && forall id :: id in rows ==> id in s.committed && s.committed[id] == rows[id]
  }

  /** No other live memory states what a create or revise is about to write. */
  ghost predicate NoRival(committed: map<Uuid, Memory>, work: Work, rows: map<Uuid, Memory>)
    requires Named(work) <= rows.Keys
  {
    match work
    case Restate(_, _, _) => true
    case _ =>
      forall w, id :: w in Writes(work, rows) && id in committed && id != w ==>
        !SameLiveClaim(committed[id], Writes(work, rows)[w])
  }

  ghost predicate LegalMoves(work: Work, rows: map<Uuid, Memory>)
    requires Named(work) <= rows.Keys
  {
    match work
    case Restate(op, statuses, _) => forall id :: id in statuses ==> StatusMove(op, rows[id].status, statuses[id])
    case _ => true
  }

  ghost predicate PhaseSound(hash: LockInput -> nat, s: System, t: TxId, phase: Phase) {
    && (phase.work.Create? ==> phase.work.memory.fingerprint.Some?)
    && match phase
       case Waiting(work, copies) => copies.Keys == Named(work) && Fresh(s.committed, copies)
       case Reread(work, rows) => rows.Keys == Named(work) && Pinned(s, t, rows)
         && HoldsKeys(s, t, Wanted(hash, work, rows))
       case Ready(work, rows) =>
         && rows.Keys == Named(work) && Pinned(s, t, rows) && HoldsKeys(s, t, Wanted(hash, work, rows))
         && LegalMoves(work, rows) && NoRival(s.committed, work, rows)
  }

  ghost predicate Sound(hash: LockInput -> nat, s: System) {
    && (forall id :: id in s.committed ==> s.committed[id].id == id)
    && LiveUnique(s.committed)
    && forall t :: t in s.txs ==> PhaseSound(hash, s, t, s.txs[t])
  }

  // ---------------------------------------------------------------- writes

  /** What a write of an attempt looks like against the committed row it replaces. */
  lemma WriteFollows(work: Work, rows: map<Uuid, Memory>, id: Uuid)
    requires rows.Keys == Named(work) && !work.Create? && id in Writes(work, rows)
    requires forall k :: k in rows ==> rows[k].id == k
    ensures id in rows && Writes(work, rows)[id].id == id && Writes(work, rows)[id].revision == rows[id].revision + 1
    ensures Writes(work, rows)[id].owner == rows[id].owner && Writes(work, rows)[id].subject == rows[id].subject
  {
  }

  /** A status move never makes a settled memory live, and a live one keeps its claim. */
  lemma RestateKeepsClaims(work: Work, rows: map<Uuid, Memory>, id: Uuid, other: Memory)
    requires work.Restate? && rows.Keys == Named(work) && LegalMoves(work, rows) && id in Writes(work, rows)
    ensures SameLiveClaim(Writes(work, rows)[id], other) ==> SameLiveClaim(rows[id], other)
  {
  }

  /** Two attempts that are about to write the same claim would hold the same advisory key. */
  lemma RivalsExcluded(hash: LockInput -> nat, s: System, t: TxId, u: TxId, work: Work, rows: map<Uuid, Memory>,
      other: Work, otherRows: map<Uuid, Memory>, w: Uuid, v: Uuid)
    requires t != u && !work.Restate? && !other.Restate?
    requires work.Create? ==> work.memory.fingerprint.Some?
    requires other.Create? ==> other.memory.fingerprint.Some?
    requires rows.Keys == Named(work) && otherRows.Keys == Named(other)
    requires HoldsKeys(s, t, Wanted(hash, work, rows)) && HoldsKeys(s, u, Wanted(hash, other, otherRows))
    requires w in Writes(work, rows) && v in Writes(other, otherRows)
    ensures !SameLiveClaim(Writes(work, rows)[w], Writes(other, otherRows)[v])
  {
    var a, b := Writes(work, rows)[w], Writes(other, otherRows)[v];
    assert hash(LockInputOf(a)) in Wanted(hash, work, rows);
    assert hash(LockInputOf(b)) in Wanted(hash, other, otherRows);
    assert SameLiveClaim(a, b) ==> LockInputOf(a) == LockInputOf(b);
  }

  // ---------------------------------------------------------------- steps keep the invariant

  lemma PhaseSurvives(hash: LockInput -> nat, s: System, n: System, t: TxId)
    requires t in s.txs && PhaseSound(hash, s, t, s.txs[t])
    requires n.committed == s.committed
    requires forall k :: k in s.advisory && s.advisory[k] == t ==> k in n.advisory && n.advisory[k] == t
    requires forall r :: r in s.rowLocks && s.rowLocks[r] == t ==> r in n.rowLocks && n.rowLocks[r] == t
    ensures PhaseSound(hash, n, t, s.txs[t])
  {
  }

  lemma ReleaseKeepsSound(hash: LockInput -> nat, s: System, t: TxId)
    requires Sound(hash, s)
    ensures Sound(hash, Release(s, t))
  {
    var n := Release(s, t);
    forall u | u in n.txs ensures PhaseSound(hash, n, u, n.txs[u]) {
      PhaseSurvives(hash, s, n, u);
    }
  }

  lemma BeginKeepsSound(hash: LockInput -> nat, s: System, t: TxId, work: Work)
    requires Sound(hash, s)
    ensures Sound(hash, BeginNext(s, t, work))
  {
    var n := BeginNext(s, t, work);
    forall u | u in n.txs ensures PhaseSound(hash, n, u, n.txs[u]) {
      if u in s.txs { PhaseSurvives(hash, s, n, u); }
    }
  }

  lemma AcquireKeepsSound(hash: LockInput -> nat, s: System, t: TxId, key: nat)
    requires Sound(hash, s)
    ensures Sound(hash, AcquireNext(s, t, key))
  {
    var n := AcquireNext(s, t, key);
    forall u | u in n.txs ensures PhaseSound(hash, n, u, n.txs[u]) {
      PhaseSurvives(hash, s, n, u);
    }
  }

  /** An unchanged revision on re-read means unchanged content, so the keys taken cover the row as it is now. */
  lemma ReadLockedKeepsSound(hash: LockInput -> nat, s: System, t: TxId)
    requires Sound(hash, s)
    ensures Sound(hash, ReadLockedNext(hash, s, t))
  {
    if MayReread(hash, s, t) {
      var work, copies := s.txs[t].work, s.txs[t].copies;
      if StillCurrent(s.committed, copies) {
        assert PhaseSound(hash, s, t, s.txs[t]);
        ReadLockedIs(hash, s, t);
        ReadTaken(hash, s, t, work, copies);
      } else {
        ReleaseKeepsSound(hash, s, t);
      }
    }
  }

  lemma ReadLockedIs(hash: LockInput -> nat, s: System, t: TxId)
    requires MayReread(hash, s, t) && StillCurrent(s.committed, s.txs[t].copies) && Fresh(s.committed, s.txs[t].copies)
    ensures var work, copies := s.txs[t].work, s.txs[t].copies;
            && ReadLockedNext(hash, s, t) == s.(rowLocks := LockRows(s, t, copies.Keys),
                 txs := s.txs[t := Reread(work, copies)])
            && forall id :: id in copies ==> s.committed[id] == copies[id]
  {
    RowsAreCopies(s.committed, s.txs[t].copies);
  }

  lemma ReadTaken(hash: LockInput -> nat, s: System, t: TxId, work: Work, copies: map<Uuid, Memory>)
    requires Sound(hash, s) && t in s.txs && s.txs[t] == Waiting(work, copies)
    requires copies.Keys == Named(work) && HoldsKeys(s, t, Wanted(hash, work, copies))
    requires forall id :: id in copies ==> id in s.committed && s.committed[id] == copies[id]
    requires forall id :: id in copies && id in s.rowLocks ==> s.rowLocks[id] == t
    ensures Sound(hash, s.(rowLocks := LockRows(s, t, copies.Keys), txs := s.txs[t := Reread(work, copies)]))
  {
    var n := s.(rowLocks := LockRows(s, t, copies.Keys), txs := s.txs[t := Reread(work, copies)]);
    forall u | u in n.txs ensures PhaseSound(hash, n, u, n.txs[u]) {
      if u == t {
        RereadIsSound(hash, s, n, t, work, copies);
      } else {
        PhaseSurvives(hash, s, n, u);
      }
    }
  }

  lemma RowsAreCopies(committed: map<Uuid, Memory>, copies: map<Uuid, Memory>)
    requires Fresh(committed, copies) && StillCurrent(committed, copies)
    ensures copies.Keys <= committed.Keys && RowsFor(committed, copies.Keys) == copies
  {
  }

  lemma RereadIsSound(hash: LockInput -> nat, s: System, n: System, t: TxId, work: Work, copies: map<Uuid, Memory>)
    requires PhaseSound(hash, s, t, Waiting(work, copies)) && HoldsKeys(s, t, Wanted(hash, work, copies))
    requires forall id :: id in copies ==> s.committed[id] == copies[id]
    requires n == s.(rowLocks := LockRows(s, t, copies.Keys), txs := s.txs[t := Reread(work, copies)])
    ensures PhaseSound(hash, n, t, Reread(work, copies))
  {
  }

  lemma CheckKeepsSound(hash: LockInput -> nat, s: System, t: TxId)
    requires Sound(hash, s)
    ensures Sound(hash, CheckNext(s, t))
  {
    var n := CheckNext(s, t);
    if n == Release(s, t) {
      ReleaseKeepsSound(hash, s, t);
    } else if n != s {
      assert PhaseSound(hash, s, t, s.txs[t]);
      CheckedHasNoRival(s.committed, s.txs[t].work, s.txs[t].rows);
      forall u | u in n.txs ensures PhaseSound(hash, n, u, n.txs[u]) {
        if u != t {
          PhaseSurvives(hash, s, n, u);
        }
      }
    }
  }

  lemma CheckedHasNoRival(committed: map<Uuid, Memory>, work: Work, rows: map<Uuid, Memory>)
    requires rows.Keys == Named(work) && Allowed(committed, work, rows)
    requires forall id :: id in rows ==> rows[id].id == id
    ensures NoRival(committed, work, rows) && LegalMoves(work, rows)
  {
    if work.Revise? {
      var after := RevisedMemory(rows[work.id], work.changes, work.now);
      forall id | id in committed && id != work.id ensures !SameLiveClaim(committed[id], after) {
        assert !SameLiveClaim(committed[id], after.(status := Active));
      }
    }
  }

  /** A commit by `t` leaves every other attempt sound. */
  lemma CommitLeavesOthers(hash: LockInput -> nat, s: System, t: TxId, u: TxId)
    requires Sound(hash, s) && t in s.txs && s.txs[t].Ready? && u in s.txs && u != t
    requires s.txs[t].work.Create? ==> s.txs[t].work.memory.id !in s.committed
    ensures PhaseSound(hash, CommitNext(s, t), u, s.txs[u])
  {
    var work, rows := s.txs[t].work, s.txs[t].rows;
    assert PhaseSound(hash, s, t, s.txs[t]) && PhaseSound(hash, s, u, s.txs[u]);
    var n := CommitNext(s, t);
    var writes := Writes(work, rows);
    assert n.committed == s.committed + writes;
    forall id | id in writes && id in s.committed
      ensures id in rows && s.rowLocks[id] == t && writes[id].revision == s.committed[id].revision + 1
    {
      WriteFollows(work, rows, id);
    }
    match s.txs[u] {
      case Waiting(_, copies) =>
      case Reread(_, otherRows) =>
        assert forall id :: id in otherRows ==> id !in writes;
      case Ready(other, otherRows) =>
        assert forall id :: id in otherRows ==> id !in writes;
        CommitAddsNoRival(hash, s, t, u, work, rows, other, otherRows);
    }
  }

  lemma CommitAddsNoRival(hash: LockInput -> nat, s: System, t: TxId, u: TxId, work: Work, rows: map<Uuid, Memory>,
      other: Work, otherRows: map<Uuid, Memory>)
    requires t != u
    requires work.Create? ==> work.memory.fingerprint.Some?
    requires other.Create? ==> other.memory.fingerprint.Some?
    requires rows.Keys == Named(work) && otherRows.Keys == Named(other)
    requires HoldsKeys(s, t, Wanted(hash, work, rows)) && HoldsKeys(s, u, Wanted(hash, other, otherRows))
    requires Pinned(s, t, rows) && LegalMoves(work, rows) && NoRival(s.committed, other, otherRows)
    ensures NoRival(s.committed + Writes(work, rows), other, otherRows)
  {
    var writes := Writes(work, rows);
    if !other.Restate? {
      forall w, id | w in Writes(other, otherRows) && id in s.committed + writes && id != w
        ensures !SameLiveClaim((s.committed + writes)[id], Writes(other, otherRows)[w])
      {
        if id in writes {
          if work.Restate? {
            RestateKeepsClaims(work, rows, id, Writes(other, otherRows)[w]);
          } else {
            RivalsExcluded(hash, s, t, u, work, rows, other, otherRows, id, w);
          }
        }
      }
    }
  }

  /** A commit keeps live claims unique: the index never refuses it. */
  lemma CommitKeepsUnique(committed: map<Uuid, Memory>, work: Work, rows: map<Uuid, Memory>)
    requires LiveUnique(committed) && rows.Keys == Named(work)
    requires forall id :: id in rows ==> id in committed && committed[id] == rows[id]
    requires LegalMoves(work, rows) && NoRival(committed, work, rows)
    ensures LiveUnique(committed + Writes(work, rows))
  {
    var writes := Writes(work, rows);
    var after := committed + writes;
    forall a, b | a in after && b in after && a != b ensures !SameLiveClaim(after[a], after[b]) {
      if work.Restate? {
        if a in writes { RestateKeepsClaims(work, rows, a, after[b]); }
        if b in writes { RestateKeepsClaims(work, rows, b, after[a]); }
        if b in writes && a in writes { RestateKeepsClaims(work, rows, b, rows[a]); }
        assert a in committed && b in committed && !SameLiveClaim(committed[a], committed[b]);
      } else {
        assert a in writes ==> b !in writes;
      }
    }
  }

  lemma CommitKeepsSound(hash: LockInput -> nat, s: System, t: TxId)
    requires Sound(hash, s)
    ensures Sound(hash, CommitNext(s, t))
  {
    var n := CommitNext(s, t);
    if n == Release(s, t) {
      ReleaseKeepsSound(hash, s, t);
    } else if n != s {
      var work, rows := s.txs[t].work, s.txs[t].rows;
      assert PhaseSound(hash, s, t, s.txs[t]);
      CommitKeepsUnique(s.committed, work, rows);
      forall u | u in n.txs ensures PhaseSound(hash, n, u, n.txs[u]) {
        CommitLeavesOthers(hash, s, t, u);
      }
      forall id | id in n.committed ensures n.committed[id].id == id {
        if id in Writes(work, rows) && !work.Create? { WriteFollows(work, rows, id); }
      }
    }
  }

  lemma StepKeepsSound(hash: LockInput -> nat, s: System, action: Action)
    requires Sound(hash, s)
    ensures Sound(hash, Next(hash, s, action))
  {
    match action {
      case Begin(t, work) => BeginKeepsSound(hash, s, t, work);
      case Acquire(t, key) => AcquireKeepsSound(hash, s, t, key);
      case ReadLocked(t) => ReadLockedKeepsSound(hash, s, t);
      case Check(t) => CheckKeepsSound(hash, s, t);
      case Commit(t) => CommitKeepsSound(hash, s, t);
      case Abort(t) => ReleaseKeepsSound(hash, s, t);
    }
  }

  /** Over every interleaving the committed memories never hold the same live claim twice, whatever the
      lock-key function. */
  lemma {:induction false} NoInterleavingDuplicates(hash: LockInput -> nat, s: System, actions: seq<Action>)
    requires Sound(hash, s)
    ensures Sound(hash, Run(hash, s, actions))
    decreases |actions|
  {
    if actions != [] {
      NoInterleavingDuplicates(hash, s, actions[..|actions| - 1]);
      StepKeepsSound(hash, Run(hash, s, actions[..|actions| - 1]), actions[|actions| - 1]);
    }
  }

  /** An attempt about to commit a create or revise holds the advisory key of every claim it writes. */
  lemma WritersHoldTheirKeys(hash: LockInput -> nat, s: System, actions: seq<Action>, t: TxId, w: Uuid)
    requires Sound(hash, s)
    requires var n := Run(hash, s, actions);
             t in n.txs && n.txs[t].Ready? && !n.txs[t].work.Restate?
             && Named(n.txs[t].work) <= n.txs[t].rows.Keys && w in Writes(n.txs[t].work, n.txs[t].rows)
    ensures var n := Run(hash, s, actions);
            HoldsKeys(n, t, {hash(LockInputOf(Writes(n.txs[t].work, n.txs[t].rows)[w]))})
  {
    NoInterleavingDuplicates(hash, s, actions);
    var n := Run(hash, s, actions);
    assert PhaseSound(hash, n, t, n.txs[t]);
    assert hash(LockInputOf(Writes(n.txs[t].work, n.txs[t].rows)[w])) in Wanted(hash, n.txs[t].work, n.txs[t].rows);
  }

  /** The checks alone would not do: two creates of one claim both pass against the same committed rows, and
      publishing both would leave a duplicate. */
  lemma ChecksAloneRace(m: Memory, twin: Uuid)
    requires Live(m.status) && m.fingerprint.Some? && twin != m.id
    ensures Allowed(map[], Create(m), map[]) && Allowed(map[], Create(m.(id := twin)), map[])
    ensures !LiveUnique(map[m.id := m, twin := m.(id := twin)])
  {
    var both := map[m.id := m, twin := m.(id := twin)];
    assert SameLiveClaim(both[m.id], both[twin]);
  }
}
