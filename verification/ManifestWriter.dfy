/** One writer of the fenced manifest: the retry loop, its reconciliation of unknown outcomes, and its rollback memory. */
module ManifestWriter {
  import opened Basics
  import opened ManifestRecords
  import opened ManifestLog
  import opened ManifestStore

  const MAX_ATTEMPTS := 8

  // A create is a proposal that expects no version.
  datatype Proposal = Proposal(request: Request, expected: Option<nat>, record: Record, ambiguous: bool)

  // `unknown` when the error wraps an unknown outcome, so the mutation may yet turn out committed.
  datatype MutationError = MutationError(unknown: bool, cause: ManifestError)

  // What an attempt without a retained proposal comes to after its read.
  datatype Plan = Finished(manifest: Manifest) | Send(proposal: Proposal) | Fail(error: MutationError)

  datatype Resolution = Resolved(manifest: Manifest) | Rebase | Unresolved(error: MutationError)

  function WriteOf(self: nat, p: Proposal): Write {
    Write(self, p.request, p.expected, p.record)
  }

  // The write is in the log.
  predicate Landed(log: seq<Commit>, w: Write) {
    Slot(w) < |log| && log[Slot(w)] == CommitOf(w)
  }

  function OwnCommits(log: seq<Commit>, self: nat): (n: nat)
    ensures n <= |log|
  {
    if log == [] then 0
    else OwnCommits(log[..|log| - 1], self) + (if log[|log| - 1].writer == self then 1 else 0)
  }

  // This writer's commits, without that of its unresolved proposal.
  function Settled(log: seq<Commit>, self: nat, pending: Option<Proposal>): int {
    OwnCommits(log, self) - (if pending.Some? && Landed(log, WriteOf(self, pending.value)) then 1 else 0)
  }

  // The unresolved proposal is the only write of this writer that may still commit.
  predicate OnlyPendingLive(log: seq<Commit>, limbo: set<Write>, self: nat, pending: Option<Proposal>) {
    forall w :: w in limbo && w.writer == self ==>
      Slot(w) < |log| || (pending.Some? && pending.value.ambiguous && w == WriteOf(self, pending.value))
  }

  predicate PendingLegal(log: seq<Commit>, self: nat, pending: Option<Proposal>) {
    pending.Some? ==>
      && LegalWrite(log, WriteOf(self, pending.value))
      && (!pending.value.ambiguous ==> !Landed(log, WriteOf(self, pending.value)))
  }

  /** What the environment commits settles nothing: only the unresolved proposal of this writer can land meanwhile. */
  lemma {:induction false} EnvironmentSettlesNothing(log: seq<Commit>, limbo: set<Write>, log': seq<Commit>, self: nat,
                                                    pending: Option<Proposal>)
    requires Advanced(self, limbo, log, log')
    requires OnlyPendingLive(log, limbo, self, pending) && PendingLegal(log, self, pending)
    ensures Settled(log', self, pending) == Settled(log, self, pending)
    ensures OnlyPendingLive(log', limbo, self, pending) && PendingLegal(log', self, pending)
    ensures pending.None? || !pending.value.ambiguous ==> OwnCommits(log', self) == OwnCommits(log, self)
    decreases |log'|
  {
    if |log'| == |log| {
      assert log' == log;
    } else {
      var k := |log'| - 1;
      var before := log'[..k];
      assert Advanced(self, limbo, log, before) by {
        LegalPrefix(log', k);
        forall m | |log| <= m < k ensures FromElsewhere(self, limbo, before, m) {
          assert FromElsewhere(self, limbo, log', m);
          if log'[m].writer == self {
            var w :| w in limbo && Lands(w, log', m);
            assert Lands(w, before, m);
          }
        }
      }
      EnvironmentSettlesNothing(log, limbo, before, self, pending);
      assert FromElsewhere(self, limbo, log', k);
      if pending.Some? { LegalStable(before, log', WriteOf(self, pending.value)); }
      if log'[k].writer == self {
        var w :| w in limbo && Lands(w, log', k);
        assert Slot(w) == k >= |log|;
      }
    }
  }

  // What a writer remembers of the object; the record stands for the digest of its body.
  datatype Memory = Memory(resourceUID: string, epoch: nat, revision: nat, digest: Option<Record>)

  function MemoryOf(record: Record): Memory {
    Memory(record.resourceUID, record.acceptedEpochID, record.revision, Some(record))
  }

  // What is remembered describes a commit that is in the log.
  predicate MemoryFits(log: seq<Commit>, m: Memory) {
    && (m.resourceUID == "" <==> m.revision == 0)
    && (if m.revision == 0 then m.epoch == 0 else m.revision <= |log| && m == MemoryOf(log[m.revision - 1].record))
  }

  // What a writer keeps about the log: what may still commit is what it retains, and its memory is true.
  predicate WriterFits(log: seq<Commit>, limbo: set<Write>, self: nat, pending: Option<Proposal>, m: Memory) {
    PendingLegal(log, self, pending) && OnlyPendingLive(log, limbo, self, pending) && MemoryFits(log, m)
  }

  // A stored proposal is settled, and nothing of this writer is left that could still commit.
  lemma StoredSettles(log: seq<Commit>, limbo: set<Write>, mid: seq<Commit>, log': seq<Commit>, self: nat, p: Proposal, m: Memory)
    requires WriterFits(log, limbo, self, Some(p), m)
    requires Advanced(self, limbo, log, mid) && WriteOf(self, p).expected == CurrentVersion(mid)
    requires log' == mid + [CommitOf(WriteOf(self, p))] && LegalLog(log')
    ensures log <= log' && Settled(log', self, None) == Settled(log, self, Some(p)) + 1
    ensures WriterFits(log', limbo, self, None, MemoryOf(p.record))
    ensures Success(log', Snapshot(p.record), p.request)
  {
    EnvironmentSettlesNothing(log, limbo, mid, self, Some(p));
    assert log'[..|mid|] == mid;
    LastSucceeds(log', p.request);
  }

  // A proposal of unknown outcome settles nothing, whether it was stored or may be later.
  lemma UnknownSettlesNothing(log: seq<Commit>, limbo: set<Write>, mid: seq<Commit>, log': seq<Commit>, self: nat, p: Proposal,
                              m: Memory)
    requires WriterFits(log, limbo, self, Some(p), m)
    requires Advanced(self, limbo, log, mid)
    requires log' == mid || (log' == mid + [CommitOf(WriteOf(self, p))] && WriteOf(self, p).expected == CurrentVersion(mid))
    ensures var q := Some(p.(ambiguous := true));
            && log <= log' && Settled(log', self, q) == Settled(log, self, Some(p))
            && WriterFits(log', limbo + {WriteOf(self, p)}, self, q, m)
  {
    EnvironmentSettlesNothing(log, limbo, mid, self, Some(p));
    LegalStable(mid, log', WriteOf(self, p));
    if log' != mid { assert log'[..|mid|] == mid; }
  }

  // A definite failure leaves everything as it was, but for what others did.
  lemma FailureSettlesNothing(log: seq<Commit>, limbo: set<Write>, log': seq<Commit>, self: nat, pending: Option<Proposal>,
                              m: Memory)
    requires WriterFits(log, limbo, self, pending, m) && Advanced(self, limbo, log, log')
    ensures log <= log' && Settled(log', self, pending) == Settled(log, self, pending)
    ensures WriterFits(log', limbo, self, pending, m)
    ensures pending.None? || !pending.value.ambiguous ==> OwnCommits(log', self) == OwnCommits(log, self)
  {
    EnvironmentSettlesNothing(log, limbo, log', self, pending);
  }

  /** A success shows the mutation in the committed record it returns, or an activation of the epoch already accepted. */
  predicate Success(log: seq<Commit>, m: Manifest, r: Request) {
    && log != []
    && m == Snapshot(log[|log| - 1].record)
    && (|| Contains(log[|log| - 1].record.history, r)
        || (r.operation.Activate? && log[|log| - 1].record.acceptedEpochID == r.epochID))
  }

  lemma LastSucceeds(log: seq<Commit>, r: Request)
    requires LegalLog(log) && log != [] && log[|log| - 1].request == r
    ensures Success(log, Snapshot(log[|log| - 1].record), r)
    ensures log[|log| - 1].record.revision == |log| && log[|log| - 1].record.resourceUID != ""
  {
    CommitMeans(log, |log| - 1);
    var history := log[|log| - 1].record.history;
    assert history[|history| - 1].mutationID == r.mutationID && history[|history| - 1].mutationDigest == r.digest;
  }

  // The log gained exactly one commit, of this request by this writer.
  predicate OneMore(log: seq<Commit>, log': seq<Commit>, self: nat, r: Request) {
    && |log'| == |log| + 1
    && log'[..|log|] == log
    && log'[|log|].writer == self
    && log'[|log|].request == r
  }

  // What a mutation comes to when nothing of it was retained and nothing interferes.
  predicate FreshOutcome(log: seq<Commit>, log': seq<Commit>, self: nat, r: Request, result: Result<Manifest, MutationError>) {
    if log == [] then
      if r.operation.Activate? then result.Ok? && OneMore(log, log', self, r)
      else result == Err(MutationError(false, EpochNotActivated)) && log' == log
    else
      var record := log[|log| - 1].record;
      if Admissible(record, r) && record.revision != MAX_UINT64 then result.Ok? && OneMore(log, log', self, r)
      else
        && log' == log
        && if Stands(record, r) then result.Ok?
           else result.Err? && !result.error.unknown && RefusedFor(record, r, result.error.cause)
  }

  // What it comes to when proposal p of it was retained and nothing interferes.
  predicate RetainedOutcome(log: seq<Commit>, log': seq<Commit>, self: nat, p: Proposal, r: Request,
                            result: Result<Manifest, MutationError>) {
    if log == [] then result.Ok? && OneMore(log, log', self, p.request)
    else
      var record := log[|log| - 1].record;
      if Contains(record.history, p.request) then result.Ok? && log' == log
      else if Mentions(record.history, p.request.mutationID) then
        result == Err(MutationError(p.ambiguous, MutationConflict)) && log' == log
      else if record.acceptedEpochID > p.request.epochID then
        result == Err(MutationError(p.ambiguous, Fenced)) && log' == log
      else if p.expected == CurrentVersion(log) then result.Ok? && OneMore(log, log', self, p.request)
      else if p.ambiguous then result == Err(MutationError(true, WriteUnknown)) && log' == log
      else FreshOutcome(log, log', self, r, result)
  }

  // What reconciling p comes to when nothing interferes.
  predicate ReconcileOutcome(log: seq<Commit>, log': seq<Commit>, self: nat, p: Proposal, r: Resolution) {
    if log == [] then r.Resolved? && OneMore(log, log', self, p.request)
    else
      var record := log[|log| - 1].record;
      if Contains(record.history, p.request) then r.Resolved? && log' == log
      else if Mentions(record.history, p.request.mutationID) then
        r == Unresolved(MutationError(p.ambiguous, MutationConflict)) && log' == log
      else if record.acceptedEpochID > p.request.epochID then
        r == Unresolved(MutationError(p.ambiguous, Fenced)) && log' == log
      else if p.expected == CurrentVersion(log) then r.Resolved? && OneMore(log, log', self, p.request)
      else log' == log && r == if p.ambiguous then Unresolved(MutationError(true, WriteUnknown)) else Rebase
  }

  // What has to be done about r on the current object.
  predicate PlanFits(log: seq<Commit>, r: Request, plan: Plan) {
    if log == [] then
      if r.operation.Activate? then plan.Send? else plan == Fail(MutationError(false, EpochNotActivated))
    else
      var record := log[|log| - 1].record;
      if Admissible(record, r) && record.revision != MAX_UINT64 then plan.Send?
      else if Stands(record, r) then plan.Finished?
      else plan.Fail? && RefusedFor(record, r, plan.error.cause)
  }

  // The object as it is after these commits calls for this error.
  predicate Explains(log: seq<Commit>, r: Request, cause: ManifestError) {
    if log == [] then cause == EpochNotActivated && r.operation.Publish?
    else
      var record := log[|log| - 1].record;
      || RefusedFor(record, r, cause)
      || (cause == MutationConflict && Mentions(record.history, r.mutationID) && !Contains(record.history, r))
  }

  // It did so at some moment between these two; or the error is one of the store, of the context, or of giving up.
  ghost predicate Explained(log: seq<Commit>, log': seq<Commit>, r: Request, cause: ManifestError) {
    || cause in {StoreFailure, WriteConflict, WriteUnknown, ManifestError.Canceled}
    || exists n :: |log| <= n <= |log'| && Explains(log'[..n], r, cause)
  }

  lemma ExplainedNow(log: seq<Commit>, log': seq<Commit>, r: Request, cause: ManifestError)
    requires log <= log' && Explains(log', r, cause)
    ensures Explained(log, log', r, cause)
  {
    assert log'[..|log'|] == log';
  }

  lemma ExplainedLater(log: seq<Commit>, mid: seq<Commit>, mid': seq<Commit>, log': seq<Commit>, r: Request, q: Request,
                       cause: ManifestError)
    requires log <= mid && mid' <= log' && Explained(mid, mid', r, cause) && SameRequest(r, q)
    ensures Explained(log, log', q, cause)
  {
    if n :| |mid| <= n <= |mid'| && Explains(mid'[..n], r, cause) {
      assert log'[..n] == mid'[..n];
      assert Explains(log'[..n], q, cause);
    }
  }

  class Writer {
    const store: Store
    const id: nat
    var resourceUID: string
    var lastEpoch: nat
    var lastRevision: nat
    var lastDigest: Option<Record>   // stands for the digest of the last body seen
    var pending: Option<Proposal>

    function Remembered(): Memory
      reads this
    {
      Memory(resourceUID, lastEpoch, lastRevision, lastDigest)
    }

    ghost predicate Valid()
      reads this, store
    {
      store.Valid(id) && WriterFits(store.log, store.limbo, id, pending, Remembered())
    }

    ghost function Settlement(): int
      reads this, store
    {
      Settled(store.log, id, pending)
    }

    constructor (store: Store, id: nat)
      requires store.Valid(id)
      requires forall w :: w in store.limbo && w.writer == id ==> Slot(w) < |store.log|
      ensures Valid() && this.store == store && this.id == id && pending.None?
    {
      this.store, this.id := store, id;
      resourceUID, lastEpoch, lastRevision, lastDigest, pending := "", 0, 0, None, None;
    }

    /** While the object changes only through writers, a read never looks like another object or a rollback. */
    lemma NoFalseAlarm(record: Record)
      requires Valid() && store.log != [] && record == store.log[|store.log| - 1].record
      ensures resourceUID == "" || resourceUID == record.resourceUID
      ensures lastEpoch <= record.acceptedEpochID && lastRevision <= record.revision
      ensures lastRevision == record.revision ==> lastDigest == Some(record)
      ensures ValidRecord(record) && record.revision == |store.log|
    {
      var k := |store.log| - 1;
      CommitMeans(store.log, k);
      if lastRevision > 0 {
        CommitMeans(store.log, lastRevision - 1);
        EpochsMonotone(store.log, lastRevision - 1, k);
      }
    }

    method Read() returns (r: Result<(Record, nat), ManifestError>)
      requires Valid()
      modifies this`resourceUID, this`lastEpoch, this`lastRevision, this`lastDigest, store`log, store`turns
      ensures Valid() && old(store.log) <= store.log && Settlement() == old(Settlement())
      ensures pending.None? || !pending.value.ambiguous ==>
                OwnCommits(store.log, id) == old(OwnCommits(store.log, id))
      ensures r.Ok? ==> store.log != [] && r.value == (store.log[|store.log| - 1].record, |store.log| - 1)
      ensures r.Err? ==> r.error == StoreFailure || (r.error == Absent && store.log == [])
      ensures r.Ok? ==> Remembered() == MemoryOf(r.value.0)
      ensures store.turns == Rest(old(store.turns))
      ensures old(store.Quiet()) ==> store.Quiet() && store.log == old(store.log) && (r.Ok? <==> store.log != [])
                                     && r != Err(StoreFailure)
    {
      var reply := store.Get(id);
      FailureSettlesNothing(old(store.log), store.limbo, store.log, id, pending, Remembered());
      if reply.GetFailed? { return Err(StoreFailure); }
      if reply.Missing? { return Err(Absent); }
      var record := reply.record;
      NoFalseAlarm(record);
      var alarm := Judge(record);
      match alarm
      case Some(error) => r := Err(error);
      case None =>
        Remember(record);
        r := Ok((record, reply.version));
    }

    /**
     What is wrong with a record that was read, whoever wrote it: it is not acceptable, it is of another object, or it is older
     than what was seen, or different at the same revision.
     */
    method Judge(record: Record) returns (alarm: Option<ManifestError>)
      ensures alarm == Some(InvalidManifest) <==> !ValidRecord(record)
      ensures alarm == Some(ResourceChanged) <==>
                ValidRecord(record) && resourceUID != "" && resourceUID != record.resourceUID
      ensures alarm == Some(ResourceRolledBack) <==>
                && ValidRecord(record) && (resourceUID == "" || resourceUID == record.resourceUID)
                && (|| record.acceptedEpochID < lastEpoch || record.revision < lastRevision
                    || (record.revision == lastRevision && Some(record) != lastDigest))
      ensures alarm.Some? ==> alarm.value in {InvalidManifest, ResourceChanged, ResourceRolledBack}
    {
      var decoded := Decode(record);
      alarm := if !decoded then Some(InvalidManifest)
               else if resourceUID != "" && resourceUID != record.resourceUID then Some(ResourceChanged)
               else if record.acceptedEpochID < lastEpoch || record.revision < lastRevision
                       || (record.revision == lastRevision && lastRevision != 0 && Some(record) != lastDigest)
               then Some(ResourceRolledBack)
               else None;
    }

    /** The public read: an informational snapshot, which never reports that a known object disappeared. */
    method ReadManifest() returns (r: Result<Manifest, ManifestError>)
      requires Valid()
      modifies this`resourceUID, this`lastEpoch, this`lastRevision, this`lastDigest, store`log, store`turns
      ensures Valid() && old(store.log) <= store.log && Settlement() == old(Settlement())
      ensures r.Ok? ==> store.log != [] && r.value == Snapshot(store.log[|store.log| - 1].record)
      ensures r.Err? ==> r.error == StoreFailure || (r.error == Absent && store.log == [])
      ensures old(store.Quiet()) ==> store.log == old(store.log) && (r.Ok? <==> store.log != [])
    {
      var read := Read();
      r := match read
        case Ok((record, _)) => Ok(Snapshot(record))
        case Err(e) => Err(if e == Absent then AbsentIs(e) else e);
    }

    // What an absent object means: a known one has disappeared.
    function AbsentIs(otherwise: ManifestError): (e: ManifestError)
      reads this
      ensures e == ResourceDisappeared <==> resourceUID != "" || otherwise == ResourceDisappeared
      ensures resourceUID == "" ==> e == otherwise
    {
      if resourceUID != "" then ResourceDisappeared else otherwise
    }

    method Remember(record: Record)
      modifies this`resourceUID, this`lastEpoch, this`lastRevision, this`lastDigest
      ensures Remembered() == MemoryOf(record)
    {
      resourceUID := record.resourceUID;
      lastEpoch := record.acceptedEpochID;
      lastRevision := record.revision;
      lastDigest := Some(record);
    }

    static method Decode(record: Record) returns (ok: bool)
      ensures ok <==> ValidRecord(record)
    {
      var history := CheckHistory(record);
      ok := record.resourceUID != "" && record.acceptedEpochID != 0 && record.revision != 0
            && 0 < |record.payload| <= MAX_PAYLOAD_BYTES && history;
    }

    /** Sends the proposal; an unknown outcome makes it ambiguous, a success settles it. */
    method SendPending() returns (r: Result<Manifest, ManifestError>)
      requires Valid() && pending.Some?
      modifies this, store
      ensures Valid() && old(store.log) <= store.log
      ensures r.Ok? ==>
                && pending.None?
                && Settlement() == old(Settlement()) + 1
                && Success(store.log, r.value, old(pending).value.request)
      ensures r.Err? ==>
                && r.error in {WriteUnknown, WriteConflict, StoreFailure}
                && pending == Some(old(pending).value.(ambiguous := old(pending).value.ambiguous || r.error == WriteUnknown))
                && Settlement() == old(Settlement())
      ensures r.Err? && !pending.value.ambiguous ==> OwnCommits(store.log, id) == old(OwnCommits(store.log, id))
      ensures store.turns == Rest(old(store.turns))
      ensures old(store.Quiet()) ==>
                && store.Quiet()
                && (if old(pending).value.expected == CurrentVersion(old(store.log))
                    then r.Ok? && OneMore(old(store.log), store.log, id, old(pending).value.request)
                    else r == Err(WriteConflict) && store.log == old(store.log))
    {
      var p := pending.value;
      var w := WriteOf(id, p);
      var reply;
      ghost var mid;
      reply, mid := store.Put(w);
      ghost var (log0, limbo0, memory) := (old(store.log), old(store.limbo), Remembered());
      if reply.Stored? {
        StoredSettles(log0, limbo0, mid, store.log, id, p, memory);
        pending := None;
        Remember(p.record);
        r := Ok(Snapshot(p.record));
      } else if reply.Unknown? {
        UnknownSettlesNothing(log0, limbo0, mid, store.log, id, p, memory);
        pending := Some(p.(ambiguous := true));
        r := Err(WriteUnknown);
      } else {
        FailureSettlesNothing(log0, limbo0, mid, id, pending, memory);
        r := Err(if reply.Conflicted? then WriteConflict else StoreFailure);
      }
    }

    /** A mutation found in the current history did not leave its proposal behind: that one landed or is dead. */
    lemma MatchedIsDead(p: Proposal)
      requires Valid() && pending == Some(p) && store.log != []
      requires Contains(store.log[|store.log| - 1].record.history, p.request)
      ensures Slot(WriteOf(id, p)) < |store.log|
    {
    }

    // Every writer-side error of an ambiguous proposal wraps an unknown outcome.
    ghost predicate Reported(e: MutationError)
      reads this
    {
      pending.Some? && pending.value.ambiguous ==> e.unknown
    }

    // Nothing a false alarm would report.
    static predicate Plausible(e: MutationError) {
      e.cause !in {ResourceChanged, ResourceRolledBack, ResourceDisappeared}
    }

    // Forgets the retained proposal unless it is ambiguous.
    method DropDefinite()
      requires Valid() && pending.Some?
      modifies this`pending
      ensures Valid() && Settlement() == old(Settlement())
      ensures pending == if old(pending).value.ambiguous then old(pending) else None
    {
      if !pending.value.ambiguous { pending := None; }
    }

    /** How a reconciliation of the proposal that was pending leaves the writer. */
    twostate predicate Reconciled(r: Resolution)
      requires old(pending).Some?
      reads this, store
    {
      && old(store.log) <= store.log
      && (match r
          case Resolved(m) =>
            && pending.None?
            && old(Settlement()) <= Settlement() <= old(Settlement()) + 1
            && Success(store.log, m, old(pending).value.request)
          case Rebase => pending.None? && !old(pending).value.ambiguous && Settlement() == old(Settlement())
          case Unresolved(e) =>
            && Plausible(e)
            && Explained(old(store.log), store.log, old(pending).value.request, e.cause)
            && (e.cause == WriteConflict ==> pending.Some?)
            && Settlement() == old(Settlement())
            && (pending.Some? ==> pending.value.(ambiguous := false) == old(pending).value.(ambiguous := false))
            && (old(pending).value.ambiguous ==> pending == old(pending)))
      && (!r.Resolved? && (pending.None? || !pending.value.ambiguous) ==>
            OwnCommits(store.log, id) == old(OwnCommits(store.log, id)))
      && |store.turns| <= |old(store.turns)|
    }

    /** Reconciles the retained proposal with the current object: confirm, resend, rebase when it is safe, or give up. */
    method ResolvePending() returns (r: Resolution)
      requires Valid() && pending.Some?
      modifies this, store
      ensures Valid() && Reconciled(r)
      ensures old(store.Quiet()) ==>
                && store.Quiet() && ReconcileOutcome(old(store.log), store.log, id, old(pending).value, r)
                && (r.Resolved? || pending == if old(pending).value.ambiguous then old(pending) else None)
    {
      var p := pending.value;
      var read := Read();
      if read == Err(Absent) && p.expected.None? {
        r := Resend();
      } else if read.Err? {
        // An object that is absent although the proposal replaces a version of it has disappeared.
        var cause := if read.error == Absent then ResourceDisappeared else read.error;
        DropDefinite();
        r := Unresolved(MutationError(p.ambiguous && cause == ResourceDisappeared, cause));
      } else {
        ghost var mid := store.log;
        r := Reconcile(read.value.0, read.value.1);
        if r.Unresolved? {
          ExplainedLater(old(store.log), mid, store.log, store.log, p.request, p.request, r.error.cause);
        }
      }
    }

    // The decision on the object just read.
    method Reconcile(record: Record, version: nat) returns (r: Resolution)
      requires Valid() && pending.Some?
      requires store.log != [] && version == |store.log| - 1 && record == store.log[version].record
      modifies this, store
      ensures Valid() && Reconciled(r)
      ensures old(store.Quiet()) ==>
                && store.Quiet() && ReconcileOutcome(old(store.log), store.log, id, old(pending).value, r)
                && (r.Resolved? || pending == if old(pending).value.ambiguous then old(pending) else None)
    {
      var p := pending.value;
      var matched, conflict := HistoryStatus(record.history, p.request);
      if matched {
        MatchedIsDead(p);
        pending := None;
        r := Resolved(Snapshot(record));
      } else if conflict || record.acceptedEpochID > p.request.epochID {
        DropDefinite();
        ExplainedNow(store.log, store.log, p.request, if conflict then MutationConflict else Fenced);
        r := Unresolved(MutationError(p.ambiguous, if conflict then MutationConflict else Fenced));
      } else if Some(version) == p.expected {
        r := Resend();
      } else {
        DropDefinite();
        r := if p.ambiguous then Unresolved(MutationError(true, WriteUnknown)) else Rebase;
      }
    }

    method Resend() returns (r: Resolution)
      requires Valid() && pending.Some?
      modifies this, store
      ensures Valid() && Reconciled(r) && !r.Rebase?
      ensures old(store.Quiet()) && old(pending).value.expected == CurrentVersion(old(store.log)) ==>
                store.Quiet() && r.Resolved? && OneMore(old(store.log), store.log, id, old(pending).value.request)
    {
      var sent := SendPending();
      r := match sent
        case Ok(m) => Resolved(m)
        case Err(e) => Unresolved(MutationError(e == WriteUnknown, e));
    }

    /** Reads and prepares a fresh proposal: only from the version just read, only if the rules admit the request. */
    method Prepare(request: Request, uid: string) returns (plan: Plan)
      requires Valid() && pending.None? && ValidRequest(request) && uid != ""
      modifies this, store
      ensures Valid() && pending.None? && old(store.log) <= store.log && Settlement() == old(Settlement())
      ensures plan.Finished? ==> Success(store.log, plan.manifest, request)
      ensures plan.Fail? ==> Plausible(plan.error) && !plan.error.unknown
      ensures plan == Fail(MutationError(false, StoreFailure)) || PlanFits(store.log, request, plan)
      ensures store.turns == Rest(old(store.turns))
      ensures old(store.Quiet()) ==> store.Quiet() && store.log == old(store.log) && PlanFits(store.log, request, plan)
      ensures plan.Send? ==>
                && plan.proposal.request == request && !plan.proposal.ambiguous
                && LegalWrite(store.log, WriteOf(id, plan.proposal))
                && plan.proposal.expected == CurrentVersion(store.log)
    {
      var read := Read();
      if read == Err(Absent) && resourceUID == "" && request.operation.Activate? {
        return Send(Proposal(request, None, InitialRecord(request, uid), false));
      }
      if read.Err? {
        return Fail(MutationError(false, if read.error == Absent then AbsentIs(EpochNotActivated) else read.error));
      }
      var (record, version) := read.value;
      PreparedExactly(record, request);
      match PrepareExisting(record, request)
      case Done =>
        CommitMeans(store.log, |store.log| - 1);
        plan := Finished(Snapshot(record));
      case Rejected(e) => plan := Fail(MutationError(false, e));
      case Proceed => plan := Send(Proposal(request, Some(version), ResultRecord(record, request), false));
    }

    // Retains a proposal that has not been sent yet.
    method Retain(p: Proposal)
      requires Valid() && pending.None? && !p.ambiguous
      requires LegalWrite(store.log, WriteOf(id, p)) && p.expected == CurrentVersion(store.log)
      modifies this`pending
      ensures Valid() && pending == Some(p) && Settlement() == old(Settlement())
    {
      pending := Some(p);
    }

    // Sends a fresh proposal, and keeps it for the next attempt unless it succeeded or definitely failed.
    method SendFresh(p: Proposal) returns (outcome: Option<Result<Manifest, MutationError>>)
      requires Valid() && pending.None? && !p.ambiguous
      requires LegalWrite(store.log, WriteOf(id, p)) && p.expected == CurrentVersion(store.log)
      modifies this, store
      ensures Valid() && old(store.log) <= store.log
      ensures match outcome
              case Some(Ok(m)) =>
                pending.None? && Settlement() == old(Settlement()) + 1 && Success(store.log, m, p.request)
              case Some(Err(e)) =>
                pending.None? && Settlement() == old(Settlement()) && e == MutationError(false, StoreFailure)
              case None =>
                && pending.Some? && pending.value.(ambiguous := false) == p && Settlement() == old(Settlement())
                && |store.turns| + 1 == |old(store.turns)|
                && (!pending.value.ambiguous ==> OwnCommits(store.log, id) == old(OwnCommits(store.log, id)))
      ensures old(store.Quiet()) ==>
                store.Quiet() && outcome.Some? && outcome.value.Ok? && OneMore(old(store.log), store.log, id, p.request)
    {
      Retain(p);
      var sent := SendPending();
      if sent.Ok? { return Some(Ok(sent.value)); }
      if sent.error == StoreFailure {
        DropDefinite();
        return Some(Err(MutationError(false, StoreFailure)));
      }
      outcome := None;
    }

    /** One attempt without a retained proposal. No outcome yet: the proposal it sent is retained for the next attempt. */
    method AttemptFresh(request: Request, uid: string) returns (outcome: Option<Result<Manifest, MutationError>>)
      requires Valid() && pending.None? && ValidRequest(request) && uid != ""
      modifies this, store
      ensures Valid() && old(store.log) <= store.log
      ensures outcome.Some? ==> pending.None?
      ensures outcome.Some? && outcome.value.Ok? ==>
                && old(Settlement()) <= Settlement() <= old(Settlement()) + 1
                && Success(store.log, outcome.value.value, request)
      ensures outcome.Some? && outcome.value.Err? ==>
                && Settlement() == old(Settlement()) && Plausible(outcome.value.error) && !outcome.value.error.unknown
                && Explained(old(store.log), store.log, request, outcome.value.error.cause)
      ensures old(store.Quiet()) ==>
                store.Quiet() && outcome.Some? && FreshOutcome(old(store.log), store.log, id, request, outcome.value)
      ensures outcome.None? ==>
                && Settlement() == old(Settlement()) && pending.Some? && pending.value.request == request
                && |store.turns| + 2 == |old(store.turns)|
      ensures outcome.Some? && outcome.value.Err? ==> outcome.value.error.cause != WriteConflict
      ensures (outcome.None? && !pending.value.ambiguous) || (outcome.Some? && outcome.value.Err?) ==>
                OwnCommits(store.log, id) == old(OwnCommits(store.log, id))
    {
      var plan := Prepare(request, uid);
      if plan.Finished? { return Some(Ok(plan.manifest)); }
      if plan.Fail? {
        if plan.error.cause != StoreFailure { ExplainedNow(old(store.log), store.log, request, plan.error.cause); }
        return Some(Err(plan.error));
      }
      outcome := SendFresh(plan.proposal);
    }

    predicate Retains(p: Option<Proposal>, request: Request) {
      p.Some? ==> SameRequest(p.value.request, request)
    }

    /** Reconciles what is retained. No outcome: it is forgotten, and a fresh proposal is safe. */
    method AttemptRetained(request: Request) returns (outcome: Option<Result<Manifest, MutationError>>)
      requires Valid() && pending.Some? && Retains(pending, request)
      modifies this, store
      ensures Valid() && old(store.log) <= store.log && Retains(pending, request)
      ensures outcome.Some? && outcome.value.Ok? ==>
                && pending.None?
                && old(Settlement()) <= Settlement() <= old(Settlement()) + 1
                && Success(store.log, outcome.value.value, request)
      ensures outcome.None? || outcome.value.Err? ==>
                && Settlement() == old(Settlement())
                && (pending.None? || !pending.value.ambiguous ==>
                      OwnCommits(store.log, id) == old(OwnCommits(store.log, id)))
                && (old(pending).value.ambiguous ==> outcome.Some? && pending == old(pending))
      ensures outcome.None? ==> pending.None? && |store.turns| <= |old(store.turns)|
      ensures outcome.Some? && outcome.value.Err? && outcome.value.error.cause == WriteConflict ==> pending.Some?
      ensures outcome.Some? && outcome.value.Err? ==>
                && Plausible(outcome.value.error) && Reported(outcome.value.error)
                && Explained(old(store.log), store.log, request, outcome.value.error.cause)
      ensures old(store.Quiet()) ==>
                && store.Quiet()
                && (if outcome.Some? then
                      RetainedOutcome(old(store.log), store.log, id, old(pending).value, request, outcome.value)
                    else ReconcileOutcome(old(store.log), store.log, id, old(pending).value, Rebase))
    {
      var resolution := ResolvePending();
      match resolution
      case Resolved(m) => outcome := Some(Ok(m));
      case Rebase => outcome := None;
      case Unresolved(e) =>
        ExplainedLater(old(store.log), old(store.log), store.log, store.log, old(pending).value.request, request, e.cause);
        outcome := Some(Err(MutationError(e.unknown || (pending.Some? && pending.value.ambiguous), e.cause)));
    }

    /** One attempt: reconcile what is retained, and go on with a fresh proposal only when that is safe. */
    method Attempt(request: Request, uid: string) returns (outcome: Option<Result<Manifest, MutationError>>)
      requires Valid() && ValidRequest(request) && uid != "" && Retains(pending, request)
      modifies this, store
      ensures Valid() && old(store.log) <= store.log && Retains(pending, request)
      ensures outcome.Some? && outcome.value.Ok? ==>
                && pending.None?
                && old(Settlement()) <= Settlement() <= old(Settlement()) + 1
                && Success(store.log, outcome.value.value, request)
      ensures outcome.None? || outcome.value.Err? ==>
                && Settlement() == old(Settlement())
                && (pending.None? || !pending.value.ambiguous ==>
                      OwnCommits(store.log, id) == old(OwnCommits(store.log, id)))
                && (old(pending).Some? && old(pending).value.ambiguous ==> pending == old(pending))
      ensures outcome.Some? && outcome.value.Err? ==>
                && Plausible(outcome.value.error) && Reported(outcome.value.error)
                && Explained(old(store.log), store.log, request, outcome.value.error.cause)
      // going on takes at least two requests; and only a rejected resend reports a conflict, and is kept
      ensures outcome.None? ==> |store.turns| + 2 <= |old(store.turns)|
      ensures outcome.Some? && outcome.value.Err? && outcome.value.error.cause == WriteConflict ==> pending.Some?
      ensures old(store.Quiet()) ==>
                && store.Quiet() && outcome.Some?
                && (if old(pending).None? then FreshOutcome(old(store.log), store.log, id, request, outcome.value)
                    else RetainedOutcome(old(store.log), store.log, id, old(pending).value, request, outcome.value))
    {
      if pending.Some? {
        outcome := AttemptRetained(request);
        if outcome.Some? { return; }
      }
      ghost var mid := store.log;
      outcome := AttemptFresh(request, uid);
      if outcome.Some? && outcome.value.Err? {
        ExplainedLater(old(store.log), mid, store.log, store.log, request, request, outcome.value.error.cause);
      }
    }

    /**
     Activate or publish, with up to eight attempts. `cancelAt` is the attempt at which the caller's context is found
     canceled, and uids the identifiers a create would generate.
     */
    method Mutate(request: Request, uids: nat -> string, cancelAt: nat) returns (r: Result<Manifest, MutationError>)
      requires Valid() && ValidRequest(request) && (forall n: nat :: uids(n) != "")
      modifies this, store
      ensures Valid() && old(store.log) <= store.log
      // success
      ensures r.Ok? ==>
                && pending.None?
                && old(Settlement()) <= Settlement() <= old(Settlement()) + 1
                && Success(store.log, r.value, request)
      // failure settles nothing, raises no false alarm, and says when the outcome is unknown
      ensures r.Err? ==> Settlement() == old(Settlement()) && Plausible(r.error) && Reported(r.error)
      ensures r.Err? ==> Explained(old(store.log), store.log, request, r.error.cause)
      // it gives up for lack of success only after eight attempts, of at least two requests each
      ensures r == Err(MutationError(false, WriteConflict)) && pending.None? ==> |store.turns| + 16 <= |old(store.turns)|
      // undisturbed, it does what it is asked to, or says why not
      ensures old(store.Quiet()) && cancelAt > 0 && Retains(old(pending), request) ==>
                if old(pending).None? then FreshOutcome(old(store.log), store.log, id, request, r)
                else RetainedOutcome(old(store.log), store.log, id, old(pending).value, request, r)
      ensures r.Err? && !r.error.unknown ==> OwnCommits(store.log, id) == old(OwnCommits(store.log, id))
      // one proposal at a time, and an ambiguous one is neither rebased nor dropped
      ensures old(pending).Some? && !SameRequest(old(pending).value.request, request) ==>
                r == Err(MutationError(true, WriteUnknown)) && pending == old(pending) && store.log == old(store.log)
      ensures old(pending).Some? && old(pending).value.ambiguous ==> r.Ok? || pending == old(pending)
      ensures pending == old(pending) || Retains(pending, request)
    {
      if pending.Some? && !SameRequest(pending.value.request, request) {
        return Err(MutationError(true, WriteUnknown));
      }
      ghost var before := Settlement();
      ghost var own := OwnCommits(store.log, id);
      ghost var start := pending;
      for attempt := 0 to MAX_ATTEMPTS
        invariant Valid() && old(store.log) <= store.log
        invariant Settlement() == before
        invariant pending.None? || !pending.value.ambiguous ==> OwnCommits(store.log, id) == own
        invariant Retains(pending, request)
        invariant start.Some? && start.value.ambiguous ==> pending == start
        invariant |store.turns| + 2 * attempt <= |old(store.turns)|
        invariant old(store.Quiet()) ==> attempt == 0 && store.Quiet() && store.log == old(store.log) && pending == start
      {
        if attempt >= cancelAt {
          return Err(MutationError(pending.Some? && pending.value.ambiguous, ManifestError.Canceled));
        }
        ghost var mid := store.log;
        var outcome := Attempt(request, uids(attempt));
        if outcome.Some? {
          if outcome.value.Err? {
            ExplainedLater(old(store.log), mid, store.log, store.log, request, request, outcome.value.error.cause);
          }
          return outcome.value;
        }
      }
      r := Exhaust();
    }

    // After the last attempt an ambiguous proposal is kept, and any other is forgotten.
    method Exhaust() returns (r: Result<Manifest, MutationError>)
      requires Valid()
      modifies this`pending
      ensures Valid() && Settlement() == old(Settlement())
      ensures if old(pending).Some? && old(pending).value.ambiguous
              then pending == old(pending) && r == Err(MutationError(true, WriteUnknown))
              else pending == None && r == Err(MutationError(false, WriteConflict))
    {
      if pending.Some? {
        if pending.value.ambiguous { return Err(MutationError(true, WriteUnknown)); }
        pending := None;
      }
      r := Err(MutationError(false, WriteConflict));
    }

    /**
     A caller that repeats one mutation until it resolves, however often that takes, commits it at most once through this
     writer; if it gives up on a definite error, it committed nothing.
     */
    method MutateRepeatedly(request: Request, uids: nat -> string, cancelAt: seq<nat>)
      returns (r: Option<Result<Manifest, MutationError>>)
      requires Valid() && pending.None? && ValidRequest(request) && (forall n: nat :: uids(n) != "")
      modifies this, store
      ensures Valid() && old(store.log) <= store.log
      ensures old(OwnCommits(store.log, id)) <= OwnCommits(store.log, id) <= old(OwnCommits(store.log, id)) + 1
      ensures r.Some? && r.value.Ok? ==> Success(store.log, r.value.value, request)
      ensures r.Some? && r.value.Err? && !r.value.error.unknown ==>
                OwnCommits(store.log, id) == old(OwnCommits(store.log, id))
    {
      r := None;
      ghost var own := OwnCommits(store.log, id);
      for n := 0 to |cancelAt|
        invariant Valid() && old(store.log) <= store.log
        invariant Settlement() == own
        invariant r.None? ==> pending.None?
        invariant r.Some? ==> r.value.Err?
        invariant Retains(pending, request)
        invariant r.Some? && !r.value.error.unknown ==> pending.None? || !pending.value.ambiguous
      {
        var attempt := Mutate(request, uids, cancelAt[n]);
        r := Some(attempt);
        if attempt.Ok? { return; }
      }
    }
  }
}
