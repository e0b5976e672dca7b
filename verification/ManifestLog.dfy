/** The committed history of one manifest, written by any number of writers. */
module ManifestLog {
  import opened Basics
  import opened ManifestRecords

  // Commit k produced version k of the object.
  datatype Commit = Commit(writer: nat, request: Request, record: Record)

  // A conditional write: expected None creates, Some(v) replaces exactly version v.
  datatype Write = Write(writer: nat, request: Request, expected: Option<nat>, record: Record)

  function CurrentVersion(log: seq<Commit>): Option<nat> {
    if log == [] then None else Some(|log| - 1)
  }

  // The position this write takes in the log if it ever commits.
  function Slot(w: Write): nat {
    if w.expected.None? then 0 else w.expected.value + 1
  }

  function CommitOf(w: Write): Commit {
    Commit(w.writer, w.request, w.record)
  }

  /** A write some writer prepared from the very version it expects. */
  predicate LegalWrite(log: seq<Commit>, w: Write) {
    && ValidRequest(w.request)
    && match w.expected
       case None =>
         w.request.operation.Activate? && w.record.resourceUID != ""
         && w.record == InitialRecord(w.request, w.record.resourceUID)
       case Some(v) =>
         && v < |log|
         && PrepareExisting(log[v].record, w.request).Proceed?
         && w.record == ResultRecord(log[v].record, w.request)
  }

  predicate LegalCommit(log: seq<Commit>, k: nat)
    requires k < |log|
  {
    LegalWrite(log[..k], Write(log[k].writer, log[k].request, CurrentVersion(log[..k]), log[k].record))
  }

  /** Every commit is a legal write on the version before it. */
  predicate LegalLog(log: seq<Commit>) {
    forall k :: 0 <= k < |log| ==> LegalCommit(log, k)
  }

  lemma LegalExtends(log: seq<Commit>, w: Write)
    requires LegalLog(log) && LegalWrite(log, w) && w.expected == CurrentVersion(log)
    ensures LegalLog(log + [CommitOf(w)])
  {
    var log' := log + [CommitOf(w)];
    forall k | 0 <= k < |log'| ensures LegalCommit(log', k) {
      if k < |log| {
        assert LegalCommit(log, k);
        assert log'[..k] == log[..k];
      } else {
        assert log'[..k] == log;
      }
    }
  }

  lemma LegalStable(log: seq<Commit>, log': seq<Commit>, w: Write)
    requires LegalWrite(log, w) && log <= log'
    ensures LegalWrite(log', w)
  {
  }

  lemma LegalPrefix(log: seq<Commit>, n: nat)
    requires LegalLog(log) && n <= |log|
    ensures LegalLog(log[..n])
  {
    forall k | 0 <= k < n ensures LegalCommit(log[..n], k) {
      assert LegalCommit(log, k);
      assert log[..n][..k] == log[..k];
    }
  }

  /** Every commit is an acceptable record whose revision counts the commits and whose accepted epoch is its request's. */
  lemma {:induction false} CommitMeans(log: seq<Commit>, k: nat)
    requires LegalLog(log) && k < |log|
    ensures ValidRecord(log[k].record) && ValidRequest(log[k].request)
    ensures log[k].record.revision == k + 1 <= MAX_UINT64
    ensures log[k].record.acceptedEpochID == log[k].request.epochID
    ensures log[k].record.resourceUID == log[0].record.resourceUID
    ensures log[k].record.history != [] &&
            log[k].record.history[|log[k].record.history| - 1] == NewHistoryRecord(log[k].request)
  {
    assert LegalCommit(log, k);
    if k == 0 {
      InitialValid(log[0].request, log[0].record.resourceUID);
    } else {
      CommitMeans(log, k - 1);
      ResultValid(log[k - 1].record, log[k].request);
      ProceedMeans(log[k - 1].record, log[k].request);
    }
  }

  /**
   Fencing: a publication commits only on a predecessor that accepted exactly its epoch; an activation only above it, and
   it leaves the payload alone.
   */
  lemma CommitFenced(log: seq<Commit>, k: nat)
    requires LegalLog(log) && 0 < k < |log|
    ensures log[k].request.operation.Publish? ==>
              log[k].request.epochID == log[k - 1].record.acceptedEpochID
              && log[k].record.payload == log[k].request.payload
    ensures log[k].request.operation.Activate? ==>
              log[k].request.epochID > log[k - 1].record.acceptedEpochID
              && log[k].record.payload == log[k - 1].record.payload
  {
    assert LegalCommit(log, k);
    ProceedMeans(log[k - 1].record, log[k].request);
  }

  /** The accepted epoch never goes back, so nothing below an activated epoch ever commits again. */
  lemma {:induction false} EpochsMonotone(log: seq<Commit>, j: nat, k: nat)
    requires LegalLog(log) && j <= k < |log|
    ensures log[j].record.acceptedEpochID <= log[k].record.acceptedEpochID
    ensures log[j].request.epochID <= log[k].request.epochID
    ensures j < k && log[k].request.operation.Activate? ==> log[j].request.epochID < log[k].request.epochID
    decreases k
  {
    CommitMeans(log, j);
    CommitMeans(log, k);
    if j < k {
      CommitMeans(log, k - 1);
      CommitFenced(log, k);
      EpochsMonotone(log, j, k - 1);
    }
  }

  // The manifest is the whole log, summarised -----------------------------------------------------------------------------

  // The history entries of all commits, without a bound.
  function FullHistory(log: seq<Commit>): (h: seq<HistoryRecord>)
    ensures |h| == |log|
  {
    if log == [] then [] else FullHistory(log[..|log| - 1]) + [NewHistoryRecord(log[|log| - 1].request)]
  }

  function LastPayload(log: seq<Commit>): string {
    if log == [] then "null"
    else if log[|log| - 1].request.operation.Publish? then log[|log| - 1].request.payload
    else LastPayload(log[..|log| - 1])
  }

  // Truncating after every append loses nothing over truncating once.
  lemma SummaryStep(full: seq<HistoryRecord>, current: Record, r: Request)
    requires current.history == Newest(full)
    ensures ResultRecord(current, r).history == Newest(full + [NewHistoryRecord(r)])
  {
  }

  /** The stored record is determined by the mutations committed so far: newest eight of them, and the last publication. */
  lemma {:induction false} RecordIsSummary(log: seq<Commit>)
    requires LegalLog(log) && log != []
    ensures var record := log[|log| - 1].record;
            && record.history == Newest(FullHistory(log))
            && record.payload == LastPayload(log)
            && record.revision == |log|
            && record.acceptedEpochID == log[|log| - 1].request.epochID
    decreases |log|
  {
    var k := |log| - 1;
    var before := log[..k];
    CommitMeans(log, k);
    assert LegalCommit(log, k);
    if k > 0 {
      LegalPrefix(log, k);
      RecordIsSummary(before);
      CommitFenced(log, k);
      assert before[k - 1] == log[k - 1];
      SummaryStep(FullHistory(before), before[k - 1].record, log[k].request);
    } else {
      assert before == [];
    }
  }

  lemma HistoryAt(log: seq<Commit>, k: nat)
    requires LegalLog(log) && log != [] && k < |log[|log| - 1].record.history|
    ensures |log[|log| - 1].record.history| == if |log| < MAX_HISTORY then |log| else MAX_HISTORY
    ensures log[|log| - 1].record.history[k]
         == NewHistoryRecord(log[|log| - |log[|log| - 1].record.history| + k].request)
  {
    RecordIsSummary(log);
    FullHistoryAt(log, |log| - |log[|log| - 1].record.history| + k);
  }

  // Entry k of a snapshot is that of the commit as far from the end.
  predicate Shows(m: Manifest, log: seq<Commit>, k: nat)
    requires k < |m.history| <= |log|
  {
    var r := log[|log| - |m.history| + k].request;
    m.history[k] == Entry(r.epochID, r.mutationID, r.operation.Activate?)
  }

  /** So a snapshot shows the last commit's epoch and mutation, the last publication, and the newest mutations in order. */
  lemma {:induction false} SnapshotShows(log: seq<Commit>, m: Manifest)
    requires LegalLog(log) && log != [] && m == Snapshot(log[|log| - 1].record)
    ensures m.resourceUID == log[0].record.resourceUID
    ensures m.acceptedEpochID == log[|log| - 1].request.epochID && m.revision == |log|
    ensures m.payload == LastPayload(log) && m.lastMutationID == log[|log| - 1].request.mutationID
    ensures |m.history| == if |log| < MAX_HISTORY then |log| else MAX_HISTORY
    ensures forall k :: 0 <= k < |m.history| ==> Shows(m, log, k)
  {
    RecordIsSummary(log);
    CommitMeans(log, |log| - 1);
    forall k | 0 <= k < |m.history| ensures |m.history| <= |log| && Shows(m, log, k) {
      HistoryAt(log, k);
    }
  }

  /** A mutation the retained history contains was committed, unchanged, by one of the last eight commits. */
  lemma {:induction false} ContainedWasCommitted(log: seq<Commit>, r: Request) returns (k: nat)
    requires LegalLog(log) && log != [] && Contains(log[|log| - 1].record.history, r)
    ensures k < |log| <= k + MAX_HISTORY
    ensures log[k].request.mutationID == r.mutationID && log[k].request.digest == r.digest
  {
    RecordIsSummary(log);
    var history := log[|log| - 1].record.history;
    var h :| 0 <= h < |history| && history[h].mutationID == r.mutationID && history[h].mutationDigest == r.digest;
    k := |log| - |history| + h;
    FullHistoryAt(log, k);
  }

  lemma {:induction false} FullHistoryAt(log: seq<Commit>, k: nat)
    requires k < |log|
    ensures FullHistory(log)[k] == NewHistoryRecord(log[k].request)
    decreases |log|
  {
    if k < |log| - 1 {
      FullHistoryAt(log[..|log| - 1], k);
    }
  }
}
