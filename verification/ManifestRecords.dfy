/** The fenced manifest record: mutation requests, the rules that admit them, and the bounded mutation history. */
module ManifestRecords {
  import opened Basics
  import LeaseRecords

  const MAX_HISTORY := 8
  const MAX_MUTATION_ID_BYTES := 256
  const MAX_PAYLOAD_BYTES := 40960

  datatype ManifestError =
    | Fenced
    | EpochNotActivated
    | MutationConflict
    | ResourceDisappeared
    | ResourceChanged
    | ResourceRolledBack
    | InvalidManifest
    | InvalidRequest
    | Absent
    | WriteConflict
    | WriteUnknown
    | Canceled
    | StoreFailure

  datatype Operation = Activate | Publish

  datatype Request = Request(operation: Operation, epochID: nat, mutationID: string, payload: string, digest: nat)

  datatype HistoryRecord = HistoryRecord(epochID: nat, mutationID: string, mutationDigest: nat, activation: bool)

  datatype Record = Record(
    resourceUID: string,
    acceptedEpochID: nat,
    revision: nat,
    payload: string,
    history: seq<HistoryRecord>)

  datatype Entry = Entry(epochID: nat, mutationID: string, activation: bool)

  // The immutable snapshot a caller gets.
  datatype Manifest = Manifest(
    resourceUID: string,
    acceptedEpochID: nat,
    revision: nat,
    lastMutationID: string,
    payload: string,
    history: seq<Entry>)

  function Trim(s: string): string
    decreases |s|
  {
    if s == "" then s
    else if LeaseRecords.IsSpace(s[0]) then Trim(s[1..])
    else if LeaseRecords.IsSpace(s[|s| - 1]) then Trim(s[..|s| - 1])
    else s
  }

  /** Trimming takes the white space off both ends, and nothing else. */
  lemma {:induction false} TrimMeans(s: string) returns (i: nat, j: nat)
    ensures i <= j <= |s| && Trim(s) == s[i..j]
    ensures forall k :: 0 <= k < i || j <= k < |s| ==> LeaseRecords.IsSpace(s[k])
    ensures i < j ==> !LeaseRecords.IsSpace(s[i]) && !LeaseRecords.IsSpace(s[j - 1])
    decreases |s|
  {
    if s == "" {
      i, j := 0, 0;
    } else if LeaseRecords.IsSpace(s[0]) {
      i, j := TrimMeans(s[1..]);
      assert s[1..][i..j] == s[i + 1..j + 1];
      forall k | 0 <= k < i + 1 || j + 1 <= k < |s| ensures LeaseRecords.IsSpace(s[k]) {
        if k > 0 { assert s[k] == s[1..][k - 1]; }
      }
      i, j := i + 1, j + 1;
    } else if LeaseRecords.IsSpace(s[|s| - 1]) {
      i, j := TrimMeans(s[..|s| - 1]);
    } else {
      i, j := 0, |s|;
    }
  }

  predicate ValidRequest(r: Request) {
    && r.epochID > 0
    && 0 < |r.mutationID| <= MAX_MUTATION_ID_BYTES
    && (r.operation.Publish? ==> 0 < |r.payload| <= MAX_PAYLOAD_BYTES)
  }

  // `compact` says what a payload becomes: nothing if it is not valid JSON, and else a string no longer than it.
  ghost predicate Compacts(compact: string -> Option<string>) {
    forall s: string :: compact(s).Some? ==> 0 < |compact(s).value| <= |s|
  }

  /** Which requests are admitted, and what an admitted one is; its digest is whatever `hash` makes of it. */
  function NewRequest(op: Operation, epochID: nat, mutationID: string, payload: string,
                      compact: string -> Option<string>, hash: (Operation, nat, string, string) -> nat)
    : (r: Result<Request, ManifestError>)
    requires Compacts(compact)
    ensures r.Ok? <==>
              && epochID > 0
              && 0 < |Trim(mutationID)| <= MAX_MUTATION_ID_BYTES
              && (op.Publish? ==> 0 < |payload| <= MAX_PAYLOAD_BYTES && compact(payload).Some?)
    ensures r.Ok? ==>
              && ValidRequest(r.value) && r.value.operation == op && r.value.epochID == epochID
              && r.value.mutationID == Trim(mutationID)
              && r.value.payload == (if op.Publish? then compact(payload).value else payload)
              && r.value.digest == hash(op, epochID, r.value.mutationID, r.value.payload)
    ensures r.Err? ==> r.error == InvalidRequest
  {
    var id := Trim(mutationID);
    if epochID == 0 then Err(InvalidRequest)
    else if id == "" || |id| > MAX_MUTATION_ID_BYTES then Err(InvalidRequest)
    else if op.Publish? then
      if |payload| == 0 || |payload| > MAX_PAYLOAD_BYTES || compact(payload).None? then Err(InvalidRequest)
      else Ok(Request(op, epochID, id, compact(payload).value, hash(op, epochID, id, compact(payload).value)))
    else Ok(Request(op, epochID, id, payload, hash(op, epochID, id, payload)))
  }

  predicate SameRequest(a: Request, b: Request) {
    a.operation == b.operation && a.epochID == b.epochID && a.mutationID == b.mutationID && a.digest == b.digest
  }

  function NewHistoryRecord(r: Request): HistoryRecord {
    HistoryRecord(r.epochID, r.mutationID, r.digest, r.operation.Activate?)
  }

  // The history names this mutation ID.
  predicate Mentions(history: seq<HistoryRecord>, mutationID: string) {
    exists k :: 0 <= k < |history| && history[k].mutationID == mutationID
  }

  // The history contains this very mutation.
  predicate Contains(history: seq<HistoryRecord>, r: Request) {
    exists k :: 0 <= k < |history| && history[k].mutationID == r.mutationID && history[k].mutationDigest == r.digest
  }

  function InitialRecord(r: Request, uid: string): Record {
    Record(uid, r.epochID, 1, "null", [NewHistoryRecord(r)])
  }

  datatype Preparation = Done | Rejected(error: ManifestError) | Proceed

  function PrepareExisting(record: Record, r: Request): Preparation {
    if r.epochID < record.acceptedEpochID then Rejected(Fenced)
    else if Contains(record.history, r) then Done
    else if Mentions(record.history, r.mutationID) then Rejected(MutationConflict)
    else if r.operation.Activate? && r.epochID == record.acceptedEpochID then Done
    else if r.operation.Publish? && r.epochID > record.acceptedEpochID then Rejected(EpochNotActivated)
    else if record.revision == MAX_UINT64 then Rejected(InvalidManifest)
    else Proceed
  }

  function Newest(history: seq<HistoryRecord>): seq<HistoryRecord> {
    if |history| > MAX_HISTORY then history[|history| - MAX_HISTORY..] else history
  }

  function Max(a: nat, b: nat): nat {
    if a < b then b else a
  }

  function ResultRecord(current: Record, r: Request): Record {
    Record(current.resourceUID,
           Max(current.acceptedEpochID, r.epochID),
           current.revision + 1,
           if r.operation.Publish? then r.payload else current.payload,
           Newest(current.history + [NewHistoryRecord(r)]))
  }

  function Snapshot(record: Record): Manifest {
    var history := seq(|record.history|, k requires 0 <= k < |record.history| =>
                         Entry(record.history[k].epochID, record.history[k].mutationID, record.history[k].activation));
    Manifest(record.resourceUID, record.acceptedEpochID, record.revision,
             if history == [] then "" else history[|history| - 1].mutationID, record.payload, history)
  }

  // What a retained history must look like -------------------------------------------------------------------------------

  predicate EntryValid(record: Record, k: nat)
    requires k < |record.history|
  {
    var e := record.history[k];
    && 0 < e.epochID <= record.acceptedEpochID
    && 0 < |e.mutationID| <= MAX_MUTATION_ID_BYTES
    && (if k == 0 then record.revision <= MAX_HISTORY ==> e.activation
        else && e.epochID >= record.history[k - 1].epochID
             && (e.activation <==> e.epochID > record.history[k - 1].epochID))
  }

  /**
   As many entries as there were mutations, up to the bound; epochs in order and ending in the accepted one; activations
   exactly where the epoch grows; no mutation ID twice.
   */
  predicate ValidHistory(record: Record) {
    && |record.history| == (if record.revision <= MAX_HISTORY then record.revision else MAX_HISTORY)
    && (forall k :: 0 <= k < |record.history| ==> EntryValid(record, k))
    && (forall j, k :: 0 <= j < k < |record.history| ==> record.history[j].mutationID != record.history[k].mutationID)
    && record.acceptedEpochID == (if record.history == [] then 0 else record.history[|record.history| - 1].epochID)
  }

  predicate ValidRecord(record: Record) {
    && record.resourceUID != ""
    && record.acceptedEpochID != 0
    && record.revision != 0
    && 0 < |record.payload| <= MAX_PAYLOAD_BYTES
    && ValidHistory(record)
  }

  lemma InitialValid(r: Request, uid: string)
    requires ValidRequest(r) && r.operation.Activate? && uid != ""
    ensures ValidRecord(InitialRecord(r, uid))
  {
  }

  // What becomes of a request on the current record ------------------------------------------------------------------------

  // It is a mutation of its own: nothing in the retained history has its ID, and it publishes in the accepted epoch or activates
  // a larger one.
  predicate Admissible(record: Record, r: Request) {
    && (forall k :: 0 <= k < |record.history| ==> record.history[k].mutationID != r.mutationID)
    && (if r.operation.Publish? then r.epochID == record.acceptedEpochID else r.epochID > record.acceptedEpochID)
  }

  // It needs nothing any more: the retained history has it, or it activates the accepted epoch.
  predicate Stands(record: Record, r: Request) {
    && r.epochID >= record.acceptedEpochID
    && (|| Contains(record.history, r)
        || (!Mentions(record.history, r.mutationID) && r.operation.Activate? && r.epochID == record.acceptedEpochID))
  }

  // It is refused for this reason.
  predicate RefusedFor(record: Record, r: Request, e: ManifestError) {
    match e
    case Fenced => r.epochID < record.acceptedEpochID
    case MutationConflict =>
      r.epochID >= record.acceptedEpochID && Mentions(record.history, r.mutationID) && !Contains(record.history, r)
    case EpochNotActivated =>
      !Mentions(record.history, r.mutationID) && r.operation.Publish? && r.epochID > record.acceptedEpochID
    case InvalidManifest => Admissible(record, r) && record.revision == MAX_UINT64
    case _ => false
  }

  /** Exactly one of these happens: the request goes ahead, needs nothing, or is refused, for one reason. */
  lemma PreparedExactly(record: Record, r: Request)
    ensures PrepareExisting(record, r).Proceed? <==> Admissible(record, r) && record.revision != MAX_UINT64
    ensures PrepareExisting(record, r).Done? <==> Stands(record, r)
    ensures forall e :: PrepareExisting(record, r) == Rejected(e) <==> RefusedFor(record, r, e)
  {
    if Contains(record.history, r) { assert Mentions(record.history, r.mutationID); }
  }

  /** An admitted request goes exactly one way: a publication in the accepted epoch, or an activation above it. */
  lemma ProceedMeans(record: Record, r: Request)
    requires PrepareExisting(record, r).Proceed?
    ensures r.operation.Publish? ==> r.epochID == record.acceptedEpochID
    ensures r.operation.Activate? ==> r.epochID > record.acceptedEpochID
    ensures ResultRecord(record, r).acceptedEpochID == r.epochID
    ensures !Mentions(record.history, r.mutationID)
  {
  }

  // Where the entries of the next record come from.
  lemma NextEntries(record: Record, r: Request) returns (drop: nat)
    requires ValidRecord(record)
    ensures var (was, next) := (record.history, ResultRecord(record, r).history);
            && was != [] && next != []
            && drop + |next| == |was| + 1
            && next[|next| - 1] == NewHistoryRecord(r)
            && (forall k :: 0 <= k < |next| - 1 ==> next[k] == was[drop + k])
    ensures drop == if |record.history| == MAX_HISTORY then 1 else 0
  {
    var all := record.history + [NewHistoryRecord(r)];
    drop := if |record.history| == MAX_HISTORY then 1 else 0;
    assert ValidHistory(record) && 0 < |record.history| <= MAX_HISTORY;
    assert Newest(all) == all[drop..];
    assert ResultRecord(record, r).history == all[drop..];
  }

  lemma NextDistinct(record: Record, r: Request)
    requires ValidRecord(record) && !Mentions(record.history, r.mutationID)
    ensures var next := ResultRecord(record, r).history;
            forall j, k :: 0 <= j < k < |next| ==> next[j].mutationID != next[k].mutationID
  {
    var drop := NextEntries(record, r);
  }

  /** Truncation keeps the history acceptable: a record written by the rules is never rejected when read. */
  lemma ResultValid(record: Record, r: Request)
    requires ValidRecord(record) && ValidRequest(r) && PrepareExisting(record, r).Proceed?
    ensures ValidRecord(ResultRecord(record, r))
  {
    ProceedMeans(record, r);
    NextDistinct(record, r);
    var next := ResultRecord(record, r);
    var drop := NextEntries(record, r);
    forall k | 0 <= k < |next.history| ensures EntryValid(next, k) {
      if k < |next.history| - 1 {
        assert EntryValid(record, drop + k);
      } else {
        assert EntryValid(record, |record.history| - 1);
      }
    }
  }

  method HistoryStatus(history: seq<HistoryRecord>, r: Request) returns (matched: bool, conflict: bool)
    ensures matched <==> Contains(history, r)
    ensures conflict <==> Mentions(history, r.mutationID) && !Contains(history, r)
  {
    conflict := false;
    for k := 0 to |history|
      invariant conflict <==> Mentions(history[..k], r.mutationID)
      invariant !Contains(history[..k], r)
    {
      assert history[..k + 1] == history[..k] + [history[k]];
      if history[k].mutationID == r.mutationID {
        if history[k].mutationDigest == r.digest { return true, false; }
        conflict := true;
      }
    }
    assert history[..|history|] == history;
    matched := false;
  }

  method CheckHistory(record: Record) returns (ok: bool)
    ensures ok <==> ValidHistory(record)
  {
    var expected := if record.revision <= MAX_HISTORY then record.revision else MAX_HISTORY;
    if |record.history| != expected { return false; }
    var seen: set<string> := {};
    var previousEpoch := 0;
    for k := 0 to |record.history|
      invariant previousEpoch == if k == 0 then 0 else record.history[k - 1].epochID
      invariant forall j :: 0 <= j < k ==> EntryValid(record, j)
      invariant forall j :: 0 <= j < k ==> record.history[j].mutationID in seen
      invariant forall id :: id in seen ==> exists j :: 0 <= j < k && record.history[j].mutationID == id
      invariant forall i, j :: 0 <= i < j < k ==> record.history[i].mutationID != record.history[j].mutationID
    {
      var e := record.history[k];
      if e.epochID == 0 || e.epochID > record.acceptedEpochID || e.epochID < previousEpoch
         || e.mutationID == "" || |e.mutationID| > MAX_MUTATION_ID_BYTES {
        assert !EntryValid(record, k);
        return false;
      }
      if e.mutationID in seen { return false; }
      seen := seen + {e.mutationID};
      if k == 0 && record.revision <= MAX_HISTORY && !e.activation {
        assert !EntryValid(record, k);
        return false;
      }
      if k > 0 && e.activation != (e.epochID > previousEpoch) {
        assert !EntryValid(record, k);
        return false;
      }
      previousEpoch := e.epochID;
    }
    ok := previousEpoch == record.acceptedEpochID;
  }
}
