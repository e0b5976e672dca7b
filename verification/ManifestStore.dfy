/**
 The shared object as one writer sees it: between and during its requests any number of other writers commit, requests
 whose outcome it was not told arrive late, and its own requests and replies get lost. All of this is scripted by
 `turns`, one turn a request, so that a claim for every script is a claim for every interleaving.
 */
module ManifestStore {
  import opened Basics
  import opened ManifestRecords
  import opened ManifestLog

  datatype EnvEvent =
    | Other(writer: nat, request: Request, uid: string) // another writer's whole read-prepare-write, as it commits
    | Late(write: Write)                                // a write of unknown outcome reaches the store

  datatype Fault =
    | Clean
    | LostReply        // processed, but the sender is not told
    | LostRequest      // not processed yet; it may still arrive
    | ConflictReported // rejected, whether or not the precondition held
    | Refused          // a definite failure: not processed, and never will be

  datatype Turn = Turn(events: seq<EnvEvent>, fault: Fault)

  datatype GetReply = Found(record: Record, version: nat) | Missing | GetFailed

  datatype PutReply = Stored(version: nat) | Conflicted | Unknown | PutRefused

  // What the environment does to the log in one event.
  function Apply(log: seq<Commit>, limbo: set<Write>, e: EnvEvent): seq<Commit> {
    match e
    case Other(writer, r, uid) =>
      if !ValidRequest(r) then log
      else if log == [] then
        if r.operation.Activate? && uid != "" then [Commit(writer, r, InitialRecord(r, uid))] else log
      else
        var current := log[|log| - 1].record;
        if PrepareExisting(current, r).Proceed? then log + [Commit(writer, r, ResultRecord(current, r))] else log
    case Late(w) =>
      if w in limbo && w.expected == CurrentVersion(log) then log + [CommitOf(w)] else log
  }

  predicate Lands(w: Write, log: seq<Commit>, k: nat)
    requires k < |log|
  {
    Slot(w) == k && CommitOf(w) == log[k]
  }

  predicate FromElsewhere(self: nat, limbo: set<Write>, log: seq<Commit>, k: nat)
    requires k < |log|
  {
    log[k].writer != self || exists w :: w in limbo && Lands(w, log, k)
  }

  /** The log grew by commits of other writers and by writes already in limbo, nothing else. */
  predicate Advanced(self: nat, limbo: set<Write>, log: seq<Commit>, log': seq<Commit>) {
    && log <= log'
    && LegalLog(log')
    && (forall k :: |log| <= k < |log'| ==> FromElsewhere(self, limbo, log', k))
  }

  lemma AdvanceAgain(self: nat, limbo: set<Write>, log: seq<Commit>, mid: seq<Commit>, log': seq<Commit>)
    requires Advanced(self, limbo, log, mid) && Advanced(self, limbo, mid, log')
    ensures Advanced(self, limbo, log, log')
  {
    forall k | |log| <= k < |log'| ensures FromElsewhere(self, limbo, log', k) {
      if k < |mid| {
        assert FromElsewhere(self, limbo, mid, k);
        if log'[k].writer == self {
          var w :| w in limbo && Lands(w, mid, k);
          assert Lands(w, log', k);
        }
      }
    }
  }

  predicate EventFor(self: nat, e: EnvEvent) {
    e.Other? ==> e.writer != self
  }

  lemma ApplyAdvances(self: nat, limbo: set<Write>, log: seq<Commit>, e: EnvEvent)
    requires LegalLog(log) && (forall w :: w in limbo ==> LegalWrite(log, w)) && EventFor(self, e)
    ensures Advanced(self, limbo, log, Apply(log, limbo, e))
  {
    var log' := Apply(log, limbo, e);
    if log' != log {
      match e
      case Other(writer, r, uid) =>
        var w := Write(writer, r, CurrentVersion(log), log'[|log|].record);
        LegalExtends(log, w);
        assert log' == log + [CommitOf(w)];
      case Late(w) =>
        LegalExtends(log, w);
        assert Lands(w, log', |log|);
    }
  }

  // The turns left after one request.
  function Rest(turns: seq<Turn>): seq<Turn> {
    if turns == [] then [] else turns[1..]
  }

  class Store {
    var log: seq<Commit>
    var limbo: set<Write>
    var turns: seq<Turn>

    ghost predicate Valid(self: nat)
      reads this
    {
      && LegalLog(log)
      && (forall w :: w in limbo ==> LegalWrite(log, w))
      && (forall t, e :: 0 <= t < |turns| && 0 <= e < |turns[t].events| ==> EventFor(self, turns[t].events[e]))
    }

    // From here on nobody else writes, and every request and reply gets through.
    ghost predicate Quiet()
      reads this
    {
      forall t :: 0 <= t < |turns| ==> turns[t].events == [] && turns[t].fault == Clean
    }

    constructor (turns: seq<Turn>, ghost self: nat)
      requires forall t, e :: 0 <= t < |turns| && 0 <= e < |turns[t].events| ==> EventFor(self, turns[t].events[e])
      ensures Valid(self) && log == [] && limbo == {} && this.turns == turns
    {
      log, limbo, this.turns := [], {}, turns;
    }

    // Plays the next turn and says what happens to the request that takes it.
    method Play(ghost self: nat) returns (fault: Fault)
      requires Valid(self)
      modifies this`log, this`turns
      ensures Valid(self) && Advanced(self, limbo, old(log), log)
      ensures turns == Rest(old(turns))
      ensures old(Quiet()) ==> Quiet() && log == old(log) && fault == Clean
    {
      if turns == [] { return Clean; }
      var turn := turns[0];
      turns := turns[1..];
      for n := 0 to |turn.events|
        invariant Valid(self) && turns == old(turns)[1..]
        invariant Advanced(self, limbo, old(log), log)
        invariant turn.events == [] ==> log == old(log)
      {
        ghost var before := log;
        assert EventFor(self, old(turns)[0].events[n]);
        ApplyAdvances(self, limbo, log, turn.events[n]);
        log := Apply(log, limbo, turn.events[n]);
        AdvanceAgain(self, limbo, old(log), before, log);
        forall w | w in limbo ensures LegalWrite(log, w) { LegalStable(before, log, w); }
      }
      fault := turn.fault;
    }

    method Get(ghost self: nat) returns (reply: GetReply)
      requires Valid(self)
      modifies this`log, this`turns
      ensures Valid(self) && Advanced(self, limbo, old(log), log)
      ensures reply.Found? ==> log != [] && reply.version == |log| - 1 && reply.record == log[|log| - 1].record
      ensures reply.Missing? ==> log == []
      ensures turns == Rest(old(turns))
      ensures old(Quiet()) ==> Quiet() && log == old(log) && !reply.GetFailed?
    {
      var fault := Play(self);
      if fault.Refused? {
        reply := GetFailed;
      } else if log == [] {
        reply := Missing;
      } else {
        reply := Found(log[|log| - 1].record, |log| - 1);
      }
    }

    /**
     A conditional write. `mid` is the log when the request reaches the store. The request must be one its writer
     prepared from the version it expects; Writer shows that all of its requests are.
     */
    method Put(w: Write) returns (reply: PutReply, ghost mid: seq<Commit>)
      requires Valid(w.writer) && LegalWrite(log, w)
      modifies this
      ensures Valid(w.writer) && Advanced(w.writer, old(limbo), old(log), mid)
      ensures log == mid || (log == mid + [CommitOf(w)] && w.expected == CurrentVersion(mid))
      ensures limbo == old(limbo) + (if reply.Unknown? then {w} else {})
      ensures reply.Stored? ==> log == mid + [CommitOf(w)] && reply.version == |log| - 1
      ensures reply.Conflicted? || reply.PutRefused? ==> log == mid
      ensures turns == Rest(old(turns))
      ensures old(Quiet()) ==>
                Quiet() && mid == old(log) && (if w.expected == CurrentVersion(mid) then reply.Stored? else reply.Conflicted?)
    {
      var fault := Play(w.writer);
      mid := log;
      LegalStable(old(log), log, w);
      if fault.Refused? { return PutRefused, mid; }
      if fault.ConflictReported? { return Conflicted, mid; }
      if fault.LostRequest? {
        limbo := limbo + {w};
        return Unknown, mid;
      }
      if w.expected == CurrentVersion(log) {
        LegalExtends(log, w);
        log := log + [CommitOf(w)];
        forall x | x in limbo ensures LegalWrite(log, x) { LegalStable(mid, log, x); }
        LegalStable(mid, log, w);
        reply := Stored(|log| - 1);
      } else {
        reply := Conflicted;
      }
      if fault.LostReply? {
        limbo := limbo + {w};
        reply := Unknown;
      }
    }
  }
}
