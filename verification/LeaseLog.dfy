/** The committed history of the lease object: what every commit looks like, and what follows for any two of them. */
module LeaseLog {
  import opened Basics
  import opened LeaseRecords
  import opened LeaseClient
  import opened LeaseSystem

  // Global time at which process i first sent p.
  function SentAt(fleet: Fleet, i: nat, p: Proposal): Time
    requires i < |fleet.offsets|
  {
    p.firstSendAt - fleet.offsets[i]
  }

  function Rec(log: seq<Commit>, k: nat): Record
    requires k < |log|
  {
    log[k].proposal.record
  }

  /** Process i may propose p on top of the commit prev: the record transition, who may make it, and how long it waited. */
  predicate Follows(fleet: Fleet, prev: Commit, i: nat, p: Proposal)
    requires FleetOk(fleet) && i < |fleet.configs| && prev.owner < |fleet.configs|
  {
    var base := prev.proposal.record;
    && SentAt(fleet, i, p) >= prev.at
    && match p.kind
       case Acquire =>
         && AcquisitionRecord(base, fleet.configs[i], p.record.renewTime) == Ok(p.record)
         && (base.clientID != "" ==>
               SentAt(fleet, i, p) >= SentAt(fleet, prev.owner, prev.proposal) + Advertised(base))
       case Renew =>
         prev.owner == i && base.clientID != "" && RenewalRecord(base, p.record.renewTime) == Ok(p.record)
       case Release =>
         prev.owner == i && base.clientID != "" && ReleaseRecord(base, p.record.renewTime) == Ok(p.record)
  }

  /** p is a write the protocol lets process i send: a create, or a transition from an existing commit. */
  predicate WriteOk(fleet: Fleet, log: seq<Commit>, i: nat, p: Proposal)
    requires FleetOk(fleet)
  {
    && i < |fleet.configs|
    && p.record.renewTime != ZERO_TIME
    && p.firstSendAt > 0
    && match p.expected
       case None =>
         p.kind == ProposalKind.Acquire && p.record.uid != ""
         && p.record == InitialRecord(fleet.configs[i], p.record.uid, p.record.renewTime)
       case Some(v) => v < |log| && log[v].owner < |fleet.configs| && Follows(fleet, log[v], i, p)
  }

  predicate EntryOk(fleet: Fleet, log: seq<Commit>, k: nat)
    requires FleetOk(fleet) && k < |log|
  {
    && log[k].proposal.expected == CurrentVersion(log[..k])
    && WriteOk(fleet, log, log[k].owner, log[k].proposal)
    && SentAt(fleet, log[k].owner, log[k].proposal) <= log[k].at
  }

  predicate LogOk(fleet: Fleet, log: seq<Commit>)
    requires FleetOk(fleet)
  {
    forall k :: 0 <= k < |log| ==> EntryOk(fleet, log, k)
  }

  lemma WriteStable(fleet: Fleet, log: seq<Commit>, c: Commit, i: nat, p: Proposal)
    requires FleetOk(fleet) && WriteOk(fleet, log, i, p)
    ensures WriteOk(fleet, log + [c], i, p)
  {
  }

  /** A permitted write that meets its precondition keeps the history well-formed. */
  lemma LogExtends(fleet: Fleet, log: seq<Commit>, i: nat, p: Proposal, at: Time)
    requires FleetOk(fleet) && LogOk(fleet, log)
    requires WriteOk(fleet, log, i, p) && p.expected == CurrentVersion(log) && SentAt(fleet, i, p) <= at
    ensures LogOk(fleet, log + [Commit(i, p, at)])
  {
    var log' := log + [Commit(i, p, at)];
    forall k | 0 <= k < |log'| ensures EntryOk(fleet, log', k) {
      if k < |log| {
        assert EntryOk(fleet, log, k);
        assert log'[..k] == log[..k];
        WriteStable(fleet, log, Commit(i, p, at), log[k].owner, log[k].proposal);
      } else {
        assert log'[..k] == log;
        WriteStable(fleet, log, Commit(i, p, at), i, p);
      }
    }
  }

  /** Every committed record passes the checks a reader applies to a decoded body, and its counters fit. */
  lemma {:induction false} CommitsAccepted(fleet: Fleet, log: seq<Commit>, k: nat)
    requires FleetOk(fleet) && LogOk(fleet, log) && k < |log|
    ensures ValidRecord(Rec(log, k)) && CountersFit(Rec(log, k))
  {
    assert EntryOk(fleet, log, k);
    var config := fleet.configs[log[k].owner];
    if k == 0 {
      InitialAccepted(config, Rec(log, 0).uid, Rec(log, 0).renewTime);
    } else {
      CommitsAccepted(fleet, log, k - 1);
      TransitionsAccepted(Rec(log, k - 1), config, Rec(log, k).renewTime, Rec(log, k));
    }
  }

  /** Commits keep one UID, strictly grow in (epoch, sequence), and each is first sent after its predecessor committed. */
  lemma {:induction false} CommitsOrdered(fleet: Fleet, log: seq<Commit>, j: nat, k: nat)
    requires FleetOk(fleet) && LogOk(fleet, log) && j < k < |log|
    ensures log[j].owner < |fleet.configs| && log[k].owner < |fleet.configs|
    ensures Before(Rec(log, j), Rec(log, k)) && Rec(log, j).uid == Rec(log, k).uid
    ensures SentAt(fleet, log[j].owner, log[j].proposal) <= log[j].at
         <= SentAt(fleet, log[k].owner, log[k].proposal) <= log[k].at
    decreases k
  {
    assert EntryOk(fleet, log, j) && EntryOk(fleet, log, k) && EntryOk(fleet, log, k - 1);
    if j < k - 1 {
      CommitsOrdered(fleet, log, j, k - 1);
    }
  }

  /** Two commits with the same epoch and sequence are one commit. */
  lemma CommitsUnique(fleet: Fleet, log: seq<Commit>, j: nat, k: nat)
    requires FleetOk(fleet) && LogOk(fleet, log) && j < |log| && k < |log|
    requires Rec(log, j).epochID == Rec(log, k).epochID && Rec(log, j).sequenceID == Rec(log, k).sequenceID
    ensures j == k
  {
    if j < k { CommitsOrdered(fleet, log, j, k); }
    if k < j { CommitsOrdered(fleet, log, k, j); }
  }

  /** A commit advertises the terms of the process that made it, and names it unless it is a release. */
  lemma {:induction false} CommitTerms(fleet: Fleet, log: seq<Commit>, k: nat)
    requires FleetOk(fleet) && LogOk(fleet, log) && k < |log|
    ensures log[k].owner < |fleet.configs|
    ensures Advertised(Rec(log, k)) == fleet.configs[log[k].owner].leaseDuration
    ensures Rec(log, k).clientID ==
            if log[k].proposal.kind == ProposalKind.Release then "" else fleet.configs[log[k].owner].clientID
    ensures Rec(log, k).clientID == "" <==> log[k].proposal.kind == ProposalKind.Release
    ensures log[k].proposal.kind == ProposalKind.Acquire <==> Rec(log, k).sequenceID == 1
  {
    assert EntryOk(fleet, log, k);
    AdvertisedExceedsDeadline(fleet.configs[log[k].owner]);
    if k > 0 {
      CommitTerms(fleet, log, k - 1);
      CommitsAccepted(fleet, log, k - 1);
    }
  }

  /** One epoch belongs to one process; only its first commit acquires and only its last can release. */
  lemma {:induction false} EpochHasOneOwner(fleet: Fleet, log: seq<Commit>, j: nat, k: nat)
    requires FleetOk(fleet) && LogOk(fleet, log) && j < |log| && k < |log|
    requires Rec(log, j).epochID == Rec(log, k).epochID
    ensures log[j].owner == log[k].owner
    ensures j < k ==> log[k].proposal.kind != ProposalKind.Acquire && log[j].proposal.kind != ProposalKind.Release
    decreases j + k, if k < j then 1 else 0
  {
    if k < j {
      EpochHasOneOwner(fleet, log, k, j);
    } else if j < k {
      CommitsOrdered(fleet, log, j, k);
      CommitsOrdered(fleet, log, k - 1, k);
      CommitTerms(fleet, log, k - 1);
      assert EntryOk(fleet, log, k);
      if j < k - 1 {
        CommitsOrdered(fleet, log, j, k - 1);
        EpochHasOneOwner(fleet, log, j, k - 1);
      }
    }
  }

  // A takeover of a record that was not released waits out what that record advertises.
  lemma TakeoverWaitsOnLast(fleet: Fleet, log: seq<Commit>, k: nat)
    requires FleetOk(fleet) && LogOk(fleet, log) && 0 < k < |log|
    requires Rec(log, k - 1).epochID < Rec(log, k).epochID && log[k - 1].proposal.kind != ProposalKind.Release
    ensures log[k - 1].owner < |fleet.configs| && log[k].owner < |fleet.configs|
    ensures SentAt(fleet, log[k].owner, log[k].proposal)
         >= SentAt(fleet, log[k - 1].owner, log[k - 1].proposal) + Advertised(Rec(log, k - 1))
  {
    assert EntryOk(fleet, log, k - 1) && EntryOk(fleet, log, k);
    CommitTerms(fleet, log, k - 1);
  }

  /** A later epoch is first sent only a full advertised duration after any commit of an epoch that was not released. */
  lemma {:induction false} TakeoverWaits(fleet: Fleet, log: seq<Commit>, j: nat, k: nat)
    requires FleetOk(fleet) && LogOk(fleet, log) && j < k < |log|
    requires Rec(log, j).epochID < Rec(log, k).epochID
    requires forall m :: j <= m < k && Rec(log, m).epochID == Rec(log, j).epochID
                         ==> log[m].proposal.kind != ProposalKind.Release
    ensures log[j].owner < |fleet.configs| && log[k].owner < |fleet.configs|
    ensures SentAt(fleet, log[k].owner, log[k].proposal)
         >= SentAt(fleet, log[j].owner, log[j].proposal) + Advertised(Rec(log, j))
    decreases k
  {
    CommitsOrdered(fleet, log, k - 1, k);
    if Rec(log, k - 1).epochID == Rec(log, j).epochID {
      TakeoverWaitsOnLast(fleet, log, k);
      EpochHasOneOwner(fleet, log, j, k - 1);
      CommitTerms(fleet, log, k - 1);
      CommitTerms(fleet, log, j);
      if j < k - 1 { CommitsOrdered(fleet, log, j, k - 1); }
    } else {
      CommitsOrdered(fleet, log, j, k - 1);
      TakeoverWaits(fleet, log, j, k - 1);
    }
  }
}
