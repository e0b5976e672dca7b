/** The guarantees of the lease protocol, over every run of any number of processes. */
module LeaseTheorems {
  import opened Basics
  import opened LeaseRecords
  import opened LeaseClient
  import opened LeaseSystem
  import opened LeaseLog
  import opened LeaseInvariant
  import opened LeasePreservation
  import opened LeaseSteps
  import opened LeaseHistory

  // Authority -----------------------------------------------------------------------------------------------------------

  /** Process i would be told right now that its lease l is good. */
  ghost predicate Holds(fleet: Fleet, s: System, i: nat, l: nat) {
    && i < |s.procs| && i < |fleet.offsets|
    && l < |s.procs[i].client.leases|
    && Check(s.procs[i].client, l, Clock(fleet, i, s.now)).1.None?
  }

  lemma NoReleaseOfLiveEpoch(fleet: Fleet, s: System, i: nat, l: nat, k: nat, m: nat)
    requires SystemOk(fleet, s) && i < |s.procs| && l < |s.procs[i].client.leases|
    requires s.procs[i].client.leases[l].retired.None?
    requires Backed(fleet, s.log, i, s.procs[i].client.leases[l], k)
    requires m < |s.log| && Rec(s.log, m).epochID == Rec(s.log, k).epochID
    ensures s.log[m].owner == i && s.log[m].proposal.kind != ProposalKind.Release
  {
    EpochHasOneOwner(fleet, s.log, k, m);
    assert CommitOk(WorldOf(s), m);
    assert ProcessOk(fleet, WorldOf(s), i, s.procs[i]);
    assert MutationSentOk(i, s.procs[i].client, Write(i, s.log[m].proposal));
  }

  /**
   The epoch of an unretired lease is taken over only after the lease's deadline: the takeover is first sent a full
   advertised duration after the commit that backs the lease, and that is later than the deadline.
   */
  lemma EpochOutlastsDeadline(fleet: Fleet, s: System, i: nat, l: nat)
    requires SystemOk(fleet, s) && i < |s.procs| && l < |s.procs[i].client.leases|
    requires s.procs[i].client.leases[l].retired.None?
    requires s.log != [] && Rec(s.log, |s.log| - 1).epochID != s.procs[i].client.leases[l].epochID
    ensures Clock(fleet, i, s.now) > s.procs[i].client.leases[l].validUntil
  {
    var lease := s.procs[i].client.leases[l];
    assert ProcessOk(fleet, WorldOf(s), i, s.procs[i]);
    assert LeaseOk(fleet, s.log, i, lease);
    var k: nat :| Backed(fleet, s.log, i, lease, k);
    var m := |s.log| - 1;
    CommitsOrdered(fleet, s.log, k, m);
    forall x | k <= x < m && Rec(s.log, x).epochID == Rec(s.log, k).epochID
      ensures s.log[x].proposal.kind != ProposalKind.Release
    {
      NoReleaseOfLiveEpoch(fleet, s, i, l, k, x);
    }
    TakeoverWaits(fleet, s.log, k, m);
    CommitTerms(fleet, s.log, k);
    AdvertisedExceedsDeadline(fleet.configs[i]);
    assert CommitOk(WorldOf(s), m) && EntryOk(fleet, s.log, m);
  }

  /** While a lease is unretired and before its deadline, the stored record is of its epoch and its process. */
  lemma LiveLeaseIsCurrent(fleet: Fleet, s: System, i: nat, l: nat)
    requires SystemOk(fleet, s) && i < |s.procs| && l < |s.procs[i].client.leases|
    requires s.procs[i].client.leases[l].retired.None?
    requires Clock(fleet, i, s.now) < s.procs[i].client.leases[l].validUntil
    ensures s.log != []
    ensures Rec(s.log, |s.log| - 1).epochID == s.procs[i].client.leases[l].epochID
    ensures s.log[|s.log| - 1].owner == i
  {
    assert ProcessOk(fleet, WorldOf(s), i, s.procs[i]);
    assert LeaseOk(fleet, s.log, i, s.procs[i].client.leases[l]);
    var k: nat :| Backed(fleet, s.log, i, s.procs[i].client.leases[l], k);
    if Rec(s.log, |s.log| - 1).epochID != s.procs[i].client.leases[l].epochID {
      EpochOutlastsDeadline(fleet, s, i, l);
    } else {
      EpochHasOneOwner(fleet, s.log, k, |s.log| - 1);
    }
  }

  /** No two granted leases share an epoch. */
  lemma GrantsDistinct(fleet: Fleet, s: System, i: nat, l: nat, j: nat, m: nat)
    requires SystemOk(fleet, s) && i < |s.procs| && l < |s.procs[i].client.leases|
    requires j < |s.procs| && m < |s.procs[j].client.leases|
    requires s.procs[i].client.leases[l].epochID == s.procs[j].client.leases[m].epochID
    ensures i == j && l == m
  {
    assert ProcessOk(fleet, WorldOf(s), i, s.procs[i]) && ProcessOk(fleet, WorldOf(s), j, s.procs[j]);
    assert LeaseOk(fleet, s.log, i, s.procs[i].client.leases[l]) && LeaseOk(fleet, s.log, j, s.procs[j].client.leases[m]);
    var a: nat :| Backed(fleet, s.log, i, s.procs[i].client.leases[l], a);
    var b: nat :| Backed(fleet, s.log, j, s.procs[j].client.leases[m], b);
    EpochHasOneOwner(fleet, s.log, a, b);
  }

  /** Mutual exclusion: at any moment of any run, at most one lease of one process passes its check. */
  lemma MutualExclusion(fleet: Fleet, run: seq<System>, steps: seq<Step>, k: nat, i: nat, l: nat, j: nat, m: nat)
    requires IsRun(fleet, run, steps) && k < |run|
    requires Holds(fleet, run[k], i, l) && Holds(fleet, run[k], j, m)
    ensures i == j && l == m
  {
    RunKeeps(fleet, run, steps, k);
    LiveLeaseIsCurrent(fleet, run[k], i, l);
    LiveLeaseIsCurrent(fleet, run[k], j, m);
    GrantsDistinct(fleet, run[k], i, l, j, m);
  }

  // Fencing -------------------------------------------------------------------------------------------------------------

  /** Commit a acquired the epoch of lease l of process i. */
  ghost predicate AcquiredAt(s: System, i: nat, l: nat, a: nat)
    requires i < |s.procs| && l < |s.procs[i].client.leases|
  {
    && a < |s.log|
    && s.log[a].owner == i
    && s.log[a].proposal.kind == ProposalKind.Acquire
    && Rec(s.log, a).epochID == s.procs[i].client.leases[l].epochID
  }

  lemma {:induction false} EpochStarts(fleet: Fleet, log: seq<Commit>, k: nat) returns (a: nat)
    requires FleetOk(fleet) && LogOk(fleet, log) && k < |log|
    ensures a <= k && log[a].proposal.kind == ProposalKind.Acquire && log[a].owner == log[k].owner
    ensures Rec(log, a).epochID == Rec(log, k).epochID
  {
    assert EntryOk(fleet, log, k);
    if log[k].proposal.kind == ProposalKind.Acquire {
      a := k;
    } else {
      a := EpochStarts(fleet, log, k - 1);
      EpochHasOneOwner(fleet, log, a, k);
    }
  }

  /** Every grant comes from exactly one acquisition commit of its own process. */
  lemma GrantHasAcquisition(fleet: Fleet, s: System, i: nat, l: nat) returns (a: nat)
    requires SystemOk(fleet, s) && i < |s.procs| && l < |s.procs[i].client.leases|
    ensures AcquiredAt(s, i, l, a)
    ensures forall b :: AcquiredAt(s, i, l, b) ==> b == a
  {
    assert ProcessOk(fleet, WorldOf(s), i, s.procs[i]);
    assert LeaseOk(fleet, s.log, i, s.procs[i].client.leases[l]);
    var k: nat :| Backed(fleet, s.log, i, s.procs[i].client.leases[l], k);
    a := EpochStarts(fleet, s.log, k);
    forall b | AcquiredAt(s, i, l, b) ensures b == a {
      EpochHasOneOwner(fleet, s.log, a, b);
      EpochHasOneOwner(fleet, s.log, b, a);
    }
  }

  /** Grants whose writes commit later have strictly larger epochs, and the other way round. */
  lemma GrantOrder(fleet: Fleet, s: System, i: nat, l: nat, a: nat, j: nat, m: nat, b: nat)
    requires SystemOk(fleet, s) && i < |s.procs| && l < |s.procs[i].client.leases|
    requires j < |s.procs| && m < |s.procs[j].client.leases|
    requires AcquiredAt(s, i, l, a) && AcquiredAt(s, j, m, b)
    ensures a < b <==> s.procs[i].client.leases[l].epochID < s.procs[j].client.leases[m].epochID
  {
    if a < b {
      CommitsOrdered(fleet, s.log, a, b);
      if Rec(s.log, a).epochID == Rec(s.log, b).epochID { EpochHasOneOwner(fleet, s.log, a, b); }
    } else if b < a {
      CommitsOrdered(fleet, s.log, b, a);
    }
  }

  // The committed log refines a timed lease register --------------------------------------------------------------------

  datatype Register =
    | Unborn
    | Held(epoch: nat, sequence: nat, holder: nat, since: Time, duration: Time)
    | Free(epoch: nat, sequence: nat)

  ghost function RegisterOf(fleet: Fleet, log: seq<Commit>): Register
    requires FleetOk(fleet) && LogOk(fleet, log)
  {
    if log == [] then Unborn
    else
      var k := |log| - 1;
      assert EntryOk(fleet, log, k);
      var r := Rec(log, k);
      if r.clientID == "" then Free(r.epochID, r.sequenceID)
      else Held(r.epochID, r.sequenceID, log[k].owner, SentAt(fleet, log[k].owner, log[k].proposal), Advertised(r))
  }

  /** Process i, advertising `duration`, changes the register with a request it first sent at `sent`. */
  ghost predicate RegisterNext(r: Register, kind: ProposalKind, i: nat, sent: Time, duration: Time, r': Register) {
    match kind
    case Acquire =>
      (match r
       case Unborn => r' == Held(1, 1, i, sent, duration)
       case Free(e, _) => r' == Held(e + 1, 1, i, sent, duration)
       case Held(e, _, _, since, d) => sent >= since + d && r' == Held(e + 1, 1, i, sent, duration))
    case Renew => r.Held? && r.holder == i && sent >= r.since && r' == Held(r.epoch, r.sequence + 1, i, sent, duration)
    case Release => r.Held? && r.holder == i && sent >= r.since && r' == Free(r.epoch, r.sequence + 1)
  }

  // Process i was granted this epoch.
  ghost predicate Granted(s: System, i: nat, epoch: nat) {
    i < |s.procs| && exists l :: GrantedAs(s, i, l, epoch)
  }

  ghost predicate GrantedAs(s: System, i: nat, l: nat, epoch: nat)
    requires i < |s.procs|
  {
    l < |s.procs[i].client.leases| && s.procs[i].client.leases[l].epochID == epoch
  }

  /** Committing a permitted write of process i is one register operation of process i. */
  lemma CommitIsRegisterStep(fleet: Fleet, log: seq<Commit>, i: nat, p: Proposal, at: Time)
    requires FleetOk(fleet) && LogOk(fleet, log)
    requires WriteOk(fleet, log, i, p) && p.expected == CurrentVersion(log) && SentAt(fleet, i, p) <= at
    ensures LogOk(fleet, log + [Commit(i, p, at)])
    ensures RegisterNext(RegisterOf(fleet, log), p.kind, i, SentAt(fleet, i, p), fleet.configs[i].leaseDuration,
                         RegisterOf(fleet, log + [Commit(i, p, at)]))
    ensures p.kind != ProposalKind.Acquire ==>
              RegisterOf(fleet, log).Held? && RegisterOf(fleet, log).epoch == p.record.epochID
  {
    var k := |log|;
    LogExtends(fleet, log, i, p, at);
    CommitTerms(fleet, log + [Commit(i, p, at)], k);
    if k > 0 {
      assert EntryOk(fleet, log, k - 1);
      CommitTerms(fleet, log, k - 1);
    }
  }

  /**
   Every step leaves the register alone or is one register operation by the process that made it; only a process that
   was granted the epoch renews or releases it, and it releases only after it retired that lease.
   */
  lemma RegisterRefined(fleet: Fleet, s: System, step: Step, s': System)
    requires SystemOk(fleet, s) && Next(fleet, s, step, s')
    ensures LogOk(fleet, s'.log)
    ensures !step.Deliver? ==> RegisterOf(fleet, s'.log) == RegisterOf(fleet, s.log)
    ensures step.Deliver? ==>
              var (i, p) := (step.write.owner, step.write.proposal);
              && i < |fleet.configs|
              && RegisterNext(RegisterOf(fleet, s.log), p.kind, i, SentAt(fleet, i, p), fleet.configs[i].leaseDuration,
                              RegisterOf(fleet, s'.log))
              && SentAt(fleet, i, p) <= s.now
              && (p.kind != ProposalKind.Acquire ==> GrantedAs(s, i, p.acquired, RegisterOf(fleet, s.log).epoch))
              && (p.kind == ProposalKind.Release ==> s.procs[i].client.leases[p.acquired].retired.Some?)
  {
    if step.Deliver? {
      var (i, p) := (step.write.owner, step.write.proposal);
      assert SentOk(fleet, WorldOf(s), step.write);
      CommitIsRegisterStep(fleet, s.log, i, p, s.now);
      assert ProcessOk(fleet, WorldOf(s), i, s.procs[i]);
      assert MutationSentOk(i, s.procs[i].client, step.write);
    }
  }

  /** A frozen proposal commits at most once, however often it was resent. */
  lemma ProposalCommitsOnce(fleet: Fleet, run: seq<System>, steps: seq<Step>, k: nat, a: nat, b: nat)
    requires IsRun(fleet, run, steps) && k < |run| && a < |run[k].log| && b < |run[k].log|
    requires run[k].log[a].proposal == run[k].log[b].proposal
    ensures a == b
  {
    RunKeeps(fleet, run, steps, k);
    assert EntryOk(fleet, run[k].log, a) && EntryOk(fleet, run[k].log, b);
    assert |run[k].log[..a]| == a && |run[k].log[..b]| == b;
  }

  /** A released record is followed by nothing but a takeover into the next epoch. */
  lemma ReleaseEndsEpoch(fleet: Fleet, run: seq<System>, steps: seq<Step>, k: nat, a: nat)
    requires IsRun(fleet, run, steps) && k < |run| && a + 1 < |run[k].log|
    requires run[k].log[a].proposal.kind == ProposalKind.Release
    ensures run[k].log[a + 1].proposal.kind == ProposalKind.Acquire
    ensures Rec(run[k].log, a + 1).epochID == Rec(run[k].log, a).epochID + 1
  {
    RunKeeps(fleet, run, steps, k);
    assert EntryOk(fleet, run[k].log, a + 1);
    CommitTerms(fleet, run[k].log, a);
  }

  // Client state --------------------------------------------------------------------------------------------------------

  /**
   Observations are committed (record, version) pairs dated no earlier than the first send of their write, and no client
   ever turns terminal.
   */
  lemma ObservationSound(fleet: Fleet, run: seq<System>, steps: seq<Step>, k: nat, i: nat)
    requires IsRun(fleet, run, steps) && k < |run| && i < |run[k].procs|
    ensures FleetOk(fleet) && i < |fleet.configs| && run[k].procs[i].client.terminal.None?
    ensures run[k].procs[i].client.observed.Some? ==>
              ObservedOk(fleet, run[k].log, i, run[k].procs[i].client.observed.value)
  {
    RunKeeps(fleet, run, steps, k);
    assert ProcessOk(fleet, WorldOf(run[k]), i, run[k].procs[i]);
  }

  /**
   Every lease but an active newest one is retired, done closes exactly when it retires, an active lease is sustained by
   the observation, and what is pending beside it is its own renewal.
   */
  lemma ClientState(fleet: Fleet, run: seq<System>, steps: seq<Step>, k: nat, i: nat, l: nat)
    requires IsRun(fleet, run, steps) && k < |run| && i < |run[k].procs|
    requires l < |run[k].procs[i].client.leases|
    ensures var c := run[k].procs[i].client;
            var lease := c.leases[l];
            && (lease.retired.None? <==> c.active == Some(l))
            && (lease.doneClosed == if lease.retired.Some? then 1 else 0)
            && (lease.retired.None? ==>
                  && lease.timer == Some(lease.validUntil)
                  && c.observed.Some? && Sustains(c.observed.value.record, lease)
                  && (c.pending.Some? ==> c.pending.value.kind == ProposalKind.Renew && c.pending.value.acquired == l))
  {
    RunKeeps(fleet, run, steps, k);
    assert ProcessOk(fleet, WorldOf(run[k]), i, run[k].procs[i]);
    assert LeaseOk(fleet, run[k].log, i, run[k].procs[i].client.leases[l]);
  }

  /** A lease's deadline is one renew deadline after the first send of the commit that carries its epoch and sequence. */
  lemma AuthorityFixed(fleet: Fleet, run: seq<System>, steps: seq<Step>, k: nat, i: nat, l: nat) returns (v: nat)
    requires IsRun(fleet, run, steps) && k < |run| && i < |run[k].procs|
    requires l < |run[k].procs[i].client.leases|
    ensures FleetOk(fleet) && i < |fleet.configs|
    ensures Backed(fleet, run[k].log, i, run[k].procs[i].client.leases[l], v)
    ensures var lease := run[k].procs[i].client.leases[l];
            forall u | 0 <= u < |run[k].log| ::
              (Rec(run[k].log, u).epochID == lease.epochID && Rec(run[k].log, u).sequenceID == lease.sequenceID)
              ==> u == v
  {
    RunKeeps(fleet, run, steps, k);
    var lease := run[k].procs[i].client.leases[l];
    assert ProcessOk(fleet, WorldOf(run[k]), i, run[k].procs[i]);
    assert LeaseOk(fleet, run[k].log, i, lease);
    v :| Backed(fleet, run[k].log, i, lease, v);
    forall u | 0 <= u < |run[k].log| && Rec(run[k].log, u).epochID == lease.epochID
               && Rec(run[k].log, u).sequenceID == lease.sequenceID
      ensures u == v
    {
      CommitsUnique(fleet, run[k].log, u, v);
    }
  }

  /**
   When a Renew refuses for the lease's sake (another proposal is pending, validation fails, the readback loses, the phase
   is over, or the confirmation comes late), the lease is retired. Building the renewal refuses for one other reason, an
   exhausted sequence counter, and that retires nothing.
   */
  lemma RefusedRenewalRetires(fleet: Fleet, run: seq<System>, steps: seq<Step>, k: nat, i: nat, l: nat, now: Time,
                              s: Snapshot, wall: Time)
    requires IsRun(fleet, run, steps) && k < |run| && i < |run[k].procs|
    requires l < |run[k].procs[i].client.leases|
    ensures WellFormed(run[k].procs[i].client)
    ensures var c := run[k].procs[i].client;
            && (PendingFor(c, l, ProposalKind.Renew).Err? ==> c.leases[l].retired.Some?)
            && (ValidateActive(c, l, now).1.Some? ==> ValidateActive(c, l, now).0.leases[l].retired.Some?)
            && (c.pending.Some? && c.pending.value.kind == ProposalKind.Renew && c.pending.value.acquired == l ==>
                  var p := c.pending.value;
                  && LosePending(c, p).leases[l].retired.Some?
                  && AbandonExpired(c, p).leases[l].retired.Some?
                  && forall v :: ConfirmRenewal(c, p, v, now).1.Some? ==>
                                   ConfirmRenewal(c, p, v, now).0.leases[l].retired.Some?)
    ensures RenewalProposal(run[k].procs[i].frozen, l, s, wall, now).Err? <==> s.record.sequenceID == MAX_UINT64
    ensures s.record.sequenceID == MAX_UINT64 ==>
              RenewalProposal(run[k].procs[i].frozen, l, s, wall, now) == Err(CounterOverflow)
  {
    RunKeeps(fleet, run, steps, k);
    ClientState(fleet, run, steps, k, i, l);
    assert ProcessOk(fleet, WorldOf(run[k]), i, run[k].procs[i]);
  }

  /** A check passes exactly for an unretired lease before its deadline, and otherwise reports what then retires it. */
  lemma CheckMeans(fleet: Fleet, run: seq<System>, steps: seq<Step>, k: nat, i: nat, l: nat)
    requires IsRun(fleet, run, steps) && k < |run| && i < |run[k].procs|
    requires l < |run[k].procs[i].client.leases|
    ensures FleetOk(fleet) && i < |fleet.offsets|
    ensures var (c, now) := (run[k].procs[i].client, Clock(fleet, i, run[k].now));
            && (Holds(fleet, run[k], i, l) <==> c.leases[l].retired.None? && now < c.leases[l].validUntil)
            && (!Holds(fleet, run[k], i, l) ==> Check(c, l, now).1 == Check(c, l, now).0.leases[l].retired)
  {
    RunKeeps(fleet, run, steps, k);
    ClientState(fleet, run, steps, k, i, l);
  }

  // The same lease later, x having been read at local time `now`: frozen once retired, extended only while it had time.
  ghost predicate Persists(now: Time, x: LeaseState, y: LeaseState) {
    && (x.retired.Some? ==> y == x)
    && y.leaseUID == x.leaseUID
    && y.clientID == x.clientID
    && y.epochID == x.epochID
    && y.sequenceID >= x.sequenceID
    && y.validUntil >= x.validUntil
    && (now >= x.validUntil ==> y.validUntil == x.validUntil)
  }

  lemma StepPersists(fleet: Fleet, s: System, step: Step, s': System, i: nat, l: nat)
    requires SystemOk(fleet, s) && Next(fleet, s, step, s') && i < |s.procs| && l < |s.procs[i].client.leases|
    ensures |s'.procs| == |s.procs| && l < |s'.procs[i].client.leases|
    ensures i < |fleet.offsets| && s.now <= s'.now
    ensures Persists(Clock(fleet, i, s.now), s.procs[i].client.leases[l], s'.procs[i].client.leases[l])
  {
    StepEvolves(fleet, s, step, s', i);
    assert LeaseEvolves(Clock(fleet, i, s.now), s.procs[i].client.leases[l], s'.procs[i].client.leases[l]);
  }

  lemma RunStepPersists(fleet: Fleet, run: seq<System>, steps: seq<Step>, k: nat, i: nat, l: nat)
    requires IsRun(fleet, run, steps) && k < |steps|
    requires i < |run[k].procs| && l < |run[k].procs[i].client.leases|
    ensures i < |run[k + 1].procs| && l < |run[k + 1].procs[i].client.leases|
    ensures i < |fleet.offsets| && run[k].now <= run[k + 1].now
    ensures Persists(Clock(fleet, i, run[k].now), run[k].procs[i].client.leases[l], run[k + 1].procs[i].client.leases[l])
  {
    RunKeeps(fleet, run, steps, k);
    assert StepAt(fleet, run, steps, k);
    StepPersists(fleet, run[k], steps[k], run[k + 1], i, l);
  }

  lemma {:induction false} LeasePersists(fleet: Fleet, run: seq<System>, steps: seq<Step>, a: nat, b: nat, i: nat, l: nat)
    requires IsRun(fleet, run, steps) && a < b < |run|
    requires i < |run[a].procs| && l < |run[a].procs[i].client.leases|
    ensures i < |run[b].procs| && l < |run[b].procs[i].client.leases|
    ensures i < |fleet.offsets| && run[a].now <= run[b].now
    ensures Persists(Clock(fleet, i, run[a].now), run[a].procs[i].client.leases[l], run[b].procs[i].client.leases[l])
    decreases b
  {
    if a < b - 1 { LeasePersists(fleet, run, steps, a, b - 1, i, l); }
    RunStepPersists(fleet, run, steps, b - 1, i, l);
  }

  /**
   No revival, over a whole run: a lease that is retired at one moment is the same retired lease ever after, and a lease
   whose check would fail at one moment, retired or merely out of time, never passes a check again.
   */
  lemma NoRevival(fleet: Fleet, run: seq<System>, steps: seq<Step>, a: nat, b: nat, i: nat, l: nat)
    requires IsRun(fleet, run, steps) && a <= b < |run| && i < |run[a].procs|
    requires l < |run[a].procs[i].client.leases|
    ensures i < |run[b].procs| && l < |run[b].procs[i].client.leases|
    ensures run[a].procs[i].client.leases[l].retired.Some? ==>
              run[b].procs[i].client.leases[l] == run[a].procs[i].client.leases[l]
    ensures Holds(fleet, run[b], i, l) ==> Holds(fleet, run[a], i, l)
  {
    if a < b { LeasePersists(fleet, run, steps, a, b, i, l); }
    CheckMeans(fleet, run, steps, a, i, l);
    CheckMeans(fleet, run, steps, b, i, l);
  }

  /** A lease is newly expired only at or after its own deadline, whichever timer, check, reply or retry found out. */
  lemma NoEarlyExpiry(fleet: Fleet, run: seq<System>, steps: seq<Step>, k: nat, i: nat, l: nat)
    requires IsRun(fleet, run, steps) && k < |steps| && i < |run[k].procs| == |run[k + 1].procs|
    requires l < |run[k].procs[i].client.leases| <= |run[k + 1].procs[i].client.leases|
    requires run[k].procs[i].client.leases[l].retired.None?
    requires run[k + 1].procs[i].client.leases[l].retired == Some(LeaseExpired)
    ensures FleetOk(fleet) && i < |fleet.offsets|
    ensures Clock(fleet, i, run[k].now) >= run[k].procs[i].client.leases[l].validUntil
         == run[k + 1].procs[i].client.leases[l].validUntil
  {
    RunKeeps(fleet, run, steps, k);
    assert StepAt(fleet, run, steps, k);
    StepEvolves(fleet, run[k], steps[k], run[k + 1], i);
    assert LeaseEvolves(Clock(fleet, i, run[k].now), run[k].procs[i].client.leases[l],
                        run[k + 1].procs[i].client.leases[l]);
  }

  /** The observed (epoch, sequence) never goes back, except when the confirmation of a release replaces a newer one. */
  lemma ObservedMonotone(fleet: Fleet, run: seq<System>, steps: seq<Step>, k: nat, i: nat)
    requires IsRun(fleet, run, steps) && k < |steps| && i < |run[k].procs| == |run[k + 1].procs|
    requires run[k].procs[i].client.observed.Some?
    ensures run[k + 1].procs[i].client.observed.Some?
    ensures
      var (o, o') := (run[k].procs[i].client.observed.value, run[k + 1].procs[i].client.observed.value);
      Before(o'.record, o.record) <==>
        && steps[k].Local? && steps[k].process == i && ConfirmsRelease(run[k].procs[i], steps[k].event)
        && Before(run[k].procs[i].phase.proposal.record, o.record)
  {
    RunKeeps(fleet, run, steps, k);
    assert StepAt(fleet, run, steps, k);
    StepEvolves(fleet, run[k], steps[k], run[k + 1], i);
    if steps[k].Local? && steps[k].process == i && ConfirmsRelease(run[k].procs[i], steps[k].event) {
      ReleaseInstalls(fleet, WorldOf(run[k]), i, run[k].procs[i], steps[k].event, run[k + 1].procs[i]);
    }
  }

  /** A new Require gets through exactly when the active lease and the pending proposal have run out. */
  lemma BoundedBlocking(fleet: Fleet, run: seq<System>, steps: seq<Step>, k: nat, i: nat, now: Time)
    requires IsRun(fleet, run, steps) && k < |run| && i < |run[k].procs|
    ensures FleetOk(fleet) && i < |fleet.configs|
    ensures var c := run[k].procs[i].client;
            && WellFormed(c)
            && (PrepareRequire(c, now).1.None? <==>
                  && (c.active.Some? ==> now >= c.leases[c.active.value].validUntil)
                  && (c.pending.Some? ==> now >= PhaseEnd(c.config, c.pending.value)))
            && (c.pending.Some? && now >= c.pending.value.firstSendAt + fleet.configs[i].renewDeadline ==>
                  PrepareRequire(c, now).1.None?)
  {
    RunKeeps(fleet, run, steps, k);
    var c := run[k].procs[i].client;
    assert ProcessOk(fleet, WorldOf(run[k]), i, run[k].procs[i]);
    if c.pending.Some? && c.pending.value.kind == ProposalKind.Renew {
      PhaseEndsAtAuthority(fleet, WorldOf(run[k]), i, c, c.pending.value);
    }
  }
}
