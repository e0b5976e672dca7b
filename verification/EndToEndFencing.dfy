/**
 The two protocols together: manifest writers pass only epochs of leases that were granted to them. Everything else about
 both is left free, so a writer may go on with an old epoch for as long as it likes.
 */
module EndToEndFencing {
  import Basics
  import ManifestRecords
  import ManifestLog
  import LeaseClient
  import LeaseSystem
  import LeaseLog
  import LeaseInvariant
  import LeaseSteps
  import LeaseTheorems

  datatype Deployment = Deployment(lease: LeaseSystem.System, manifest: seq<ManifestLog.Commit>)

  datatype Action = LeaseStep(step: LeaseSystem.Step) | ManifestCommit(write: ManifestLog.Write)

  ghost predicate Init(fleet: LeaseSystem.Fleet, d: Deployment) {
    LeaseSystem.Init(fleet, d.lease) && d.manifest == []
  }

  ghost predicate Next(fleet: LeaseSystem.Fleet, d: Deployment, a: Action, d': Deployment) {
    && |d.lease.procs| == |d'.lease.procs| == |fleet.offsets| == |fleet.configs|
    && match a
       case LeaseStep(step) => LeaseSystem.Next(fleet, d.lease, step, d'.lease) && d'.manifest == d.manifest
       case ManifestCommit(w) =>
         && LeaseTheorems.Granted(d.lease, w.writer, w.request.epochID)
         && ManifestLog.LegalWrite(d.manifest, w)
         && w.expected == ManifestLog.CurrentVersion(d.manifest)
         && d' == d.(manifest := d.manifest + [ManifestLog.CommitOf(w)])
  }

  ghost predicate StepAt(fleet: LeaseSystem.Fleet, run: seq<Deployment>, actions: seq<Action>, k: nat)
    requires k < |actions| && |run| == |actions| + 1
  {
    Next(fleet, run[k], actions[k], run[k + 1])
  }

  ghost predicate IsRun(fleet: LeaseSystem.Fleet, run: seq<Deployment>, actions: seq<Action>) {
    && |run| == |actions| + 1
    && Init(fleet, run[0])
    && (forall k :: 0 <= k < |actions| ==> StepAt(fleet, run, actions, k))
  }

  ghost predicate EntryGranted(d: Deployment, k: nat)
    requires k < |d.manifest|
  {
    LeaseTheorems.Granted(d.lease, d.manifest[k].writer, d.manifest[k].request.epochID)
  }

  ghost predicate DeploymentOk(fleet: LeaseSystem.Fleet, d: Deployment) {
    && LeaseInvariant.SystemOk(fleet, d.lease)
    && ManifestLog.LegalLog(d.manifest)
    && (forall k :: 0 <= k < |d.manifest| ==> EntryGranted(d, k))
  }

  lemma GrantPersists(fleet: LeaseSystem.Fleet, s: LeaseSystem.System, step: LeaseSystem.Step, s': LeaseSystem.System,
                      i: nat, epoch: nat)
    requires LeaseInvariant.SystemOk(fleet, s) && LeaseSystem.Next(fleet, s, step, s')
    requires LeaseTheorems.Granted(s, i, epoch)
    ensures LeaseTheorems.Granted(s', i, epoch)
  {
    var l: nat :| LeaseTheorems.GrantedAs(s, i, l, epoch);
    LeaseTheorems.StepPersists(fleet, s, step, s', i, l);
    assert LeaseTheorems.GrantedAs(s', i, l, epoch);
  }

  lemma NextKeeps(fleet: LeaseSystem.Fleet, d: Deployment, a: Action, d': Deployment)
    requires DeploymentOk(fleet, d) && Next(fleet, d, a, d')
    ensures DeploymentOk(fleet, d')
  {
    match a
    case LeaseStep(step) =>
      LeaseSteps.NextKeeps(fleet, d.lease, step, d'.lease);
      forall k | 0 <= k < |d'.manifest| ensures EntryGranted(d', k) {
        assert EntryGranted(d, k);
        GrantPersists(fleet, d.lease, step, d'.lease, d.manifest[k].writer, d.manifest[k].request.epochID);
      }
    case ManifestCommit(w) =>
      ManifestLog.LegalExtends(d.manifest, w);
      forall k | 0 <= k < |d'.manifest| ensures EntryGranted(d', k) {
        if k < |d.manifest| { assert EntryGranted(d, k); }
      }
  }

  lemma {:induction false} RunKeeps(fleet: LeaseSystem.Fleet, run: seq<Deployment>, actions: seq<Action>, n: nat)
    requires IsRun(fleet, run, actions) && n < |run|
    ensures DeploymentOk(fleet, run[n])
  {
    if n == 0 {
      InitialOk(fleet, run[0]);
    } else {
      RunKeeps(fleet, run, actions, n - 1);
      assert StepAt(fleet, run, actions, n - 1);
      NextKeeps(fleet, run[n - 1], actions[n - 1], run[n]);
    }
  }

  lemma InitialOk(fleet: LeaseSystem.Fleet, d: Deployment)
    requires Init(fleet, d)
    ensures DeploymentOk(fleet, d)
  {
    LeaseSteps.RunKeeps(fleet, [d.lease], [], 0);
  }

  /**
   In every run, the epochs along the manifest log never go back; all entries between two of one epoch, and those two,
   come from one process; and an entry of a later epoch belongs to a grant whose acquisition committed later.
   */
  lemma EntriesFenced(fleet: LeaseSystem.Fleet, run: seq<Deployment>, actions: seq<Action>, n: nat, a: nat, b: nat)
    requires IsRun(fleet, run, actions) && n < |run| && a <= b < |run[n].manifest|
    ensures var m := run[n].manifest;
            && m[a].request.epochID <= m[b].request.epochID
            && (m[a].request.epochID == m[b].request.epochID ==>
                  forall c :: a <= c <= b ==> m[c].writer == m[a].writer && m[c].request.epochID == m[a].request.epochID)
            && (m[b].request.operation.Activate? && a < b ==> m[a].request.epochID < m[b].request.epochID)
    ensures run[n].manifest[a].request.epochID < run[n].manifest[b].request.epochID ==>
              GrantedBefore(run[n].lease, run[n].manifest[a], run[n].manifest[b])
  {
    var m := run[n].manifest;
    RunKeeps(fleet, run, actions, n);
    ManifestLog.EpochsMonotone(m, a, b);
    if m[a].request.epochID == m[b].request.epochID {
      forall c | a <= c <= b ensures m[c].writer == m[a].writer && m[c].request.epochID == m[a].request.epochID {
        ManifestLog.EpochsMonotone(m, a, c);
        ManifestLog.EpochsMonotone(m, c, b);
        OneProcess(fleet, run[n], a, c);
      }
    } else {
      OrderedGrants(fleet, run[n], a, b);
    }
  }

  lemma OneProcess(fleet: LeaseSystem.Fleet, d: Deployment, a: nat, c: nat)
    requires DeploymentOk(fleet, d) && a < |d.manifest| && c < |d.manifest|
    requires d.manifest[a].request.epochID == d.manifest[c].request.epochID
    ensures d.manifest[a].writer == d.manifest[c].writer
  {
    assert EntryGranted(d, a) && EntryGranted(d, c);
    var epoch := d.manifest[a].request.epochID;
    var l: nat :| LeaseTheorems.GrantedAs(d.lease, d.manifest[a].writer, l, epoch);
    var m: nat :| LeaseTheorems.GrantedAs(d.lease, d.manifest[c].writer, m, epoch);
    LeaseTheorems.GrantsDistinct(fleet, d.lease, d.manifest[a].writer, l, d.manifest[c].writer, m);
  }

  // Both entries were written under grants, and the first one's acquisition committed before the second one's.
  ghost predicate GrantedBefore(s: LeaseSystem.System, x: ManifestLog.Commit, y: ManifestLog.Commit) {
    && x.writer < |s.procs|
    && y.writer < |s.procs|
    && exists l: nat, m: nat, p: nat, q: nat ::
         GrantPair(s, x, y, l, m, p, q)
  }

  ghost predicate GrantPair(s: LeaseSystem.System, x: ManifestLog.Commit, y: ManifestLog.Commit, l: nat, m: nat, p: nat,
                            q: nat)
    requires x.writer < |s.procs| && y.writer < |s.procs|
  {
    && LeaseTheorems.GrantedAs(s, x.writer, l, x.request.epochID)
    && LeaseTheorems.GrantedAs(s, y.writer, m, y.request.epochID)
    && LeaseTheorems.AcquiredAt(s, x.writer, l, p)
    && LeaseTheorems.AcquiredAt(s, y.writer, m, q)
    && p < q
  }

  lemma OrderedGrants(fleet: LeaseSystem.Fleet, d: Deployment, a: nat, b: nat)
    requires DeploymentOk(fleet, d) && a < |d.manifest| && b < |d.manifest|
    requires d.manifest[a].request.epochID < d.manifest[b].request.epochID
    ensures GrantedBefore(d.lease, d.manifest[a], d.manifest[b])
  {
    assert EntryGranted(d, a) && EntryGranted(d, b);
    var (i, j) := (d.manifest[a].writer, d.manifest[b].writer);
    var l: nat :| LeaseTheorems.GrantedAs(d.lease, i, l, d.manifest[a].request.epochID);
    var m: nat :| LeaseTheorems.GrantedAs(d.lease, j, m, d.manifest[b].request.epochID);
    var p := LeaseTheorems.GrantHasAcquisition(fleet, d.lease, i, l);
    var q := LeaseTheorems.GrantHasAcquisition(fleet, d.lease, j, m);
    LeaseTheorems.GrantOrder(fleet, d.lease, i, l, p, j, m, q);
    assert GrantPair(d.lease, d.manifest[a], d.manifest[b], l, m, p, q);
  }
}
