/** The operator as it runs (operator/controllers, Vault off): every call to the cluster and
    every wait may fail, and the first failure ends the cycle. A cycle that succeeds computes
    RunCycle; a cycle that fails has at most merged some claims. */
module Operator {
  import opened Bytes
  import opened Claims
  import opened Cluster
  import opened Cycle
  import opened RestartDelivery
  import opened ClaimCycles

  /** The template annotations of a deployment, secret by secret. */
  method ApplyStamps(stamps: map<string, string>, secrets: seq<Secret>)
    returns (out: map<string, string>, modified: bool)
    requires Consistent(secrets)
    ensures out == Stamp(stamps, secrets)
    ensures modified <==> out != stamps
  {
    hide Consistent;
    out, modified := stamps, false;
    for k := 0 to |secrets|
      invariant out == Stamp(stamps, secrets[..k])
      invariant !modified ==> out == stamps
      invariant modified ==> exists i :: 0 <= i < k && Delivers(stamps, out, secrets[i])
    {
      var s := secrets[k];
      assert secrets[..k + 1][..k] == secrets[..k] && secrets[..k + 1][k] == s;
      if s.name != "" && s.autoRestart {
        if !(s.name in out && out[s.name] == s.version) {
          assert modified ==> exists i :: 0 <= i < k + 1 && Delivers(stamps, out[s.name := s.version], secrets[i]) by {
            if modified {
              var i :| 0 <= i < k && Delivers(stamps, out, secrets[i]);
              SameSecret(secrets, i, k);
              assert Delivers(stamps, out[s.name := s.version], secrets[i]);
            }
          }
          assert !modified ==> Delivers(stamps, out[s.name := s.version], secrets[k]);
          out := out[s.name := s.version];
          modified := true;
        } else {
          assert out[s.name := s.version] == out;
        }
      }
    }
    assert secrets[..|secrets|] == secrets;
  }

  lemma SameSecret(secrets: seq<Secret>, i: nat, j: nat)
    requires Consistent(secrets) && i < |secrets| && j < |secrets|
    ensures secrets[i].name == secrets[j].name ==> secrets[i] == secrets[j]
  {}

  /** `out` says a version that `stamps` does not. */
  ghost predicate Delivers(stamps: map<string, string>, out: map<string, string>, s: Secret) {
    s.name in out && out[s.name] == s.version && !(s.name in stamps && stamps[s.name] == s.version)
  }

  class Operator {
    var cluster: Objects
    var caches: Caches

    ghost function State(): World
      reads this
    {
      World(cluster, caches)
    }

    /** main.go starts the operator with empty maps. */
    constructor (objects: Objects)
      ensures cluster == objects && caches == EMPTY_CACHES
    {
      cluster, caches := objects, EMPTY_CACHES;
    }

    /** Any API call may fail, and any wait may time out. */
    method Call() returns (ok: bool)
    {
      ok := *;
    }

    // ---------- single objects ----------

    method PutService(name: ObjectName, e: Endpoint) returns (ok: bool)
      modifies this`cluster
      ensures cluster == if ok then old(cluster).(services := old(cluster).services[name := e]) else old(cluster)
    {
      ok := Call();
      if ok {
        cluster := cluster.(services := cluster.services[name := e]);
      }
    }

    /** createOrUpdateDeployment of a freshly built, stamped deployment. */
    method PutStamped(name: ObjectName, pod: Pod, secrets: seq<Secret>) returns (ok: bool)
      requires Consistent(secrets)
      modifies this`cluster
      ensures cluster == if ok then PutDeployment(old(cluster), name, pod, secrets) else old(cluster)
    {
      var stamps, modified := ApplyStamps(map[], secrets);
      ok := Call();
      if ok {
        cluster := cluster.(deployments := cluster.deployments[name := Deployment(1, pod, stamps)],
                            writes := cluster.writes + 1);
      }
    }

    /** updateDeploymentSecretRestartAnnotations */
    method UpdateStamps(name: ObjectName, secrets: seq<Secret>) returns (ok: bool)
      requires Consistent(secrets)
      modifies this`cluster
      ensures cluster == if ok then StampDeployment(old(cluster), name, secrets) else old(cluster)
    {
      ok := Call();
      if !ok || name !in cluster.deployments {
        return;
      }
      var d := cluster.deployments[name];
      var stamps, modified := ApplyStamps(d.stamps, secrets);
      if !modified {
        return;
      }
      ok := Call();
      if ok {
        cluster := cluster.(deployments := cluster.deployments[name := d.(stamps := stamps)],
                            writes := cluster.writes + 1);
      }
    }

    /** createPersistentVolumeClaim */
    method PutClaim(c: ClaimName, g: GlobalSpec) returns (ok: bool)
      modifies this`cluster
      ensures ok ==> Some(cluster) == VisitClaim(old(cluster), c, g)
      ensures !ok ==> cluster == old(cluster)
    {
      ok := Call();
      if !ok {
        return;
      }
      var annotations := Some(g.pvcAnnotations);
      if c in cluster.claims {
        annotations := MergeClaim(cluster.claims[c], g.pvcAnnotations, cluster.recorded);
        if annotations.None? {
          return false;
        }
      }
      ok := Call();
      if ok {
        cluster := cluster.(claims := cluster.claims[c := annotations.value]);
      }
    }

    method PutVolume(v: Volume, g: GlobalSpec) returns (ok: bool)
      modifies this`cluster
      ensures ok ==> Some(cluster) == VisitVolume(old(cluster), v, g)
      ensures Advances(old(cluster), cluster, g)
    {
      AdvancesSame(cluster, cluster, g);
      match v {
        case NoVolume =>
          ok := true;
        case Unnamed =>
          ok := false;
        case Existing(claim) =>
          ok := Call();
          ok := ok && NamedClaim(claim) in cluster.claims;
        case _ =>
          ok := PutClaim(NamedClaim(v.claim), g);
          if ok {
            VisitProgress(old(cluster).claims, NamedClaim(v.claim), g.pvcAnnotations, old(cluster).recorded);
          }
      }
    }

    // ---------- ZooKeeper ----------

    /** getCurrentDeploymentsCount */
    method CountActive() returns (count: nat)
      ensures count == |ActiveIds(cluster.deployments)|
    {
      var todo := cluster.deployments.Keys;
      ghost var seen: set<int> := {};
      count := 0;
      while todo != {}
        invariant todo <= cluster.deployments.Keys
        invariant count == |seen|
        invariant forall i :: i in seen <==>
                    ServerObject(i) in cluster.deployments && ServerObject(i) !in todo &&
                    cluster.deployments[ServerObject(i)].replicas > 0
        decreases todo
      {
        var n :| n in todo;
        todo := todo - {n};
        if n.ServerObject? && cluster.deployments[n].replicas > 0 {
          count := count + 1;
          seen := seen + {n.id};
        }
      }
      ghost var active := ActiveIds(cluster.deployments);
      forall i ensures i in seen <==> i in active {
        assert ServerObject(i) !in todo;
        assert i in active <==>
               ServerObject(i) in cluster.deployments && cluster.deployments[ServerObject(i)].replicas > 0;
      }
      SameSet(seen, active);
    }

    /** scaleDeployment */
    method StopServer(id: int) returns (ok: bool)
      modifies this`cluster
      ensures ok ==> ServerObject(id) in old(cluster).deployments
      ensures cluster == if !ok then old(cluster) else
                         old(cluster).(deployments := old(cluster).deployments[ServerObject(id) :=
                                                        old(cluster).deployments[ServerObject(id)].(replicas := 0)],
                                       writes := old(cluster).writes + 1)
    {
      var name := ServerObject(id);
      ok := Call();
      ok := ok && name in cluster.deployments;
      if ok {
        cluster := cluster.(deployments := cluster.deployments[name := cluster.deployments[name].(replicas := 0)],
                            writes := cluster.writes + 1);
      }
    }

    method StopExcess(n: nat, count: nat) returns (ok: bool)
      modifies this`cluster
      ensures ok ==> Some(cluster) == ScaleDown(old(cluster), n + 1, count)
      ensures cluster.recorded == old(cluster).recorded && cluster.claims == old(cluster).claims
    {
      var i := n + 1;
      while i <= count
        invariant n + 1 <= i && (count > n ==> i <= count + 1) && (count <= n ==> i == n + 1)
        invariant Some(cluster) == ScaleDown(old(cluster), n + 1, i - 1)
        invariant cluster.recorded == old(cluster).recorded && cluster.claims == old(cluster).claims
      {
        ok := StopServer(i);
        if !ok {
          return;
        }
        i := i + 1;
      }
      return true;
    }

    /** One pass of the loop over servers. */
    method PutOneServer(svc: Service, secret: Secret, id: int, rolling: bool) returns (ok: bool)
      modifies this`cluster
      ensures ok ==> Some(cluster) == PutServer(old(cluster), svc, secret, id)
      ensures Advances(old(cluster), cluster, svc.global)
    {
      hide Progress, Stamp;
      var name, spec := ServerObject(id), Steady(svc.zooKeeper);
      AdvancesSame(cluster, cluster, svc.global);
      ok := PutService(name, ZooKeeperEndpoint(svc.global, spec, name));
      if !ok {
        return;
      }
      ghost var p := cluster;
      AdvancesSame(old(cluster), p, svc.global);
      if id in spec.storage {
        ok := PutClaim(ServerClaim(id), svc.global);
        if !ok {
          return;
        }
        VisitProgress(p.claims, ServerClaim(id), svc.global.pvcAnnotations, p.recorded);
        AdvancesTrans(old(cluster), p, cluster, svc.global);
      }
      ghost var q := cluster;
      ok := PutStamped(name, ZooKeeperPod(svc.global, spec, id), [secret]);
      AdvancesSame(q, cluster, svc.global);
      AdvancesTrans(old(cluster), q, cluster, svc.global);
      if !ok {
        return;
      }
      ok := Call();
      if ok && rolling {
        ok := Call();
      }
    }

    method PutAllServers(svc: Service, secret: Secret, rolling: bool) returns (ok: bool)
      modifies this`cluster
      ensures ok ==> Some(cluster) == PutServers(old(cluster), svc, secret, Replicas(svc))
      ensures Advances(old(cluster), cluster, svc.global)
    {
      hide Progress, PutServer;
      AdvancesSame(cluster, cluster, svc.global);
      var id := 1;
      while id <= Replicas(svc)
        invariant 1 <= id <= Replicas(svc) + 1
        invariant Some(cluster) == PutServers(old(cluster), svc, secret, id - 1)
        invariant Advances(old(cluster), cluster, svc.global)
      {
        ghost var p := cluster;
        ok := PutOneServer(svc, secret, id, rolling);
        AdvancesTrans(old(cluster), p, cluster, svc.global);
        if !ok {
          return;
        }
        id := id + 1;
      }
      return true;
    }

    method StampAllServers(secrets: seq<Secret>, n: nat) returns (ok: bool)
      requires Consistent(secrets)
      modifies this`cluster
      ensures ok ==> cluster == StampServers(old(cluster), secrets, n)
      ensures cluster.recorded == old(cluster).recorded && cluster.claims == old(cluster).claims
    {
      var id := 1;
      while id <= n
        invariant 1 <= id <= n + 1
        invariant cluster == StampServers(old(cluster), secrets, id - 1)
        invariant cluster.recorded == old(cluster).recorded && cluster.claims == old(cluster).claims
      {
        ok := UpdateStamps(ServerObject(id), secrets);
        if !ok {
          return;
        }
        id := id + 1;
      }
      return true;
    }

    /** What is done when the gate is open. */
    method ApplyServers(svc: Service, secret: Secret) returns (ok: bool)
      modifies this`cluster
      ensures ok ==> Some(cluster) == ApplyZooKeeper(old(cluster), svc, secret)
      ensures Advances(old(cluster), cluster, svc.global)
    {
      hide Progress, PutServers, VisitVolume, ScaleDown, ActiveIds;
      AdvancesSame(cluster, cluster, svc.global);
      if svc.zooKeeper.replicas <= 0 {
        return true;
      }
      ok := PutVolume(SnapshotVolume(svc), svc.global);
      if !ok {
        return;
      }
      ghost var p := cluster;
      assert p.deployments == old(cluster).deployments by {
        VolumeKeeps(old(cluster), SnapshotVolume(svc), svc.global);
      }
      ok := PutService(ClientObject, ZooKeeperEndpoint(svc.global, Steady(svc.zooKeeper), ClientObject));
      if ok {
        ok := PutService(DomainObject, ZooKeeperEndpoint(svc.global, Steady(svc.zooKeeper), DomainObject));
      }
      AdvancesSame(p, cluster, svc.global);
      AdvancesTrans(old(cluster), p, cluster, svc.global);
      if !ok {
        return;
      }
      var count := CountActive();
      var rolling := svc.zooKeeper.rollingUpdate;
      if count <= 2 || count != svc.zooKeeper.replicas {
        rolling := false;
      }
      ok := StopExcess(Replicas(svc), count);
      ghost var q := cluster;
      AdvancesSame(p, q, svc.global);
      AdvancesTrans(old(cluster), p, q, svc.global);
      if !ok {
        return;
      }
      ok := PutAllServers(svc, secret, rolling);
      AdvancesTrans(old(cluster), q, cluster, svc.global);
    }

    method RunZooKeeper(svc: Service, secrets: Secrets) returns (ok: bool)
      modifies this
      ensures ok ==> Some(State()) == ReconcileZooKeeper(old(State()), svc, secrets, false)
      ensures !ok ==> caches == old(caches)
      ensures Advances(old(cluster), cluster, svc.global)
    {
      hide Progress, ApplyZooKeeper, StampServers;
      AdvancesSame(cluster, cluster, svc.global);
      ok := Call();
      if !ok || svc.zooKeeper.secretName !in secrets {
        return false;
      }
      var secret := secrets[svc.zooKeeper.secretName];
      if ZooKeeperChanged(caches, svc, secret) {
        ok := ApplyServers(svc, secret);
        if ok {
          // updateZooKeeperStatus
          ok := Call();
        }
        if !ok {
          return;
        }
      }
      ghost var p := cluster;
      ok := StampAllServers([secret], Replicas(svc));
      AdvancesSame(p, cluster, svc.global);
      AdvancesTrans(old(cluster), p, cluster, svc.global);
      if !ok {
        return;
      }
      caches := Record(caches, [secret], ZooKeeperHash, OfZooKeeper(svc.zooKeeper));
    }

    // ---------- Monitoring and Backup Daemon ----------

    method RunMonitoring(svc: Service, secrets: Secrets) returns (ok: bool)
      requires ValidSecrets(secrets)
      modifies this
      ensures ok ==> Some(State()) == ReconcileMonitoring(old(State()), svc, secrets)
      ensures !ok ==> caches == old(caches)
      ensures Advances(old(cluster), cluster, svc.global)
    {
      hide Progress, Stamp, AnyChanged, MonitoringSecrets, StampDeployment;
      AdvancesSame(cluster, cluster, svc.global);
      if svc.monitoring.None? {
        return true;
      }
      ok := Call();
      var used := MonitoringSecrets(svc, secrets);
      if !ok || used.None? {
        return false;
      }
      UsedFromCluster(Input(svc, secrets, None));
      FromClusterConsistent(used.value, Input(svc, secrets, None));
      var spec := svc.monitoring.value;
      if !Hashed(caches, MonitoringHash, OfMonitoring(spec)) ||
         !Hashed(caches, GlobalHash, OfGlobal(svc.global)) || AnyChanged(caches.versions, used.value) {
        ok := PutService(MonitoringObject, MonitoringEndpoint(svc.global, spec));
        if ok {
          ok := PutStamped(MonitoringObject, MonitoringPod(svc.global, spec, SeenByMonitoring(svc.backup)), used.value);
        }
        if ok {
          // updateMonitoringStatus
          ok := Call();
        }
      }
      ghost var p := cluster;
      if ok {
        ok := UpdateStamps(MonitoringObject, used.value);
        StampKeepsClaims(p, MonitoringObject, used.value);
      }
      AdvancesSame(old(cluster), cluster, svc.global);
      if ok {
        caches := Record(caches, used.value, MonitoringHash, OfMonitoring(spec));
      }
    }

    method RunBackup(svc: Service, secrets: Secrets, aliases: Option<Secret>) returns (ok: bool)
      requires ValidInput(Input(svc, secrets, aliases))
      modifies this
      ensures ok ==> Some(State()) == ReconcileBackup(old(State()), svc, secrets, aliases)
      ensures !ok ==> caches == old(caches)
      ensures Advances(old(cluster), cluster, svc.global)
    {
      hide Progress, Stamp, AnyChanged, VisitVolume, BackupSecrets, StampDeployment;
      AdvancesSame(cluster, cluster, svc.global);
      if svc.backup.None? {
        return true;
      }
      ok := Call();
      var used := BackupSecrets(svc, secrets, aliases);
      if !ok || used.None? {
        return false;
      }
      UsedFromCluster(Input(svc, secrets, aliases));
      FromClusterConsistent(used.value, Input(svc, secrets, aliases));
      var spec := svc.backup.value;
      if !Hashed(caches, BackupHash, OfBackup(spec)) ||
         !Hashed(caches, GlobalHash, OfGlobal(svc.global)) || AnyChanged(caches.versions, used.value) {
        ok := PutVolume(spec.storage, svc.global);
        if !ok {
          return;
        }
        ghost var p := cluster;
        ok := PutService(BackupObject, BackupEndpoint(svc.global, spec));
        if ok {
          ok := PutStamped(BackupObject, BackupPod(svc.global, spec, aliases.Some?), used.value);
        }
        if ok {
          // updateBackupDaemonStatus
          ok := Call();
        }
        AdvancesSame(p, cluster, svc.global);
        AdvancesTrans(old(cluster), p, cluster, svc.global);
      }
      ghost var q := cluster;
      if ok {
        ok := UpdateStamps(BackupObject, used.value);
        StampKeepsClaims(q, BackupObject, used.value);
      }
      AdvancesSame(q, cluster, svc.global);
      AdvancesTrans(old(cluster), q, cluster, svc.global);
      if ok {
        caches := Record(caches, used.value, BackupHash, OfBackup(spec));
      }
    }

    // ---------- the cycle ----------

    /** ZooKeeperServiceReconciler.Reconcile. What a failed cycle leaves is enough for the claims
        to be exact once the cycle is retried. */
    method Reconcile(i: Input) returns (ok: bool)
      requires ValidInput(i)
      modifies this
      ensures ok ==> Some(State()) == RunCycle(old(State()), i, false)
      ensures !ok ==> FailedCycle(old(State()), i, State())
    {
      hide Progress, ReconcileZooKeeper, ReconcileMonitoring, ReconcileBackup, FailedCycle, SameGlobal, Backed;
      ghost var w := State();
      var g := i.service.global;
      ok := RunZooKeeper(i.service, i.secrets);
      if !ok {
        FailsAtOnce(w, i, State());
        return;
      }
      ghost var w1 := State();
      AdvancesSame(w.objects, w.objects, g);
      FailsAtOnce(w, i, w);
      ZooKeeperGate(w, i, w1);
      FailsLater(w, i, w, w1);
      ok := RunMonitoring(i.service, i.secrets);
      ghost var w2 := State();
      MonitoringLeaves(w1, i, w2, ok);
      FailsLater(w, i, w1, w2);
      if !ok {
        return;
      }
      ok := RunBackup(i.service, i.secrets, i.aliases);
      ghost var w3 := State();
      BackupLeaves(w2, i, w3, ok);
      FailsLater(w, i, w2, w3);
      if !ok {
        return;
      }
      // updateStatus
      if cluster.recorded != g.pvcAnnotations {
        ok := Call();
        if !ok {
          return;
        }
        cluster := cluster.(recorded := g.pvcAnnotations);
      }
      // conditions and readiness checks
      ok := Call();
      if !ok {
        AllButRemembered(w, i, w3, State());
        return;
      }
      caches := caches.(hashes := caches.hashes[SpecHash := OfService(i.service)][GlobalHash := OfGlobal(g)]);
    }
  }

  lemma MonitoringLeaves(w: World, i: Input, v: World, ok: bool)
    requires if ok then Some(v) == ReconcileMonitoring(w, i.service, i.secrets) else v.caches == w.caches
    ensures SameGlobal(w.caches, v.caches) && Backed(w, v, i.service)
  {
    if ok {
      MonitoringGate(w, i, v);
    }
    hide ReconcileMonitoring;
  }

  lemma BackupLeaves(w: World, i: Input, v: World, ok: bool)
    requires if ok then Some(v) == ReconcileBackup(w, i.service, i.secrets, i.aliases) else v.caches == w.caches
    ensures SameGlobal(w.caches, v.caches) && Backed(w, v, i.service)
  {
    if ok {
      BackupGate(w, i, v);
    }
    hide ReconcileBackup;
  }

  /** A cycle that ends after the status update has everything but the memory of it. */
  lemma AllButRemembered(w: World, i: Input, w3: World, v: World)
    requires FailedCycle(w, i, w3) && w3.objects.recorded == w.objects.recorded
    requires RunCycle(w, i, false) == Some(Finish(w3, i.service))
    requires v == World(w3.objects.(recorded := i.service.global.pvcAnnotations), w3.caches)
    ensures FailedCycle(w, i, v)
  {
    hide RunCycle, ZooKeeperClaims, Merge, Progress;
  }

  lemma VolumeKeeps(o: Objects, v: Volume, g: GlobalSpec)
    ensures var r := VisitVolume(o, v, g);
            r.Some? ==> r.value == o.(claims := r.value.claims)
  {
    hide Visit;
  }

  lemma StampKeepsClaims(o: Objects, name: ObjectName, secrets: seq<Secret>)
    ensures var p := StampDeployment(o, name, secrets);
            p.recorded == o.recorded && p.claims == o.claims
  {
    hide Stamp;
  }
}
