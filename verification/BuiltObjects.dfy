/** What a successful cycle leaves in the cluster, object by object and field by field. */
module BuiltObjects {
  import opened Bytes
  import opened Claims
  import opened Cluster
  import opened Cycle
  import opened Scaling
  import opened RestartDelivery
  import opened CacheSoundness
  import opened RevertedSpec
  import opened MonitoringCache
  import opened BackupCache
  import opened CycleSuccess

  /** The stamp of one secret. */
  function StampFor(s: Secret): map<string, string> {
    if s.autoRestart && s.name != "" then map[s.name := s.version] else map[]
  }

  lemma OneStamp(s: Secret)
    ensures Stamp(map[], [s]) == StampFor(s)
  {
    assert [s][..0] == [];
  }

  /** Deployments apart from their stamps. */
  predicate SameButStamps(a: Option<Deployment>, b: Option<Deployment>) {
    a.Some? == b.Some? && (a.Some? ==> a.value.replicas == b.value.replicas && a.value.pod == b.value.pod)
  }

  lemma {:induction false} StampsChangeStamps(o: Objects, used: seq<Secret>, n: nat, x: ObjectName)
    ensures var p := StampServers(o, used, n);
            p.services == o.services && SameButStamps(At(p.deployments, x), At(o.deployments, x))
  {
    hide Stamp;
    if n > 0 {
      StampsChangeStamps(o, used, n - 1, x);
    }
  }

  // ---------- ZooKeeper ----------

  /** The gate is open: servers 1..n have one replica, their own pod, the version of the secret if
      it is one that restarts, and their service; servers beyond n up to the number of active ones
      are stopped; all others are as they were. */
  lemma OpenCycleServers(w: World, i: Input, id: int)
    requires RunCycle(w, i, false).Some? && ServersOpen(w, i) && i.service.zooKeeper.replicas > 0
    ensures var svc, o, p := i.service, w.objects, RunCycle(w, i, false).value.objects;
            var n, x, spec := svc.zooKeeper.replicas, ServerObject(id), svc.zooKeeper.(rollingUpdate := false);
            var before := At(o.deployments, x);
            && At(p.deployments, x) ==
               (if 1 <= id <= n then
                  Some(Deployment(1, ZooKeeperPod(svc.global, spec, id), StampFor(i.secrets[svc.zooKeeper.secretName])))
                else if n < id <= |ActiveIds(o.deployments)| && before.Some? then Some(before.value.(replicas := 0))
                else before)
            && (1 <= id <= n ==> At(p.services, x) == Some(ZooKeeperEndpoint(svc.global, spec, x)))
            && At(p.services, ClientObject) == Some(ZooKeeperEndpoint(svc.global, spec, ClientObject))
            && At(p.services, DomainObject) == Some(ZooKeeperEndpoint(svc.global, spec, DomainObject))
  {
    var svc, secret := i.service, i.secrets[i.service.zooKeeper.secretName];
    CycleSplit(w, i, false);
    OneStamp(secret);
    var applied := ApplyZooKeeper(w.objects, svc, secret);
    var w1 := ReconcileZooKeeper(w, svc, i.secrets, false).value;
    hide RunCycle, ApplyZooKeeper, StampServers, AfterZooKeeper, ActiveIds, RecordVersions, Stamp, InPlace;
    ApplyAt(w.objects, svc, secret);
    AppliedCarries(w.objects, applied.value, svc, secret);
    StampServersAgain(applied.value, [secret], Replicas(svc));
    assert w1.objects == applied.value;
    AfterZooKeeperLeaves(w1, i);
    var x, n := ServerObject(id), Replicas(svc);
    assert IsServer(x, 1, n) <==> 1 <= id <= n;
    assert IsServer(x, n + 1, |ActiveIds(w.objects.deployments)|) <==> n < id <= |ActiveIds(w.objects.deployments)|;
    assert IsServer(x, 1, n) ==> ServerDeployment(svc, secret, x.id) == ServerDeployment(svc, secret, id);
  }

  /** The gate is shut: nothing about a server changes but its stamps. */
  lemma ShutCycleServers(w: World, i: Input, id: int)
    requires RunCycle(w, i, false).Some? && !ServersOpen(w, i)
    ensures var o, p, x := w.objects, RunCycle(w, i, false).value.objects, ServerObject(id);
            && SameButStamps(At(p.deployments, x), At(o.deployments, x)) && At(p.services, x) == At(o.services, x)
            && At(p.services, ClientObject) == At(o.services, ClientObject)
            && At(p.services, DomainObject) == At(o.services, DomainObject)
  {
    CycleFoundSecrets(w, i, false);
    CycleSplit(w, i, false);
    var secret := i.secrets[i.service.zooKeeper.secretName];
    var w1 := ReconcileZooKeeper(w, i.service, i.secrets, false).value;
    StampsChangeStamps(w.objects, [secret], Replicas(i.service), ServerObject(id));
    hide RunCycle, ApplyZooKeeper, StampServers, AfterZooKeeper, RecordVersions;
    AfterZooKeeperLeaves(w1, i);
  }

  /** The rollingUpdate switch alone restarts nobody. */
  lemma SwitchIsNoRestart(svc: Service, secret: Secret, rolling: bool, id: int)
    ensures ServerDeployment(svc.(zooKeeper := svc.zooKeeper.(rollingUpdate := rolling)), secret, id) ==
            ServerDeployment(svc, secret, id)
  {}

  // ---------- Monitoring ----------

  /** What the ZooKeeper component and the Backup Daemon leave of Monitoring. */
  lemma OnlyMonitoring(w: World, i: Input)
    requires RunCycle(w, i, false).Some?
    ensures var w1 := ReconcileZooKeeper(w, i.service, i.secrets, false);
            var w2 := if w1.Some? then ReconcileMonitoring(w1.value, i.service, i.secrets) else None;
            && w1.Some? && w2.Some?
            && At(w1.value.objects.services, MonitoringObject) == At(w.objects.services, MonitoringObject)
            && At(RunCycle(w, i, false).value.objects.services, MonitoringObject) ==
               At(w2.value.objects.services, MonitoringObject)
            && At(RunCycle(w, i, false).value.objects.deployments, MonitoringObject) ==
               At(w2.value.objects.deployments, MonitoringObject)
  {
    ServicesOfOthers(w, i);
    var w1 := ReconcileZooKeeper(w, i.service, i.secrets, false).value;
    var w2 := ReconcileMonitoring(w1, i.service, i.secrets).value;
    BackupKeeps(w2, i.service, i.secrets, i.aliases);
    BackupServices(w2, i);
    hide ReconcileZooKeeper, ReconcileMonitoring, ReconcileBackup;
  }

  lemma ServicesOfOthers(w: World, i: Input)
    ensures var r := ReconcileZooKeeper(w, i.service, i.secrets, false);
            r.Some? ==>
              && At(r.value.objects.services, MonitoringObject) == At(w.objects.services, MonitoringObject)
              && At(r.value.objects.services, BackupObject) == At(w.objects.services, BackupObject)
  {
    var r := ReconcileZooKeeper(w, i.service, i.secrets, false);
    if r.Some? {
      var secret, n := i.secrets[i.service.zooKeeper.secretName], Replicas(i.service);
      hide StampServers, ZooKeeperChanged, RecordVersions, ActiveIds;
      StampsChangeStamps(w.objects, [secret], n, MonitoringObject);
      if n > 0 {
        ApplyAt(w.objects, i.service, secret);
      }
      if ApplyZooKeeper(w.objects, i.service, secret).Some? {
        StampsChangeStamps(ApplyZooKeeper(w.objects, i.service, secret).value, [secret], n, MonitoringObject);
      }
    }
  }

  lemma BackupServices(w: World, i: Input)
    ensures var r := ReconcileBackup(w, i.service, i.secrets, i.aliases);
            r.Some? ==> At(r.value.objects.services, MonitoringObject) == At(w.objects.services, MonitoringObject)
  {
    if i.service.backup.Some? {
      VolumeAt(w.objects, i.service.backup.value.storage, i.service.global);
    }
    hide Stamp, BackupSecrets, AnyChanged, RecordVersions, VisitVolume;
  }

  /** Monitoring's service and deployment after a cycle: built anew if the gate was open, else as
      they were but for stamps. */
  lemma CycleMonitoring(w: World, i: Input)
    requires RunCycle(w, i, false).Some? && i.service.monitoring.Some?
    ensures i.service.zooKeeper.secretName in i.secrets
    ensures var svc, o, p := i.service, w.objects, RunCycle(w, i, false).value.objects;
            var spec, d := svc.monitoring.value, At(p.deployments, MonitoringObject);
            if MonitoringChanged(w.caches, FoundVersions(w.caches, i), svc, i.secrets) then
              && At(p.services, MonitoringObject) == Some(MonitoringEndpoint(svc.global, spec))
              && d.Some? && d.value.replicas == 1
              && d.value.pod.MonitoringPod? && d.value.pod.global == svc.global && d.value.pod.monitoring == spec
              && d.value.pod.backup == (if svc.backup.None? then None else
                                        var b := svc.backup.value;
                                        Some(BackupView(b.secretName, b.sslSecret, b.s3Enabled)))
            else
              && At(p.services, MonitoringObject) == At(o.services, MonitoringObject)
              && SameButStamps(d, At(o.deployments, MonitoringObject))
  {
    OnlyMonitoring(w, i);
    CycleFoundSecrets(w, i, false);
    ZooKeeperLeaves(w, i.service, i.secrets, MonitoringObject);
    var w1 := ReconcileZooKeeper(w, i.service, i.secrets, false).value;
    hide RunCycle, ReconcileZooKeeper, ReconcileBackup, RecordVersions, MonitoringSecretMoved;
    assert MonitoringChanged(w1.caches, w1.caches.versions, i.service, i.secrets) <==>
           MonitoringChanged(w.caches, FoundVersions(w.caches, i), i.service, i.secrets);
    MonitoringBuilds(w1, i);
    hide ReconcileMonitoring;
  }

  lemma MonitoringBuilds(w: World, i: Input)
    requires i.service.monitoring.Some? && ReconcileMonitoring(w, i.service, i.secrets).Some?
    ensures var svc, p := i.service, ReconcileMonitoring(w, i.service, i.secrets).value.objects;
            var spec, d := svc.monitoring.value, At(p.deployments, MonitoringObject);
            if MonitoringChanged(w.caches, w.caches.versions, svc, i.secrets) then
              && At(p.services, MonitoringObject) == Some(MonitoringEndpoint(svc.global, spec))
              && d.Some? && d.value.replicas == 1 && d.value.pod == WantedPod(svc)
            else
              && At(p.services, MonitoringObject) == At(w.objects.services, MonitoringObject)
              && SameButStamps(d, At(w.objects.deployments, MonitoringObject))
  {
    MonitoringUses(w.caches.versions, i.service, i.secrets);
    hide Stamp, RecordVersions, AnyChanged, MonitoringSecrets, MonitoringSecretMoved;
  }

  // ---------- Backup Daemon ----------

  lemma MonitoringServices(w: World, i: Input)
    ensures var r := ReconcileMonitoring(w, i.service, i.secrets);
            r.Some? ==> At(r.value.objects.services, BackupObject) == At(w.objects.services, BackupObject)
  {
    hide Stamp, MonitoringSecrets, AnyChanged, RecordVersions;
  }

  /** The same for the Backup Daemon. */
  lemma CycleBackup(w: World, i: Input)
    requires RunCycle(w, i, false).Some? && i.service.backup.Some?
    ensures i.service.zooKeeper.secretName in i.secrets
    ensures i.service.monitoring.Some? ==> MonitoringSecrets(i.service, i.secrets).Some?
    ensures var svc, o, p := i.service, w.objects, RunCycle(w, i, false).value.objects;
            var spec, d := svc.backup.value, At(p.deployments, BackupObject);
            if BackupChanged(w.caches, FoundByBackup(w.caches, i), i) then
              && At(p.services, BackupObject) == Some(BackupEndpoint(svc.global, spec))
              && d.Some? && d.value.replicas == 1 && d.value.pod == BackupPod(svc.global, spec, i.aliases.Some?)
            else
              && At(p.services, BackupObject) == At(o.services, BackupObject)
              && SameButStamps(d, At(o.deployments, BackupObject))
  {
    ServicesOfOthers(w, i);
    CycleFoundSecrets(w, i, false);
    ZooKeeperLeaves(w, i.service, i.secrets, BackupObject);
    var w1 := ReconcileZooKeeper(w, i.service, i.secrets, false).value;
    hide ReconcileZooKeeper, ReconcileMonitoring, RecordVersions, BackupSecretMoved, MonitoringSecrets;
    MonitoringLeavesBackup(w1, i.service, i.secrets);
    MonitoringServices(w1, i);
    var w2 := ReconcileMonitoring(w1, i.service, i.secrets).value;
    assert w2.caches.versions == FoundByBackup(w.caches, i);
    assert BackupChanged(w2.caches, w2.caches.versions, i) <==> BackupChanged(w.caches, FoundByBackup(w.caches, i), i);
    BackupBuilds(w2, i);
    hide ReconcileBackup;
  }

  lemma BackupBuilds(w: World, i: Input)
    requires i.service.backup.Some? && ReconcileBackup(w, i.service, i.secrets, i.aliases).Some?
    ensures var p := ReconcileBackup(w, i.service, i.secrets, i.aliases).value.objects;
            var spec, d := i.service.backup.value, At(p.deployments, BackupObject);
            if BackupChanged(w.caches, w.caches.versions, i) then
              && At(p.services, BackupObject) == Some(BackupEndpoint(i.service.global, spec))
              && d.Some? && d.value.replicas == 1
              && d.value.pod == BackupPod(i.service.global, spec, i.aliases.Some?)
            else
              && At(p.services, BackupObject) == At(w.objects.services, BackupObject)
              && SameButStamps(d, At(w.objects.deployments, BackupObject))
  {
    VolumeAt(w.objects, i.service.backup.value.storage, i.service.global);
    BackupUses(w.caches.versions, i);
    hide Stamp, RecordVersions, AnyChanged, BackupSecrets, VisitVolume, BackupSecretMoved;
  }
}
