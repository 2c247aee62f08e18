/** Why the runs of ClaimCycles do not let others delete claims: a server's claim that has gone
    comes back only when the ZooKeeper gate opens. */
module DeletedClaims {
  import opened Bytes
  import opened Claims
  import opened Cluster
  import opened Cycle
  import opened RestartDelivery
  import opened ClaimCycles

  lemma MonitoringKeepsClaims(w: World, i: Input)
    ensures var r := ReconcileMonitoring(w, i.service, i.secrets);
            r.Some? ==> r.value.objects.claims == w.objects.claims
  {
    hide Stamp, RecordVersions, AnyChanged, MonitoringSecrets;
  }

  lemma BackupKeepsServers(w: World, i: Input, id: int)
    ensures var r := ReconcileBackup(w, i.service, i.secrets, i.aliases);
            r.Some? ==> (ServerClaim(id) in r.value.objects.claims <==> ServerClaim(id) in w.objects.claims)
  {
    VolumeKeepsServers(w.objects, i.service, id);
    hide Stamp, RecordVersions, AnyChanged, BackupSecrets, VisitVolume;
  }

  lemma VolumeKeepsServers(o: Objects, svc: Service, id: int)
    ensures svc.backup.Some? ==>
              var r := VisitVolume(o, svc.backup.value.storage, svc.global);
              r.Some? ==> (ServerClaim(id) in r.value.claims <==> ServerClaim(id) in o.claims)
  {
    hide Merge;
  }

  /** While the gate is shut no server's claim is created. */
  lemma ShutGateCreatesNoClaim(w: World, i: Input, id: int)
    requires RunCycle(w, i, false).Some? && i.service.zooKeeper.secretName in i.secrets
    requires !ZooKeeperChanged(w.caches, i.service, i.secrets[i.service.zooKeeper.secretName])
    ensures ServerClaim(id) in RunCycle(w, i, false).value.objects.claims <==> ServerClaim(id) in w.objects.claims
  {
    var secret := i.secrets[i.service.zooKeeper.secretName];
    StampServersKeep(w.objects, [secret], Replicas(i.service));
    hide StampServers, ReconcileMonitoring, ReconcileBackup, ZooKeeperChanged, RecordVersions;
    var w1 := ReconcileZooKeeper(w, i.service, i.secrets, false).value;
    MonitoringKeepsClaims(w1, i);
    BackupKeepsServers(ReconcileMonitoring(w1, i.service, i.secrets).value, i, id);
  }

  /** An open gate leaves every claim of the component in place. */
  lemma OpenGateCreatesClaims(w: World, i: Input, id: int)
    requires RunCycle(w, i, false).Some? && i.service.zooKeeper.secretName in i.secrets
    requires ZooKeeperChanged(w.caches, i.service, i.secrets[i.service.zooKeeper.secretName])
    requires 1 <= id <= Replicas(i.service) && id in i.service.zooKeeper.storage
    ensures ServerClaim(id) in RunCycle(w, i, false).value.objects.claims
  {
    var secret := i.secrets[i.service.zooKeeper.secretName];
    assert ServerClaim(id) in ZooKeeperClaims(i.service);
    ApplyAdvances(w.objects, i.service, secret);
    hide ApplyZooKeeper, StampServers, ReconcileMonitoring, ReconcileBackup, ZooKeeperChanged, RecordVersions,
         ZooKeeperClaims, Progress, Merge;
    var p := ApplyZooKeeper(w.objects, i.service, secret).value;
    assert Merged(p, ServerClaim(id), i.service.global);
    StampServersKeep(p, [secret], Replicas(i.service));
    var w1 := ReconcileZooKeeper(w, i.service, i.secrets, false).value;
    MonitoringKeepsClaims(w1, i);
    BackupKeepsServers(ReconcileMonitoring(w1, i.service, i.secrets).value, i, id);
  }

  /** After a successful cycle a server that needs a claim has it exactly when it had it before
      or the gate was open. */
  lemma ServerClaimIff(w: World, i: Input, id: int)
    requires RunCycle(w, i, false).Some?
    requires 1 <= id <= Replicas(i.service) && id in i.service.zooKeeper.storage
    ensures i.service.zooKeeper.secretName in i.secrets
    ensures ServerClaim(id) in RunCycle(w, i, false).value.objects.claims <==>
            || ServerClaim(id) in w.objects.claims
            || ZooKeeperChanged(w.caches, i.service, i.secrets[i.service.zooKeeper.secretName])
  {
    CycleFoundSecrets(w, i, false);
    hide RunCycle, ZooKeeperChanged;
    if ZooKeeperChanged(w.caches, i.service, i.secrets[i.service.zooKeeper.secretName]) {
      OpenGateCreatesClaims(w, i, id);
    } else {
      ShutGateCreatesNoClaim(w, i, id);
    }
  }

  // ---------- a claim that is not created again ----------

  /** One server with a claim, and neither Monitoring nor Backup Daemon. */
  const ONE_SERVER :=
    Input(Service(GlobalSpec(map[], 0), ZooKeeperSpec(1, "z", {1}, NoVolume, false, 0), None, None),
          map["z" := Secret("z", "1", true)], None)

  /** From an empty cluster the first cycle succeeds. */
  lemma FirstCycle()
    ensures RunCycle(World(NOTHING, EMPTY_CACHES), ONE_SERVER, false).Some?
  {
    var svc, secret := ONE_SERVER.service, ONE_SERVER.secrets["z"];
    hide Stamp, RecordVersions;
    assert ActiveIds(NOTHING.deployments) == {};
    var o := PutServices(NOTHING, svc);
    assert ScaleDown(o, 2, 0) == Some(o);
    assert PutServers(o, svc, secret, 0) == Some(o);
    assert PutServer(o, svc, secret, 1).Some?;
    assert PutServers(o, svc, secret, 1).Some?;
    assert ApplyZooKeeper(NOTHING, svc, secret).Some?;
  }

  /** With the gate shut and no other component a cycle cannot fail. */
  lemma ShutCycleSucceeds(w: World)
    requires UpToDate(w.caches, ONE_SERVER)
    ensures RunCycle(w, ONE_SERVER, false).Some?
    ensures !ZooKeeperChanged(w.caches, ONE_SERVER.service, ONE_SERVER.secrets["z"])
  {
    hide StampServers, RecordVersions;
    assert ZooKeeperUses(ONE_SERVER)[0] == ONE_SERVER.secrets["z"];
  }

  /** The first cycle creates the claim, someone deletes it, and the next cycle, which succeeds,
      leaves it missing. */
  lemma DeletedClaimStaysGone()
    ensures var first := RunCycle(World(NOTHING, EMPTY_CACHES), ONE_SERVER, false);
            && first.Some? && ServerClaim(1) in first.value.objects.claims
            && var deleted := first.value.(objects := first.value.objects.(claims := map[]));
               var second := RunCycle(deleted, ONE_SERVER, false);
               second.Some? && ServerClaim(1) !in second.value.objects.claims
  {
    var w := World(NOTHING, EMPTY_CACHES);
    FirstCycle();
    assert ValidInput(ONE_SERVER);
    assert 1 in ONE_SERVER.service.zooKeeper.storage && Replicas(ONE_SERVER.service) == 1;
    assert ZooKeeperChanged(w.caches, ONE_SERVER.service, ONE_SERVER.secrets["z"]);
    hide RunCycle, ZooKeeperChanged, UpToDate, ValidInput;
    ServerClaimIff(w, ONE_SERVER, 1);
    CycleUpdatesMemory(w, ONE_SERVER, false);
    var first := RunCycle(w, ONE_SERVER, false).value;
    var deleted := first.(objects := first.objects.(claims := map[]));
    ShutCycleSucceeds(deleted);
    ServerClaimIff(deleted, ONE_SERVER, 1);
  }
}
