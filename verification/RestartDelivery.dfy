/** Secret-driven restarts: what a successful cycle delivers, and that repeating it with nothing
    changed does nothing. Holds from every state of the cluster and of the operator's memory. */
module RestartDelivery {
  import opened Bytes
  import opened Claims
  import opened Cluster
  import opened Cycle

  /** Secrets come from one cluster: a name has one secret. */
  ghost predicate Consistent(secrets: seq<Secret>) {
    forall i, j :: 0 <= i < |secrets| && 0 <= j < |secrets| && secrets[i].name == secrets[j].name ==>
                     secrets[i] == secrets[j]
  }

  /** The stamps say the current version of every auto-restart secret. */
  ghost predicate Carries(stamps: map<string, string>, secrets: seq<Secret>) {
    forall i :: 0 <= i < |secrets| && secrets[i].name != "" && secrets[i].autoRestart ==>
                  secrets[i].name in stamps && stamps[secrets[i].name] == secrets[i].version
  }

  /** A secret's version is the recorded one. */
  ghost predicate Recorded(versions: map<string, string>, secrets: seq<Secret>) {
    forall i :: 0 <= i < |secrets| ==>
                  secrets[i].name in versions && versions[secrets[i].name] == secrets[i].version
  }

  lemma {:induction false} StampCarries(stamps: map<string, string>, secrets: seq<Secret>)
    requires Consistent(secrets)
    ensures Carries(Stamp(stamps, secrets), secrets)
  {
    if secrets != [] {
      var most := secrets[..|secrets| - 1];
      assert Consistent(most);
      StampCarries(stamps, most);
      forall i | 0 <= i < |secrets| && secrets[i].name != "" && secrets[i].autoRestart
        ensures secrets[i].name in Stamp(stamps, secrets)
        ensures Stamp(stamps, secrets)[secrets[i].name] == secrets[i].version
      {
        if i < |most| { assert most[i] == secrets[i]; }
      }
    }
  }

  lemma {:induction false} CarriedStampIsSame(stamps: map<string, string>, secrets: seq<Secret>)
    requires Carries(stamps, secrets)
    ensures Stamp(stamps, secrets) == stamps
  {
    if secrets != [] {
      var most := secrets[..|secrets| - 1];
      assert forall i :: 0 <= i < |most| ==> most[i] == secrets[i];
      CarriedStampIsSame(stamps, most);
    }
  }

  lemma {:induction false} RecordVersionsRecords(versions: map<string, string>, secrets: seq<Secret>)
    requires Consistent(secrets)
    ensures Recorded(RecordVersions(versions, secrets), secrets)
  {
    if secrets != [] {
      var most := secrets[..|secrets| - 1];
      RecordVersionsRecords(versions, most);
      forall i | 0 <= i < |secrets|
        ensures secrets[i].name in RecordVersions(versions, secrets)
        ensures RecordVersions(versions, secrets)[secrets[i].name] == secrets[i].version
      {
        if i < |most| { assert most[i] == secrets[i]; }
      }
    }
  }

  /** Recording other secrets of the same cluster disturbs nothing. */
  lemma {:induction false} RecordKeeps(versions: map<string, string>, more: seq<Secret>, secret: Secret)
    requires secret.name in versions && versions[secret.name] == secret.version
    requires forall i :: 0 <= i < |more| && more[i].name == secret.name ==> more[i] == secret
    ensures var r := RecordVersions(versions, more);
            secret.name in r && r[secret.name] == secret.version
  {
    if more != [] {
      RecordKeeps(versions, more[..|more| - 1], secret);
    }
  }

  lemma {:induction false} RecordAgain(versions: map<string, string>, secrets: seq<Secret>)
    requires Recorded(versions, secrets)
    ensures RecordVersions(versions, secrets) == versions && !AnyChanged(versions, secrets)
  {
    if secrets != [] {
      var most := secrets[..|secrets| - 1];
      assert Recorded(versions, most) by {
        assert forall i :: 0 <= i < |most| ==> most[i] == secrets[i];
      }
      RecordAgain(versions, most);
      assert secrets[|secrets| - 1].name in versions;
    }
  }

  // ---------- the secrets a cycle uses ----------

  /** All secrets in the list exist in the cluster; the alias secret may be the missing one. */
  ghost predicate FromCluster(used: seq<Secret>, i: Input) {
    forall k :: 0 <= k < |used| ==>
                  used[k] == NO_SECRET || (used[k].name in i.secrets && used[k] == i.secrets[used[k].name])
  }

  lemma FromClusterConsistent(used: seq<Secret>, i: Input)
    requires ValidInput(i) && FromCluster(used, i)
    ensures Consistent(used)
  {}

  ghost function ZooKeeperUses(i: Input): seq<Secret>
    requires i.service.zooKeeper.secretName in i.secrets
  {
    [i.secrets[i.service.zooKeeper.secretName]]
  }

  lemma UsedFromCluster(i: Input)
    requires ValidInput(i)
    ensures i.service.zooKeeper.secretName in i.secrets ==> FromCluster(ZooKeeperUses(i), i)
    ensures MonitoringSecrets(i.service, i.secrets).Some? ==>
              FromCluster(MonitoringSecrets(i.service, i.secrets).value, i)
    ensures BackupSecrets(i.service, i.secrets, i.aliases).Some? ==>
              FromCluster(BackupSecrets(i.service, i.secrets, i.aliases).value, i)
  {}

  // ---------- stamping ----------

  ghost predicate DeploymentCarries(o: Objects, name: ObjectName, secrets: seq<Secret>) {
    name in o.deployments ==> Carries(o.deployments[name].stamps, secrets)
  }

  lemma StampDelivers(o: Objects, name: ObjectName, secrets: seq<Secret>)
    requires Consistent(secrets)
    ensures DeploymentCarries(StampDeployment(o, name, secrets), name, secrets)
  {
    if name in o.deployments {
      StampCarries(o.deployments[name].stamps, secrets);
    }
  }

  lemma StampAgain(o: Objects, name: ObjectName, secrets: seq<Secret>)
    requires DeploymentCarries(o, name, secrets)
    ensures StampDeployment(o, name, secrets) == o
  {
    if name in o.deployments {
      CarriedStampIsSame(o.deployments[name].stamps, secrets);
    }
  }

  ghost predicate ServersCarry(o: Objects, secrets: seq<Secret>, n: nat) {
    forall i :: 1 <= i <= n ==> DeploymentCarries(o, ServerObject(i), secrets)
  }

  lemma {:induction false} StampServersDelivers(o: Objects, secrets: seq<Secret>, n: nat)
    requires Consistent(secrets)
    ensures ServersCarry(StampServers(o, secrets, n), secrets, n)
  {
    if n > 0 {
      StampServersDelivers(o, secrets, n - 1);
      StampDelivers(StampServers(o, secrets, n - 1), ServerObject(n), secrets);
    }
  }

  lemma {:induction false} StampServersAgain(o: Objects, secrets: seq<Secret>, n: nat)
    requires ServersCarry(o, secrets, n)
    ensures StampServers(o, secrets, n) == o
  {
    if n > 0 {
      StampServersAgain(o, secrets, n - 1);
      StampAgain(o, ServerObject(n), secrets);
    }
  }

  // ---------- what the later components leave alone ----------

  /** Neither Monitoring nor the Backup Daemon touches a server or each other. */
  ghost predicate KeepsDeployments(o: Objects, p: Objects, own: ObjectName) {
    forall x :: x != own ==> (x in o.deployments <==> x in p.deployments) &&
                             (x in o.deployments ==> o.deployments[x] == p.deployments[x])
  }

  lemma MonitoringKeeps(w: World, svc: Service, secrets: Secrets)
    ensures var r := ReconcileMonitoring(w, svc, secrets);
            r.Some? ==> KeepsDeployments(w.objects, r.value.objects, MonitoringObject)
  {
    hide Stamp;
  }

  lemma BackupKeeps(w: World, svc: Service, secrets: Secrets, aliases: Option<Secret>)
    ensures var r := ReconcileBackup(w, svc, secrets, aliases);
            r.Some? ==> KeepsDeployments(w.objects, r.value.objects, BackupObject)
  {
    hide Stamp, BackupSecrets, AnyChanged;
  }

  // ---------- delivery ----------

  ghost predicate Delivered(o: Objects, i: Input) {
    && (i.service.zooKeeper.secretName in i.secrets ==>
          ServersCarry(o, ZooKeeperUses(i), Replicas(i.service)))
    && (MonitoringSecrets(i.service, i.secrets).Some? ==>
          DeploymentCarries(o, MonitoringObject, MonitoringSecrets(i.service, i.secrets).value))
    && (BackupSecrets(i.service, i.secrets, i.aliases).Some? ==>
          DeploymentCarries(o, BackupObject, BackupSecrets(i.service, i.secrets, i.aliases).value))
  }

  lemma ZooKeeperDelivers(w: World, i: Input, always: bool)
    requires ValidInput(i)
    ensures var r := ReconcileZooKeeper(w, i.service, i.secrets, always);
            r.Some? ==> i.service.zooKeeper.secretName in i.secrets &&
                        ServersCarry(r.value.objects, ZooKeeperUses(i), Replicas(i.service))
  {
    hide ApplyZooKeeper, ZooKeeperChanged, ServersCarry;
    var r := ReconcileZooKeeper(w, i.service, i.secrets, always);
    if r.Some? {
      UsedFromCluster(i);
      FromClusterConsistent(ZooKeeperUses(i), i);
      forall o: Objects { StampServersDelivers(o, ZooKeeperUses(i), Replicas(i.service)); }
    }
  }

  lemma MonitoringDelivers(w: World, i: Input)
    requires ValidInput(i)
    ensures var r, used := ReconcileMonitoring(w, i.service, i.secrets), MonitoringSecrets(i.service, i.secrets);
            r.Some? && used.Some? ==> DeploymentCarries(r.value.objects, MonitoringObject, used.value)
  {
    hide StampDeployment, DeploymentCarries, AnyChanged;
    var used := MonitoringSecrets(i.service, i.secrets);
    if used.Some? && ReconcileMonitoring(w, i.service, i.secrets).Some? {
      UsedFromCluster(i);
      FromClusterConsistent(used.value, i);
      forall o: Objects { StampDelivers(o, MonitoringObject, used.value); }
    }
  }

  lemma BackupDelivers(w: World, i: Input)
    requires ValidInput(i)
    ensures var r := ReconcileBackup(w, i.service, i.secrets, i.aliases);
            var used := BackupSecrets(i.service, i.secrets, i.aliases);
            r.Some? && used.Some? ==> DeploymentCarries(r.value.objects, BackupObject, used.value)
  {
    hide StampDeployment, DeploymentCarries, AnyChanged, VisitVolume;
    var used := BackupSecrets(i.service, i.secrets, i.aliases);
    if used.Some? && ReconcileBackup(w, i.service, i.secrets, i.aliases).Some? {
      UsedFromCluster(i);
      FromClusterConsistent(used.value, i);
      forall o: Objects { StampDelivers(o, BackupObject, used.value); }
    }
  }

  /** After every successful cycle each existing dependent deployment carries the current
      version of every auto-restart secret it uses, whatever the operator had recorded before:
      in particular when Monitoring recorded the Backup Daemon's secret first. */
  lemma CycleDelivers(w: World, i: Input, always: bool)
    requires ValidInput(i)
    ensures var r := RunCycle(w, i, always);
            r.Some? ==> Delivered(r.value.objects, i)
  {
    hide ReconcileZooKeeper, ReconcileMonitoring, ReconcileBackup, Carries, MonitoringSecrets, BackupSecrets;
    var r := RunCycle(w, i, always);
    if r.Some? {
      var w1 := ReconcileZooKeeper(w, i.service, i.secrets, always).value;
      var w2 := ReconcileMonitoring(w1, i.service, i.secrets).value;
      ZooKeeperDelivers(w, i, always);
      MonitoringDelivers(w1, i);
      BackupDelivers(w2, i);
      MonitoringKeeps(w1, i.service, i.secrets);
      BackupKeeps(w2, i.service, i.secrets, i.aliases);
    }
  }

  // ---------- quiescence ----------

  /** The memory after a successful cycle says that nothing has changed. */
  ghost predicate UpToDate(c: Caches, i: Input) {
    && Hashed(c, ZooKeeperHash, OfZooKeeper(i.service.zooKeeper))
    && Hashed(c, GlobalHash, OfGlobal(i.service.global))
    && Hashed(c, SpecHash, OfService(i.service))
    && (i.service.monitoring.Some? ==> Hashed(c, MonitoringHash, OfMonitoring(i.service.monitoring.value)))
    && (i.service.backup.Some? ==> Hashed(c, BackupHash, OfBackup(i.service.backup.value)))
    && (i.service.zooKeeper.secretName in i.secrets ==> Recorded(c.versions, ZooKeeperUses(i)))
    && (MonitoringSecrets(i.service, i.secrets).Some? ==>
          Recorded(c.versions, MonitoringSecrets(i.service, i.secrets).value))
    && (BackupSecrets(i.service, i.secrets, i.aliases).Some? ==>
          Recorded(c.versions, BackupSecrets(i.service, i.secrets, i.aliases).value))
  }

  lemma RecordKeepsAll(versions: map<string, string>, used: seq<Secret>, more: seq<Secret>, i: Input)
    requires ValidInput(i) && FromCluster(used, i) && FromCluster(more, i) && Recorded(versions, used)
    ensures Recorded(RecordVersions(versions, more), used)
  {
    forall k | 0 <= k < |used|
      ensures used[k].name in RecordVersions(versions, more)
      ensures RecordVersions(versions, more)[used[k].name] == used[k].version
    {
      RecordKeeps(versions, more, used[k]);
    }
  }

  /** What each component leaves in the memory. */
  lemma MemoryAfter(w: World, i: Input, always: bool)
    requires RunCycle(w, i, always).Some?
    ensures var c := RunCycle(w, i, always).value.caches;
            var v1 := RecordVersions(w.caches.versions, ZooKeeperUses(i));
            var v2 := if i.service.monitoring.Some?
                      then RecordVersions(v1, MonitoringSecrets(i.service, i.secrets).value) else v1;
            var v3 := if i.service.backup.Some?
                      then RecordVersions(v2, BackupSecrets(i.service, i.secrets, i.aliases).value) else v2;
            && c.versions == v3
            && Hashed(c, ZooKeeperHash, OfZooKeeper(i.service.zooKeeper))
            && Hashed(c, GlobalHash, OfGlobal(i.service.global))
            && Hashed(c, SpecHash, OfService(i.service))
            && (i.service.monitoring.Some? ==> Hashed(c, MonitoringHash, OfMonitoring(i.service.monitoring.value)))
            && (i.service.backup.Some? ==> Hashed(c, BackupHash, OfBackup(i.service.backup.value)))
  {
    hide ApplyZooKeeper, ZooKeeperChanged, RecordVersions, StampServers, StampDeployment, PutDeployment,
         AnyChanged, VisitVolume, BackupSecrets, MonitoringSecrets;
  }

  lemma CycleUpdatesMemory(w: World, i: Input, always: bool)
    requires ValidInput(i) && RunCycle(w, i, always).Some?
    ensures UpToDate(RunCycle(w, i, always).value.caches, i)
  {
    MemoryAfter(w, i, always);
    UsedFromCluster(i);
    hide RunCycle, RecordVersions, Recorded, FromCluster;
    var zk := ZooKeeperUses(i);
    var v1 := RecordVersions(w.caches.versions, zk);
    FromClusterConsistent(zk, i);
    RecordVersionsRecords(w.caches.versions, zk);
    var v2 := v1;
    if i.service.monitoring.Some? {
      var mon := MonitoringSecrets(i.service, i.secrets).value;
      v2 := RecordVersions(v1, mon);
      FromClusterConsistent(mon, i);
      RecordVersionsRecords(v1, mon);
      RecordKeepsAll(v1, zk, mon, i);
    }
    if i.service.backup.Some? {
      var bak := BackupSecrets(i.service, i.secrets, i.aliases).value;
      FromClusterConsistent(bak, i);
      RecordVersionsRecords(v2, bak);
      RecordKeepsAll(v2, zk, bak, i);
      if i.service.monitoring.Some? {
        RecordKeepsAll(v2, MonitoringSecrets(i.service, i.secrets).value, bak, i);
      }
    }
  }

  lemma RecordSame(c: Caches, used: seq<Secret>, name: HashName, digest: Digest)
    requires Hashed(c, name, digest) && Recorded(c.versions, used)
    ensures Record(c, used, name, digest) == c && !AnyChanged(c.versions, used)
  {
    RecordAgain(c.versions, used);
    assert c.hashes[name := digest] == c.hashes;
  }

  lemma ZooKeeperQuiet(w: World, i: Input)
    requires UpToDate(w.caches, i) && Delivered(w.objects, i) && i.service.zooKeeper.secretName in i.secrets
    ensures ReconcileZooKeeper(w, i.service, i.secrets, false) == Some(w)
  {
    RecordSame(w.caches, ZooKeeperUses(i), ZooKeeperHash, OfZooKeeper(i.service.zooKeeper));
    StampServersAgain(w.objects, ZooKeeperUses(i), Replicas(i.service));
    assert !VersionChanged(w.caches.versions, ZooKeeperUses(i)[0]);
    hide ApplyZooKeeper, Record, StampServers;
  }

  lemma MonitoringQuiet(w: World, i: Input)
    requires UpToDate(w.caches, i) && Delivered(w.objects, i)
    requires i.service.monitoring.Some? ==> MonitoringSecrets(i.service, i.secrets).Some?
    ensures ReconcileMonitoring(w, i.service, i.secrets) == Some(w)
  {
    hide Record, StampDeployment, MonitoringSecrets, BackupSecrets, Carries, Recorded, AnyChanged, PutDeployment;
    if i.service.monitoring.Some? {
      var used := MonitoringSecrets(i.service, i.secrets).value;
      RecordSame(w.caches, used, MonitoringHash, OfMonitoring(i.service.monitoring.value));
      StampAgain(w.objects, MonitoringObject, used);
    }
  }

  lemma BackupQuiet(w: World, i: Input)
    requires UpToDate(w.caches, i) && Delivered(w.objects, i)
    requires i.service.backup.Some? ==> BackupSecrets(i.service, i.secrets, i.aliases).Some?
    ensures ReconcileBackup(w, i.service, i.secrets, i.aliases) == Some(w)
  {
    hide Record, StampDeployment, MonitoringSecrets, BackupSecrets, Carries, Recorded, AnyChanged, PutDeployment;
    if i.service.backup.Some? {
      var used := BackupSecrets(i.service, i.secrets, i.aliases).value;
      RecordSame(w.caches, used, BackupHash, OfBackup(i.service.backup.value));
      StampAgain(w.objects, BackupObject, used);
    }
  }

  /** The secrets a successful cycle needed were there. */
  lemma CycleFoundSecrets(w: World, i: Input, always: bool)
    requires RunCycle(w, i, always).Some?
    ensures i.service.zooKeeper.secretName in i.secrets
    ensures i.service.monitoring.Some? ==> MonitoringSecrets(i.service, i.secrets).Some?
    ensures i.service.backup.Some? ==> BackupSecrets(i.service, i.secrets, i.aliases).Some?
    ensures RunCycle(w, i, always).value.objects.recorded == i.service.global.pvcAnnotations
  {
    hide ApplyZooKeeper, ZooKeeperChanged, StampServers, StampDeployment, PutDeployment, AnyChanged,
         VisitVolume, BackupSecrets, MonitoringSecrets, Record;
  }

  /** Quiescence: repeating a successful cycle with nothing changed issues no deployment update
      and changes nothing else either. */
  lemma CycleIsQuiet(w: World, i: Input, always: bool)
    requires ValidInput(i)
    ensures var r := RunCycle(w, i, always);
            r.Some? ==> RunCycle(r.value, i, false) == r
  {
    var r := RunCycle(w, i, always);
    if r.Some? {
      CycleDelivers(w, i, always);
      CycleUpdatesMemory(w, i, always);
      CycleFoundSecrets(w, i, always);
      ZooKeeperQuiet(r.value, i);
      MonitoringQuiet(r.value, i);
      BackupQuiet(r.value, i);
      FinishAgain(r.value, i);
      hide UpToDate, Delivered, ReconcileZooKeeper, ReconcileMonitoring, ReconcileBackup, Finish;
    }
  }

  lemma FinishAgain(w: World, i: Input)
    requires UpToDate(w.caches, i) && w.objects.recorded == i.service.global.pvcAnnotations
    ensures Finish(w, i.service) == w
  {
    var h := w.caches.hashes;
    assert h[SpecHash := OfService(i.service)][GlobalHash := OfGlobal(i.service.global)] == h;
  }
}
