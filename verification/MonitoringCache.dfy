/** What the Monitoring hash leaves out: its pod is built from parts of the Backup Daemon's
    section too (operator/controllers/monitoring_reconciler.go,
    operator/controllers/provider/monitoring_provider.go). */
module MonitoringCache {
  import opened Bytes
  import opened Claims
  import opened Cluster
  import opened Cycle
  import opened Scaling
  import opened RestartDelivery

  // ---------- what the other components leave of Monitoring ----------

  lemma {:induction false} StampServersLeave(o: Objects, secrets: seq<Secret>, n: nat, x: ObjectName)
    requires !x.ServerObject?
    ensures At(StampServers(o, secrets, n).deployments, x) == At(o.deployments, x)
  {
    hide Stamp;
    if n > 0 {
      StampServersLeave(o, secrets, n - 1, x);
    }
  }

  lemma ZooKeeperLeaves(w: World, svc: Service, secrets: Secrets, x: ObjectName)
    requires !x.ServerObject?
    ensures var r := ReconcileZooKeeper(w, svc, secrets, false);
            r.Some? ==>
              && At(r.value.objects.deployments, x) == At(w.objects.deployments, x)
              && svc.zooKeeper.secretName in secrets
              && r.value.caches == Record(w.caches, [secrets[svc.zooKeeper.secretName]], ZooKeeperHash,
                                          OfZooKeeper(svc.zooKeeper))
  {
    hide StampServers, Record, ZooKeeperChanged, ActiveIds;
    var r := ReconcileZooKeeper(w, svc, secrets, false);
    if r.Some? {
      var secret := secrets[svc.zooKeeper.secretName];
      if Replicas(svc) > 0 {
        ApplyAt(w.objects, svc, secret);
      }
      StampServersLeave(w.objects, [secret], Replicas(svc), x);
      if ApplyZooKeeper(w.objects, svc, secret).Some? {
        StampServersLeave(ApplyZooKeeper(w.objects, svc, secret).value, [secret], Replicas(svc), x);
      }
    }
  }

  /** The pod that the spec asks for. */
  function WantedPod(svc: Service): Pod
    requires svc.monitoring.Some?
  {
    MonitoringPod(svc.global, svc.monitoring.value, SeenByMonitoring(svc.backup))
  }

  ghost predicate Fresh(o: Objects, svc: Service)
    requires svc.monitoring.Some?
  {
    MonitoringObject in o.deployments && o.deployments[MonitoringObject].pod == WantedPod(svc)
  }

  /** The recorded version of a secret that exists is another one. */
  predicate Moved(versions: map<string, string>, secrets: Secrets, name: string) {
    name in secrets && VersionChanged(versions, secrets[name])
  }

  /** One of the secrets of Monitoring has moved: its own, or the one that the Backup Daemon's
      section names. */
  predicate MonitoringSecretMoved(versions: map<string, string>, svc: Service, secrets: Secrets)
    requires svc.monitoring.Some?
  {
    || Moved(versions, secrets, svc.monitoring.value.secretName)
    || (svc.backup.Some? && svc.backup.value.secretName != "" && Moved(versions, secrets, svc.backup.value.secretName))
  }

  predicate MonitoringChanged(c: Caches, versions: map<string, string>, svc: Service, secrets: Secrets)
    requires svc.monitoring.Some?
  {
    !Hashed(c, MonitoringHash, OfMonitoring(svc.monitoring.value)) ||
    !Hashed(c, GlobalHash, OfGlobal(svc.global)) || MonitoringSecretMoved(versions, svc, secrets)
  }

  lemma MonitoringUses(versions: map<string, string>, svc: Service, secrets: Secrets)
    requires svc.monitoring.Some? && svc.monitoring.value.secretName in secrets
    ensures MonitoringSecrets(svc, secrets).Some?
    ensures AnyChanged(versions, MonitoringSecrets(svc, secrets).value) <==>
            MonitoringSecretMoved(versions, svc, secrets)
  {
    var used := MonitoringSecrets(svc, secrets).value;
    assert used[0] == secrets[svc.monitoring.value.secretName];
    if |used| == 2 {
      assert used[1] == secrets[svc.backup.value.secretName];
    }
    hide VersionChanged;
    if MonitoringSecretMoved(versions, svc, secrets) {
      assert VersionChanged(versions, used[0]) || (|used| == 2 && VersionChanged(versions, used[1]));
    }
  }

  /** The component gives a fresh pod when its gate is open, and keeps the pod otherwise. */
  lemma MonitoringPodAfter(w: World, svc: Service, secrets: Secrets)
    requires svc.monitoring.Some? && svc.monitoring.value.secretName in secrets
    requires MonitoringObject in w.objects.deployments || MonitoringChanged(w.caches, w.caches.versions, svc, secrets)
    ensures var r := ReconcileMonitoring(w, svc, secrets);
            && r.Some? && MonitoringObject in r.value.objects.deployments
            && r.value.objects.deployments[MonitoringObject].pod ==
               if MonitoringChanged(w.caches, w.caches.versions, svc, secrets) then WantedPod(svc)
               else w.objects.deployments[MonitoringObject].pod
  {
    MonitoringUses(w.caches.versions, svc, secrets);
    hide Stamp, Record, AnyChanged, MonitoringSecrets, SeenByMonitoring, MonitoringSecretMoved;
  }

  /** What Monitoring finds recorded: the ZooKeeper component records its secret first. */
  function FoundVersions(c: Caches, i: Input): map<string, string>
    requires i.service.zooKeeper.secretName in i.secrets
  {
    RecordVersions(c.versions, [i.secrets[i.service.zooKeeper.secretName]])
  }

  /** One cycle: the pod is fresh afterwards exactly when the gate was open or it was fresh. */
  lemma CyclePod(u: World, j: Input)
    requires RunCycle(u, j, false).Some? && j.service.monitoring.Some?
    ensures j.service.zooKeeper.secretName in j.secrets && j.service.monitoring.value.secretName in j.secrets
    ensures var open := MonitoringChanged(u.caches, FoundVersions(u.caches, j), j.service, j.secrets);
            var after := RunCycle(u, j, false).value.objects;
            open || MonitoringObject in u.objects.deployments ==>
              (Fresh(after, j.service) <==> open || Fresh(u.objects, j.service))
  {
    CycleFoundSecrets(u, j, false);
    ZooKeeperLeaves(u, j.service, j.secrets, MonitoringObject);
    var w1 := ReconcileZooKeeper(u, j.service, j.secrets, false).value;
    hide ReconcileZooKeeper, BackupSecrets, RecordVersions, ReconcileMonitoring, ReconcileBackup, SeenByMonitoring,
         MonitoringSecretMoved;
    assert MonitoringChanged(w1.caches, w1.caches.versions, j.service, j.secrets) <==>
           MonitoringChanged(u.caches, FoundVersions(u.caches, j), j.service, j.secrets);
    if MonitoringChanged(w1.caches, w1.caches.versions, j.service, j.secrets) ||
       MonitoringObject in u.objects.deployments {
      MonitoringPodAfter(w1, j.service, j.secrets);
      var w2 := ReconcileMonitoring(w1, j.service, j.secrets).value;
      BackupKeeps(w2, j.service, j.secrets, j.aliases);
    }
  }

  /** What the Monitoring pod shows of the Backup Daemon's section is the same: that there is one,
      its secret, the secret of its certificate, and whether S3 is enabled. */
  predicate SameForMonitoring(a: Option<BackupSpec>, b: Option<BackupSpec>) {
    a.Some? == b.Some? &&
    (a.Some? ==>
      && a.value.secretName == b.value.secretName && a.value.sslSecret == b.value.sslSecret
      && a.value.s3Enabled == b.value.s3Enabled)
  }

  /** The Monitoring hash omits the Backup Daemon's section. After a cycle that left the pod
      fresh, any change of the other sections and of secrets leaves it fresh exactly when what
      Monitoring reads of that section is the same, or a secret of the new pod has a version
      that was not recorded. */
  lemma MonitoringFreshIff(w: World, i: Input, j: Input)
    requires RunCycle(w, i, false).Some? && i.service.monitoring.Some?
    requires Fresh(RunCycle(w, i, false).value.objects, i.service)
    requires j.service.monitoring == i.service.monitoring && j.service.global == i.service.global
    requires RunCycle(RunCycle(w, i, false).value, j, false).Some?
    ensures j.service.zooKeeper.secretName in j.secrets
    ensures var u := RunCycle(w, i, false).value;
            Fresh(RunCycle(u, j, false).value.objects, j.service) <==>
            || SameForMonitoring(j.service.backup, i.service.backup)
            || MonitoringSecretMoved(FoundVersions(u.caches, j), j.service, j.secrets)
  {
    MemoryAfter(w, i, false);
    var u := RunCycle(w, i, false).value;
    hide RunCycle, MonitoringSecrets, BackupSecrets, RecordVersions, MonitoringSecretMoved, ZooKeeperUses;
    CyclePod(u, j);
  }

  // ---------- a pod that goes stale ----------

  /** No servers, and a secret for each component. */
  function Enabling(s3: bool): Input {
    Input(Service(GlobalSpec(map[], 0), ZooKeeperSpec(0, "z", {}, NoVolume, false, 0), Some(MonitoringSpec("m", 0)),
                  Some(BackupSpec("b", NoVolume, None, s3, "", 0))),
          map["z" := Secret("z", "1", true), "m" := Secret("m", "1", true), "b" := Secret("b", "1", true)], None)
  }

  /** Enabling S3 for the Backup Daemon, and nothing else, leaves Monitoring with S3 disabled. */
  lemma MonitoringStale()
    ensures var first := RunCycle(World(NOTHING, EMPTY_CACHES), Enabling(false), false);
            && first.Some? && Fresh(first.value.objects, Enabling(false).service)
            && var second := RunCycle(first.value, Enabling(true), false);
               second.Some? && !Fresh(second.value.objects, Enabling(true).service)
  {
    var w, i, j := World(NOTHING, EMPTY_CACHES), Enabling(false), Enabling(true);
    hide RunCycle, MonitoringSecretMoved, FoundVersions, Fresh, UpToDate;
    StartsFresh(i);
    var u := RunCycle(w, i, false).value;
    SmallCycle(u, j);
    MonitoringFreshIff(w, i, j);
    NoVersionChanged(u.caches, j);
  }

  lemma StartsFresh(i: Input)
    requires i == Enabling(false)
    ensures var r := RunCycle(World(NOTHING, EMPTY_CACHES), i, false);
            r.Some? && Fresh(r.value.objects, i.service) && UpToDate(r.value.caches, i)
  {
    assert ValidInput(i);
    hide RunCycle, MonitoringSecretMoved, FoundVersions, Fresh, UpToDate, ValidInput;
    SmallCycle(World(NOTHING, EMPTY_CACHES), i);
    CyclePod(World(NOTHING, EMPTY_CACHES), i);
    CycleUpdatesMemory(World(NOTHING, EMPTY_CACHES), i, false);
  }

  /** The first cycle recorded the secrets that the second uses. */
  lemma NoVersionChanged(c: Caches, j: Input)
    requires j == Enabling(true) && UpToDate(c, Enabling(false))
    ensures j.service.zooKeeper.secretName in j.secrets
    ensures !MonitoringSecretMoved(FoundVersions(c, j), j.service, j.secrets)
  {
    var i := Enabling(false);
    var used := MonitoringSecrets(i.service, i.secrets).value;
    assert used[0].name == "m" && used[1].name == "b" && |used| == 2;
    assert Recorded(c.versions, used);
    assert RecordVersions(c.versions, []) == c.versions;
    assert FoundVersions(c, j) == c.versions["z" := "1"];
  }

  /** Without servers and volumes a cycle succeeds as soon as its secrets are there. */
  lemma SmallCycle(w: World, i: Input)
    requires i == Enabling(false) || i == Enabling(true)
    ensures RunCycle(w, i, false).Some?
  {
    hide Stamp, RecordVersions, AnyChanged;
  }
}
