/** What the Backup Daemon's gate leaves out: its pod depends on whether there is a secret with S3
    aliases, whose removal changes neither hash nor recorded version
    (operator/controllers/backupdaemon_reconciler.go, operator/controllers/provider/backupdaemon_provider.go). */
module BackupCache {
  import opened Bytes
  import opened Cluster
  import opened Cycle
  import opened Scaling
  import opened RestartDelivery
  import opened MonitoringCache

  /** The pod that spec and secrets ask for. */
  function WantedBackup(i: Input): Pod
    requires i.service.backup.Some?
  {
    BackupPod(i.service.global, i.service.backup.value, i.aliases.Some?)
  }

  ghost predicate BackupFresh(o: Objects, i: Input)
    requires i.service.backup.Some?
  {
    BackupObject in o.deployments && o.deployments[BackupObject].pod == WantedBackup(i)
  }

  /** One of the Backup Daemon's secrets has moved: its own, that of S3 if it is enabled, or the
      one with S3 aliases. */
  predicate BackupSecretMoved(versions: map<string, string>, i: Input)
    requires i.service.backup.Some?
  {
    var spec := i.service.backup.value;
    || Moved(versions, i.secrets, spec.secretName)
    || (spec.s3Enabled && spec.s3Secret != "" && Moved(versions, i.secrets, spec.s3Secret))
    || (i.aliases.Some? && VersionChanged(versions, i.aliases.value))
  }

  predicate BackupChanged(c: Caches, versions: map<string, string>, i: Input)
    requires i.service.backup.Some?
  {
    !Hashed(c, BackupHash, OfBackup(i.service.backup.value)) ||
    !Hashed(c, GlobalHash, OfGlobal(i.service.global)) || BackupSecretMoved(versions, i)
  }

  lemma BackupUses(versions: map<string, string>, i: Input)
    requires i.service.backup.Some? && i.service.backup.value.secretName in i.secrets
    ensures BackupSecrets(i.service, i.secrets, i.aliases).Some?
    ensures AnyChanged(versions, BackupSecrets(i.service, i.secrets, i.aliases).value) <==>
            BackupSecretMoved(versions, i)
  {
    var spec, used := i.service.backup.value, BackupSecrets(i.service, i.secrets, i.aliases).value;
    assert used[0] == i.secrets[spec.secretName];
    assert used[|used| - 1] == if i.aliases.Some? then i.aliases.value else NO_SECRET;
    assert !VersionChanged(versions, NO_SECRET);
    var s3 := spec.s3Enabled && spec.s3Secret != "" && spec.s3Secret in i.secrets;
    assert |used| == if s3 then 3 else 2;
    assert s3 ==> used[1] == i.secrets[spec.s3Secret];
    hide VersionChanged, BackupSecrets;
    if BackupSecretMoved(versions, i) {
      assert VersionChanged(versions, used[0]) || VersionChanged(versions, used[1]) ||
             VersionChanged(versions, used[|used| - 1]);
    }
  }

  /** The component gives a fresh pod when its gate is open, and keeps the pod otherwise. */
  lemma BackupPodAfter(w: World, i: Input)
    requires i.service.backup.Some? && ReconcileBackup(w, i.service, i.secrets, i.aliases).Some?
    ensures var r := ReconcileBackup(w, i.service, i.secrets, i.aliases).value.objects.deployments;
            var open := BackupChanged(w.caches, w.caches.versions, i);
            open || BackupObject in w.objects.deployments ==>
              BackupObject in r &&
              r[BackupObject].pod == if open then WantedBackup(i) else w.objects.deployments[BackupObject].pod
  {
    VolumeAt(w.objects, i.service.backup.value.storage, i.service.global);
    BackupUses(w.caches.versions, i);
    hide Stamp, Record, AnyChanged, BackupSecrets, VisitVolume, BackupSecretMoved;
  }

  /** What the Backup Daemon finds recorded: ZooKeeper and Monitoring record their secrets first. */
  function FoundByBackup(c: Caches, i: Input): map<string, string>
    requires i.service.zooKeeper.secretName in i.secrets
    requires i.service.monitoring.Some? ==> MonitoringSecrets(i.service, i.secrets).Some?
  {
    if i.service.monitoring.None? then FoundVersions(c, i)
    else RecordVersions(FoundVersions(c, i), MonitoringSecrets(i.service, i.secrets).value)
  }

  /** What Monitoring leaves of the Backup Daemon's pod and of the memory. */
  lemma MonitoringLeavesBackup(w: World, svc: Service, secrets: Secrets)
    ensures var r := ReconcileMonitoring(w, svc, secrets);
            r.Some? ==>
              && At(r.value.objects.deployments, BackupObject) == At(w.objects.deployments, BackupObject)
              && (svc.monitoring.Some? ==> MonitoringSecrets(svc, secrets).Some?)
              && r.value.caches.versions ==
                 (if svc.monitoring.None? then w.caches.versions
                  else RecordVersions(w.caches.versions, MonitoringSecrets(svc, secrets).value))
              && (forall name, x :: name in {BackupHash, GlobalHash} ==>
                    (Hashed(r.value.caches, name, x) <==> Hashed(w.caches, name, x)))
  {
    hide Stamp, RecordVersions, AnyChanged, MonitoringSecrets;
  }

  /** One cycle: the pod is fresh afterwards exactly when the gate was open or it was fresh. */
  lemma CycleBackupPod(u: World, j: Input)
    requires RunCycle(u, j, false).Some? && j.service.backup.Some?
    ensures j.service.zooKeeper.secretName in j.secrets
    ensures j.service.monitoring.Some? ==> MonitoringSecrets(j.service, j.secrets).Some?
    ensures var open := BackupChanged(u.caches, FoundByBackup(u.caches, j), j);
            var after := RunCycle(u, j, false).value.objects;
            open || BackupObject in u.objects.deployments ==>
              (BackupFresh(after, j) <==> open || BackupFresh(u.objects, j))
  {
    CycleFoundSecrets(u, j, false);
    ZooKeeperLeaves(u, j.service, j.secrets, BackupObject);
    var w1 := ReconcileZooKeeper(u, j.service, j.secrets, false).value;
    hide ReconcileZooKeeper, MonitoringSecrets, BackupSecrets, RecordVersions, ReconcileMonitoring, ReconcileBackup,
         BackupSecretMoved;
    MonitoringLeavesBackup(w1, j.service, j.secrets);
    var w2 := ReconcileMonitoring(w1, j.service, j.secrets).value;
    assert w2.caches.versions == FoundByBackup(u.caches, j);
    assert BackupChanged(w2.caches, w2.caches.versions, j) <==> BackupChanged(u.caches, FoundByBackup(u.caches, j), j);
    BackupPodAfter(w2, j);
  }

  /** After a cycle that left the pod fresh, any change outside the Backup Daemon's and the global
      section leaves it fresh exactly when S3 aliases are there as before, or a secret of the
      component has a version that was not recorded. */
  lemma BackupFreshIff(w: World, i: Input, j: Input)
    requires RunCycle(w, i, false).Some? && i.service.backup.Some?
    requires BackupFresh(RunCycle(w, i, false).value.objects, i)
    requires j.service.backup == i.service.backup && j.service.global == i.service.global
    requires RunCycle(RunCycle(w, i, false).value, j, false).Some?
    ensures j.service.zooKeeper.secretName in j.secrets
    ensures j.service.monitoring.Some? ==> MonitoringSecrets(j.service, j.secrets).Some?
    ensures var u := RunCycle(w, i, false).value;
            BackupFresh(RunCycle(u, j, false).value.objects, j) <==>
            || j.aliases.Some? == i.aliases.Some?
            || BackupSecretMoved(FoundByBackup(u.caches, j), j)
  {
    MemoryAfter(w, i, false);
    var u := RunCycle(w, i, false).value;
    hide RunCycle, MonitoringSecrets, BackupSecrets, RecordVersions, BackupSecretMoved, ZooKeeperUses;
    CycleBackupPod(u, j);
  }

  // ---------- a pod that goes stale ----------

  const ALIASES := Secret("a", "1", true)

  /** No servers and no Monitoring, with or without S3 aliases. */
  function WithAliases(aliases: bool): Input {
    Input(Service(GlobalSpec(map[], 0), ZooKeeperSpec(0, "z", {}, NoVolume, false, 0), None,
                  Some(BackupSpec("b", NoVolume, None, false, "", 0))),
          map["z" := Secret("z", "1", true), "b" := Secret("b", "1", true)] +
          if aliases then map["a" := ALIASES] else map[],
          if aliases then Some(ALIASES) else None)
  }

  /** Removing the secret with S3 aliases leaves a pod that uses them. */
  lemma BackupStale()
    ensures var first := RunCycle(World(NOTHING, EMPTY_CACHES), WithAliases(true), false);
            && first.Some? && BackupFresh(first.value.objects, WithAliases(true))
            && var second := RunCycle(first.value, WithAliases(false), false);
               second.Some? && !BackupFresh(second.value.objects, WithAliases(false))
  {
    hide RunCycle, BackupSecretMoved, FoundByBackup, BackupFresh, UpToDate;
    var w, i, j := World(NOTHING, EMPTY_CACHES), WithAliases(true), WithAliases(false);
    BackupStartsFresh(i);
    var u := RunCycle(w, i, false).value;
    AliasCycle(u, j);
    BackupFreshIff(w, i, j);
    NothingRecordedChanged(u.caches, j);
  }

  lemma BackupStartsFresh(i: Input)
    requires i == WithAliases(true)
    ensures var r := RunCycle(World(NOTHING, EMPTY_CACHES), i, false);
            r.Some? && BackupFresh(r.value.objects, i) && UpToDate(r.value.caches, i)
  {
    assert ValidInput(i);
    hide RunCycle, BackupSecretMoved, FoundByBackup, BackupFresh, UpToDate, ValidInput;
    AliasCycle(World(NOTHING, EMPTY_CACHES), i);
    CycleBackupPod(World(NOTHING, EMPTY_CACHES), i);
    CycleUpdatesMemory(World(NOTHING, EMPTY_CACHES), i, false);
  }

  /** A secret that is not there has no version that could change. */
  lemma NothingRecordedChanged(c: Caches, j: Input)
    requires j == WithAliases(false) && UpToDate(c, WithAliases(true))
    ensures j.service.zooKeeper.secretName in j.secrets && !BackupSecretMoved(FoundByBackup(c, j), j)
  {
    var i := WithAliases(true);
    var before := BackupSecrets(i.service, i.secrets, i.aliases).value;
    assert before[0] == i.secrets["b"] == j.secrets["b"] && before[0].name == "b";
    assert Recorded(c.versions, before);
    assert RecordVersions(c.versions, []) == c.versions;
    assert FoundByBackup(c, j) == c.versions["z" := "1"];
  }

  lemma AliasCycle(w: World, i: Input)
    requires i == WithAliases(false) || i == WithAliases(true)
    ensures RunCycle(w, i, false).Some?
  {
    hide Stamp, RecordVersions, AnyChanged;
  }
}
