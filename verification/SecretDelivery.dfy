/** Which secret reaches which deployment, said over the spec and the secrets alone
    (operator/controllers: zookeeper_reconciler.go, monitoring_reconciler.go,
    backupdaemon_reconciler.go, deployment_secret_restart.go). */
module SecretDelivery {
  import opened Bytes
  import opened Cluster
  import opened Cycle
  import opened Scaling
  import opened RestartDelivery
  import opened MonitoringCache

  /** A deployment that exists says the current version of an auto-restart secret. */
  ghost predicate Says(o: Objects, x: ObjectName, s: Secret) {
    x in o.deployments && s.autoRestart ==>
      s.name in o.deployments[x].stamps && o.deployments[x].stamps[s.name] == s.version
  }

  /** The secret of this name, if there is one. */
  ghost predicate SaysNamed(o: Objects, x: ObjectName, secrets: Secrets, name: string) {
    name in secrets ==> Says(o, x, secrets[name])
  }

  /** Every secret that a deployment depends on. */
  ghost predicate AllSaid(o: Objects, i: Input) {
    var svc := i.service;
    && (forall id :: 1 <= id <= svc.zooKeeper.replicas ==>
          SaysNamed(o, ServerObject(id), i.secrets, svc.zooKeeper.secretName))
    && (svc.monitoring.Some? ==>
          && SaysNamed(o, MonitoringObject, i.secrets, svc.monitoring.value.secretName)
          && (svc.backup.Some? ==> SaysNamed(o, MonitoringObject, i.secrets, svc.backup.value.secretName)))
    && (svc.backup.Some? ==>
          && SaysNamed(o, BackupObject, i.secrets, svc.backup.value.secretName)
          && (svc.backup.value.s3Enabled ==> SaysNamed(o, BackupObject, i.secrets, svc.backup.value.s3Secret))
          && (i.aliases.Some? ==> Says(o, BackupObject, i.aliases.value)))
  }

  lemma CarriedIsSaid(o: Objects, x: ObjectName, used: seq<Secret>, k: nat)
    requires DeploymentCarries(o, x, used) && k < |used| && used[k].name != ""
    ensures Says(o, x, used[k])
  {}

  lemma MonitoringSaid(o: Objects, i: Input)
    requires ValidInput(i) && Delivered(o, i) && i.service.monitoring.Some?
    requires i.service.monitoring.value.secretName in i.secrets
    ensures SaysNamed(o, MonitoringObject, i.secrets, i.service.monitoring.value.secretName)
    ensures i.service.backup.Some? ==> SaysNamed(o, MonitoringObject, i.secrets, i.service.backup.value.secretName)
  {
    var used := MonitoringSecrets(i.service, i.secrets).value;
    hide DeploymentCarries, Says;
    CarriedIsSaid(o, MonitoringObject, used, 0);
    if i.service.backup.Some? && i.service.backup.value.secretName in i.secrets {
      CarriedIsSaid(o, MonitoringObject, used, 1);
    }
  }

  lemma BackupSaid(o: Objects, i: Input)
    requires ValidInput(i) && Delivered(o, i) && i.service.backup.Some?
    requires i.service.backup.value.secretName in i.secrets
    ensures SaysNamed(o, BackupObject, i.secrets, i.service.backup.value.secretName)
    ensures i.service.backup.value.s3Enabled ==>
              SaysNamed(o, BackupObject, i.secrets, i.service.backup.value.s3Secret)
    ensures i.aliases.Some? ==> Says(o, BackupObject, i.aliases.value)
  {
    var spec, used := i.service.backup.value, BackupSecrets(i.service, i.secrets, i.aliases).value;
    hide DeploymentCarries, Says;
    CarriedIsSaid(o, BackupObject, used, 0);
    if spec.s3Enabled && spec.s3Secret in i.secrets {
      assert used[1] == i.secrets[spec.s3Secret];
      CarriedIsSaid(o, BackupObject, used, 1);
    }
    if i.aliases.Some? {
      assert used[|used| - 1] == i.aliases.value;
      CarriedIsSaid(o, BackupObject, used, |used| - 1);
    }
  }

  lemma ServerSaid(o: Objects, i: Input, id: int)
    requires ValidInput(i) && Delivered(o, i) && 1 <= id <= i.service.zooKeeper.replicas
    ensures SaysNamed(o, ServerObject(id), i.secrets, i.service.zooKeeper.secretName)
  {
    if i.service.zooKeeper.secretName in i.secrets {
      CarriedIsSaid(o, ServerObject(id), ZooKeeperUses(i), 0);
    }
  }

  /** After every successful cycle, from any cluster and any memory, each deployment that exists
      says the current version of every auto-restart secret it depends on: servers ZooKeeper's,
      Monitoring its own and the one the Backup Daemon's section names, and the Backup Daemon its
      own, that of S3 if enabled, and the one with S3 aliases. */
  lemma CycleSaysAll(w: World, i: Input, always: bool)
    requires ValidInput(i) && RunCycle(w, i, always).Some?
    ensures AllSaid(RunCycle(w, i, always).value.objects, i)
  {
    CycleDelivers(w, i, always);
    CycleFoundSecrets(w, i, always);
    var o := RunCycle(w, i, always).value.objects;
    SecretsWereThere(i);
    hide RunCycle, Delivered, SaysNamed, Says, ValidInput;
    forall id | 1 <= id <= i.service.zooKeeper.replicas
      ensures SaysNamed(o, ServerObject(id), i.secrets, i.service.zooKeeper.secretName)
    {
      ServerSaid(o, i, id);
    }
    if i.service.monitoring.Some? {
      MonitoringSaid(o, i);
    }
    if i.service.backup.Some? {
      BackupSaid(o, i);
    }
  }

  lemma SecretsWereThere(i: Input)
    ensures MonitoringSecrets(i.service, i.secrets).Some? <==>
            i.service.monitoring.Some? && i.service.monitoring.value.secretName in i.secrets
    ensures BackupSecrets(i.service, i.secrets, i.aliases).Some? <==>
            i.service.backup.Some? && i.service.backup.value.secretName in i.secrets
  {}

  // ---------- and no other ----------

  /** A stamp that was not there before is that of an auto-restart secret in the list. */
  lemma {:induction false} StampedOnly(stamps: map<string, string>, secrets: seq<Secret>, name: string)
    requires name in Stamp(stamps, secrets)
    ensures || (name in stamps && stamps[name] == Stamp(stamps, secrets)[name])
            || exists k :: 0 <= k < |secrets| && secrets[k].autoRestart && secrets[k].name == name &&
                           secrets[k].version == Stamp(stamps, secrets)[name]
  {
    if secrets != [] {
      var last := |secrets| - 1;
      var most := secrets[..last];
      if secrets[last].autoRestart && secrets[last].name == name && name != "" {
        assert secrets[last].version == Stamp(stamps, secrets)[name];
      } else {
        assert name in Stamp(stamps, most) && Stamp(stamps, most)[name] == Stamp(stamps, secrets)[name];
        StampedOnly(stamps, most, name);
        if k :| 0 <= k < |most| && most[k].autoRestart && most[k].name == name &&
                most[k].version == Stamp(stamps, most)[name] {
          assert secrets[k] == most[k];
        }
      }
    }
  }

  /** A stamp of an auto-restart secret in the list. */
  ghost predicate StampOf(used: seq<Secret>, name: string, version: string) {
    exists k :: 0 <= k < |used| && used[k].autoRestart && used[k].name == name && used[k].version == version
  }

  /** Every stamp on x was there before or is that of an auto-restart secret in the list. */
  ghost predicate Origin(o: Deployments, p: Deployments, x: ObjectName, used: seq<Secret>) {
    forall name :: x in p && name in p[x].stamps ==>
      || (x in o && name in o[x].stamps && o[x].stamps[name] == p[x].stamps[name])
      || StampOf(used, name, p[x].stamps[name])
  }

  lemma OriginTrans(o: Deployments, p: Deployments, q: Deployments, x: ObjectName, used: seq<Secret>)
    requires Origin(o, p, x, used) && Origin(p, q, x, used)
    ensures Origin(o, q, x, used)
  {
    hide StampOf;
  }

  lemma OriginOfStamp(o: Objects, x: ObjectName, used: seq<Secret>)
    ensures Origin(o.deployments, StampDeployment(o, x, used).deployments, x, used)
  {
    if x in o.deployments {
      var stamps := o.deployments[x].stamps;
      forall name | name in Stamp(stamps, used)
        ensures (name in stamps && stamps[name] == Stamp(stamps, used)[name]) ||
                StampOf(used, name, Stamp(stamps, used)[name])
      {
        StampedOnly(stamps, used, name);
      }
    }
  }

  lemma OriginOfPut(o: Objects, x: ObjectName, pod: Pod, used: seq<Secret>)
    ensures Origin(o.deployments, PutDeployment(o, x, pod, used).deployments, x, used)
  {
    forall name | name in Stamp(map[], used) ensures StampOf(used, name, Stamp(map[], used)[name]) {
      StampedOnly(map[], used, name);
    }
  }

  lemma OriginOfMonitoring(w: World, i: Input)
    ensures var r, used := ReconcileMonitoring(w, i.service, i.secrets), MonitoringSecrets(i.service, i.secrets);
            r.Some? && used.Some? ==>
              Origin(w.objects.deployments, r.value.objects.deployments, MonitoringObject, used.value)
  {
    var r, used := ReconcileMonitoring(w, i.service, i.secrets), MonitoringSecrets(i.service, i.secrets);
    if r.Some? && used.Some? {
      hide Origin, StampDeployment, MonitoringSecrets, AnyChanged, RecordVersions;
      var spec, o := i.service.monitoring.value, w.objects;
      var p := o.(services := o.services[MonitoringObject := MonitoringEndpoint(i.service.global, spec)]);
      var pod := MonitoringPod(i.service.global, spec, SeenByMonitoring(i.service.backup));
      OriginOfPut(p, MonitoringObject, pod, used.value);
      var q := PutDeployment(p, MonitoringObject, pod, used.value);
      hide PutDeployment;
      OriginOfStamp(q, MonitoringObject, used.value);
      OriginTrans(o.deployments, q.deployments, StampDeployment(q, MonitoringObject, used.value).deployments,
                  MonitoringObject, used.value);
      OriginOfStamp(o, MonitoringObject, used.value);
    }
  }

  lemma OriginOfBackup(w: World, i: Input)
    ensures var r, used := ReconcileBackup(w, i.service, i.secrets, i.aliases),
                           BackupSecrets(i.service, i.secrets, i.aliases);
            r.Some? && used.Some? ==>
              Origin(w.objects.deployments, r.value.objects.deployments, BackupObject, used.value)
  {
    var r := ReconcileBackup(w, i.service, i.secrets, i.aliases);
    var used := BackupSecrets(i.service, i.secrets, i.aliases);
    if r.Some? && used.Some? {
      hide Origin, StampDeployment, BackupSecrets, AnyChanged, RecordVersions, VisitVolume;
      var spec := i.service.backup.value;
      VolumeAt(w.objects, spec.storage, i.service.global);
      var visited := VisitVolume(w.objects, spec.storage, i.service.global);
      if visited.Some? {
        var o := visited.value;
        var p := o.(services := o.services[BackupObject := BackupEndpoint(i.service.global, spec)]);
        var pod := BackupPod(i.service.global, spec, i.aliases.Some?);
        OriginOfPut(p, BackupObject, pod, used.value);
        var q := PutDeployment(p, BackupObject, pod, used.value);
        OriginOfStamp(q, BackupObject, used.value);
        OriginTrans(p.deployments, q.deployments, StampDeployment(q, BackupObject, used.value).deployments,
                    BackupObject, used.value);
      }
      OriginOfStamp(w.objects, BackupObject, used.value);
    }
  }

  lemma {:induction false} OriginOfServers(o: Objects, used: seq<Secret>, n: nat, x: ObjectName)
    ensures Origin(o.deployments, StampServers(o, used, n).deployments, x, used)
  {
    hide Origin, StampDeployment;
    if n == 0 {
      OriginSame(o.deployments, x, used);
    } else {
      OriginOfServers(o, used, n - 1, x);
      var most := StampServers(o, used, n - 1);
      OriginElsewhere(most, ServerObject(n), used, x);
      OriginTrans(o.deployments, most.deployments, StampDeployment(most, ServerObject(n), used).deployments, x, used);
    }
  }

  lemma OriginSame(o: Deployments, x: ObjectName, used: seq<Secret>)
    ensures Origin(o, o, x, used)
  {}

  lemma OriginElsewhere(o: Objects, y: ObjectName, used: seq<Secret>, x: ObjectName)
    ensures Origin(o.deployments, StampDeployment(o, y, used).deployments, x, used)
  {
    if x == y {
      OriginOfStamp(o, x, used);
    } else {
      hide Stamp, StampOf;
    }
  }

  lemma OriginOfApply(o: Objects, svc: Service, secret: Secret, id: int)
    ensures var r := ApplyZooKeeper(o, svc, secret);
            r.Some? ==> Origin(o.deployments, r.value.deployments, ServerObject(id), [secret])
  {
    var r := ApplyZooKeeper(o, svc, secret);
    if r.Some? && Replicas(svc) > 0 {
      hide ApplyZooKeeper, ActiveIds, InPlace;
      ApplyAt(o, svc, secret);
      var p, x := r.value.deployments, ServerObject(id);
      assert At(p, x) == if IsServer(x, 1, Replicas(svc)) then Some(ServerDeployment(svc, secret, id))
                         else if IsServer(x, Replicas(svc) + 1, |ActiveIds(o.deployments)|) then
                           Stopped(At(o.deployments, x))
                         else At(o.deployments, x);
      forall name | name in Stamp(map[], [secret]) ensures StampOf([secret], name, Stamp(map[], [secret])[name]) {
        StampedOnly(map[], [secret], name);
      }
    }
  }

  lemma OriginOfZooKeeper(w: World, i: Input, always: bool, id: int)
    ensures var r := ReconcileZooKeeper(w, i.service, i.secrets, always);
            r.Some? ==>
              i.service.zooKeeper.secretName in i.secrets &&
              Origin(w.objects.deployments, r.value.objects.deployments, ServerObject(id),
                     [i.secrets[i.service.zooKeeper.secretName]])
  {
    var r := ReconcileZooKeeper(w, i.service, i.secrets, always);
    if r.Some? {
      hide Origin, ApplyZooKeeper, StampServers, ZooKeeperChanged, RecordVersions;
      var secret, n, x := i.secrets[i.service.zooKeeper.secretName], Replicas(i.service), ServerObject(id);
      OriginOfServers(w.objects, [secret], n, x);
      var applied := ApplyZooKeeper(w.objects, i.service, secret);
      if applied.Some? {
        OriginOfApply(w.objects, i.service, secret, id);
        OriginOfServers(applied.value, [secret], n, x);
        OriginTrans(w.objects.deployments, applied.value.deployments,
                    StampServers(applied.value, [secret], n).deployments, x, [secret]);
      }
    }
  }

  // ---------- a whole cycle ----------

  /** The current version of an auto-restart secret. */
  predicate Restarts(secrets: Secrets, name: string, version: string) {
    name in secrets && secrets[name].autoRestart && secrets[name].version == version
  }

  /** The secrets that may restart a deployment. */
  ghost predicate DependsOn(i: Input, x: ObjectName, name: string) {
    var svc := i.service;
    match x
    case ServerObject(_) => name == svc.zooKeeper.secretName
    case MonitoringObject =>
      svc.monitoring.Some? &&
      (name == svc.monitoring.value.secretName || (svc.backup.Some? && name == svc.backup.value.secretName))
    case BackupObject =>
      svc.backup.Some? &&
      (name == svc.backup.value.secretName ||
       (svc.backup.value.s3Enabled && name == svc.backup.value.s3Secret) ||
       (i.aliases.Some? && name == i.aliases.value.name))
    case _ => false
  }

  lemma UsedByMonitoring(i: Input, name: string, version: string)
    requires ValidInput(i) && MonitoringSecrets(i.service, i.secrets).Some?
    requires StampOf(MonitoringSecrets(i.service, i.secrets).value, name, version)
    ensures DependsOn(i, MonitoringObject, name) && Restarts(i.secrets, name, version)
  {}

  lemma UsedByBackup(i: Input, name: string, version: string)
    requires ValidInput(i) && BackupSecrets(i.service, i.secrets, i.aliases).Some?
    requires StampOf(BackupSecrets(i.service, i.secrets, i.aliases).value, name, version)
    ensures DependsOn(i, BackupObject, name) && Restarts(i.secrets, name, version)
  {
    var used := BackupSecrets(i.service, i.secrets, i.aliases).value;
    var k :| 0 <= k < |used| && used[k].autoRestart && used[k].name == name && used[k].version == version;
    assert used[k] == used[0] || used[k] == used[1] || used[k] == used[|used| - 1];
  }

  /** Nothing is restarted for any other secret: after a successful cycle every stamp on a
      deployment was there before, or is the current version of an auto-restart secret that the
      deployment depends on. */
  lemma CycleSaysOnly(w: World, i: Input, x: ObjectName, name: string)
    requires ValidInput(i) && RunCycle(w, i, false).Some?
    requires x.ServerObject? || x == MonitoringObject || x == BackupObject
    ensures var o, p := w.objects.deployments, RunCycle(w, i, false).value.objects.deployments;
            x in p && name in p[x].stamps ==>
              || (x in o && name in o[x].stamps && o[x].stamps[name] == p[x].stamps[name])
              || (DependsOn(i, x, name) && Restarts(i.secrets, name, p[x].stamps[name]))
  {
    var w1 := ReconcileZooKeeper(w, i.service, i.secrets, false).value;
    var w2 := ReconcileMonitoring(w1, i.service, i.secrets).value;
    var w3 := ReconcileBackup(w2, i.service, i.secrets, i.aliases).value;
    CycleFoundSecrets(w, i, false);
    hide ReconcileZooKeeper, ReconcileMonitoring, ReconcileBackup, StampOf, MonitoringSecrets, BackupSecrets,
         ValidInput, DependsOn, Restarts;
    MonitoringKeeps(w1, i.service, i.secrets);
    BackupKeeps(w2, i.service, i.secrets, i.aliases);
    var p := w3.objects.deployments;
    assert RunCycle(w, i, false).value.objects.deployments == p;
    if x in p && name in p[x].stamps {
      var version := p[x].stamps[name];
      match x {
        case ServerObject(id) =>
          OriginOfZooKeeper(w, i, false, id);
          UsedByServers(i, name, version);
        case MonitoringObject =>
          ZooKeeperLeaves(w, i.service, i.secrets, x);
          OriginOfMonitoring(w1, i);
          var used := MonitoringSecrets(i.service, i.secrets);
          if used.Some? && StampOf(used.value, name, version) {
            UsedByMonitoring(i, name, version);
          }
          NoMonitoring(w1, i);
        case BackupObject =>
          ZooKeeperLeaves(w, i.service, i.secrets, x);
          OriginOfBackup(w2, i);
          var used := BackupSecrets(i.service, i.secrets, i.aliases);
          if used.Some? && StampOf(used.value, name, version) {
            UsedByBackup(i, name, version);
          }
          NoBackup(w2, i);
      }
    }
  }

  lemma UsedByServers(i: Input, name: string, version: string)
    requires ValidInput(i) && i.service.zooKeeper.secretName in i.secrets
    ensures StampOf([i.secrets[i.service.zooKeeper.secretName]], name, version) ==>
              name == i.service.zooKeeper.secretName && Restarts(i.secrets, name, version)
    ensures forall id :: DependsOn(i, ServerObject(id), i.service.zooKeeper.secretName)
  {}

  lemma NoMonitoring(w: World, i: Input)
    ensures i.service.monitoring.None? ==> ReconcileMonitoring(w, i.service, i.secrets) == Some(w)
  {}

  lemma NoBackup(w: World, i: Input)
    ensures i.service.backup.None? ==> ReconcileBackup(w, i.service, i.secrets, i.aliases) == Some(w)
  {}
}
