/** One reconcile cycle with Vault off, as a function of the cluster, the operator's memory, the
    custom resource and the secrets; None when a cycle cannot succeed.
    (operator/controllers: zookeeper_reconciler.go, monitoring_reconciler.go,
    backupdaemon_reconciler.go, deployment_secret_restart.go, zookeeperservice_controller.go) */
module Cycle {
  import opened Bytes
  import opened Claims
  import opened Cluster

  // ---------- change detection ----------

  /** A missing entry reads as the empty string. */
  function VersionOf(versions: map<string, string>, name: string): string {
    if name in versions then versions[name] else ""
  }

  predicate VersionChanged(versions: map<string, string>, secret: Secret) {
    secret.name != "" && VersionOf(versions, secret.name) != secret.version
  }

  predicate Hashed(c: Caches, name: HashName, digest: Digest) {
    name in c.hashes && c.hashes[name] == digest
  }

  function Record(c: Caches, secrets: seq<Secret>, name: HashName, digest: Digest): Caches {
    Caches(RecordVersions(c.versions, secrets), c.hashes[name := digest])
  }

  function RecordVersions(versions: map<string, string>, secrets: seq<Secret>): map<string, string> {
    if secrets == [] then versions
    else
      var last := secrets[|secrets| - 1];
      RecordVersions(versions, secrets[..|secrets| - 1])[last.name := last.version]
  }

  // ---------- restart stamps ----------

  /** applyAutoRestartSecretAnnotations */
  function Stamp(stamps: map<string, string>, secrets: seq<Secret>): map<string, string> {
    if secrets == [] then stamps
    else
      var most, last := Stamp(stamps, secrets[..|secrets| - 1]), secrets[|secrets| - 1];
      if last.name != "" && last.autoRestart then most[last.name := last.version] else most
  }

  /** updateDeploymentSecretRestartAnnotations: no update unless a stamp changes. */
  function StampDeployment(o: Objects, name: ObjectName, secrets: seq<Secret>): Objects {
    if name !in o.deployments then o
    else
      var d := o.deployments[name];
      var stamps := Stamp(d.stamps, secrets);
      if stamps == d.stamps then o
      else o.(deployments := o.deployments[name := d.(stamps := stamps)], writes := o.writes + 1)
  }

  function PutDeployment(o: Objects, name: ObjectName, pod: Pod, secrets: seq<Secret>): Objects {
    o.(deployments := o.deployments[name := Deployment(1, pod, Stamp(map[], secrets))],
       writes := o.writes + 1)
  }

  // ---------- claims ----------

  function VisitClaim(o: Objects, c: ClaimName, g: GlobalSpec): Option<Objects> {
    var claims := Visit(o.claims, c, g.pvcAnnotations, o.recorded);
    if claims.None? then None else Some(o.(claims := claims.value))
  }

  /** A claim that is given must exist, and merging its own annotations into it does nothing. */
  function VisitVolume(o: Objects, v: Volume, g: GlobalSpec): Option<Objects> {
    match v
    case NoVolume => Some(o)
    case Unnamed => None
    case Existing(claim) => if NamedClaim(claim) in o.claims then Some(o) else None
    case Standalone(claim) => VisitClaim(o, NamedClaim(claim), g)
    case Managed(claim) => VisitClaim(o, NamedClaim(claim), g)
  }

  /** Any part of a cycle: claims only make progress, and the status is not yet written. */
  ghost predicate Advances(o: Objects, p: Objects, g: GlobalSpec) {
    p.recorded == o.recorded && Progress(o.claims, p.claims, g.pvcAnnotations, o.recorded)
  }

  lemma AdvancesTrans(o: Objects, p: Objects, q: Objects, g: GlobalSpec)
    requires Advances(o, p, g) && Advances(p, q, g)
    ensures Advances(o, q, g)
  {
    ProgressTrans(o.claims, p.claims, q.claims, g.pvcAnnotations, o.recorded);
  }

  lemma AdvancesSame(o: Objects, p: Objects, g: GlobalSpec)
    requires p.recorded == o.recorded && p.claims == o.claims
    ensures Advances(o, p, g)
  {
    ProgressSame(o.claims, g.pvcAnnotations, o.recorded);
  }

  // ---------- ZooKeeper ----------

  /** scaleDeployment(i, 0) for lo <= i <= hi. */
  function ScaleDown(o: Objects, lo: int, hi: int): Option<Objects>
    decreases hi - lo
  {
    if lo > hi then Some(o)
    else
      var most := ScaleDown(o, lo, hi - 1);
      var name := ServerObject(hi);
      if most.None? || name !in most.value.deployments then None
      else
        var p := most.value;
        Some(p.(deployments := p.deployments[name := p.deployments[name].(replicas := 0)],
                writes := p.writes + 1))
  }

  function PutServer(o: Objects, svc: Service, secret: Secret, id: int): Option<Objects> {
    var name, spec := ServerObject(id), Steady(svc.zooKeeper);
    var p := o.(services := o.services[name := ZooKeeperEndpoint(svc.global, spec, name)]);
    var q := if id in spec.storage then VisitClaim(p, ServerClaim(id), svc.global) else Some(p);
    if q.None? then None
    else Some(PutDeployment(q.value, name, ZooKeeperPod(svc.global, spec, id), [secret]))
  }

  function PutServers(o: Objects, svc: Service, secret: Secret, n: nat): Option<Objects> {
    if n == 0 then Some(o)
    else
      var most := PutServers(o, svc, secret, n - 1);
      if most.None? then None else PutServer(most.value, svc, secret, n)
  }

  function StampServers(o: Objects, secrets: seq<Secret>, n: nat): Objects {
    if n == 0 then o else StampDeployment(StampServers(o, secrets, n - 1), ServerObject(n), secrets)
  }

  function Replicas(svc: Service): nat {
    if svc.zooKeeper.replicas > 0 then svc.zooKeeper.replicas else 0
  }

  /** For ZooKeeper a standalone snapshot volume needs no claim. */
  function SnapshotVolume(svc: Service): Volume {
    if svc.zooKeeper.snapshots.Standalone? then NoVolume else svc.zooKeeper.snapshots
  }

  function PutServices(o: Objects, svc: Service): Objects {
    var spec := Steady(svc.zooKeeper);
    o.(services := o.services[ClientObject := ZooKeeperEndpoint(svc.global, spec, ClientObject)]
                             [DomainObject := ZooKeeperEndpoint(svc.global, spec, DomainObject)])
  }

  /** What the ZooKeeper reconciler does once its gate is open. */
  function ApplyZooKeeper(o: Objects, svc: Service, secret: Secret): Option<Objects> {
    var n := Replicas(svc);
    if n == 0 then Some(o)
    else
      var p := VisitVolume(o, SnapshotVolume(svc), svc.global);
      if p.None? then None
      else
        var q := ScaleDown(PutServices(p.value, svc), n + 1, |ActiveIds(o.deployments)|);
        if q.None? then None else PutServers(q.value, svc, secret, n)
  }

  predicate ZooKeeperChanged(c: Caches, svc: Service, secret: Secret) {
    !Hashed(c, ZooKeeperHash, OfZooKeeper(svc.zooKeeper)) ||
    !Hashed(c, GlobalHash, OfGlobal(svc.global)) ||
    VersionChanged(c.versions, secret)
  }

  /** `always` switches the gate off. */
  function ReconcileZooKeeper(w: World, svc: Service, secrets: Secrets, always: bool): Option<World> {
    if svc.zooKeeper.secretName !in secrets then None
    else
      var secret := secrets[svc.zooKeeper.secretName];
      var applied :=
        if always || ZooKeeperChanged(w.caches, svc, secret) then ApplyZooKeeper(w.objects, svc, secret)
        else Some(w.objects);
      if applied.None? then None
      else Some(World(StampServers(applied.value, [secret], Replicas(svc)),
                      Record(w.caches, [secret], ZooKeeperHash, OfZooKeeper(svc.zooKeeper))))
  }

  // ---------- Monitoring ----------

  /** The secrets of Monitoring: its own, then the Backup Daemon's if there is one. */
  function MonitoringSecrets(svc: Service, secrets: Secrets): Option<seq<Secret>> {
    if svc.monitoring.None? || svc.monitoring.value.secretName !in secrets then None
    else
      var own := secrets[svc.monitoring.value.secretName];
      if svc.backup.Some? && svc.backup.value.secretName != "" && svc.backup.value.secretName in secrets
      then Some([own, secrets[svc.backup.value.secretName]])
      else Some([own])
  }

  predicate AnyChanged(versions: map<string, string>, secrets: seq<Secret>) {
    exists i :: 0 <= i < |secrets| && VersionChanged(versions, secrets[i])
  }

  function ReconcileMonitoring(w: World, svc: Service, secrets: Secrets): Option<World> {
    if svc.monitoring.None? then Some(w)
    else
      var used := MonitoringSecrets(svc, secrets);
      if used.None? then None
      else
        var spec, o := svc.monitoring.value, w.objects;
        var applied :=
          if !Hashed(w.caches, MonitoringHash, OfMonitoring(spec)) ||
             !Hashed(w.caches, GlobalHash, OfGlobal(svc.global)) || AnyChanged(w.caches.versions, used.value)
          then PutDeployment(o.(services := o.services[MonitoringObject := MonitoringEndpoint(svc.global, spec)]),
                             MonitoringObject, MonitoringPod(svc.global, spec, SeenByMonitoring(svc.backup)),
                             used.value)
          else o;
        Some(World(StampDeployment(applied, MonitoringObject, used.value),
                   Record(w.caches, used.value, MonitoringHash, OfMonitoring(spec))))
  }

  // ---------- Backup Daemon ----------

  /** The Backup Daemon's own secret, the S3 secret if configured and there, and the S3 aliases
      secret, which may be missing. */
  function BackupSecrets(svc: Service, secrets: Secrets, aliases: Option<Secret>): Option<seq<Secret>> {
    if svc.backup.None? || svc.backup.value.secretName !in secrets then None
    else
      var spec := svc.backup.value;
      Some([secrets[spec.secretName]] +
           (if spec.s3Enabled && spec.s3Secret != "" && spec.s3Secret in secrets
            then [secrets[spec.s3Secret]] else []) +
           [if aliases.Some? then aliases.value else NO_SECRET])
  }

  function ReconcileBackup(w: World, svc: Service, secrets: Secrets, aliases: Option<Secret>): Option<World> {
    if svc.backup.None? then Some(w)
    else
      var used := BackupSecrets(svc, secrets, aliases);
      if used.None? then None
      else
        var spec, o := svc.backup.value, w.objects;
        var open := !Hashed(w.caches, BackupHash, OfBackup(spec)) ||
                    !Hashed(w.caches, GlobalHash, OfGlobal(svc.global)) || AnyChanged(w.caches.versions, used.value);
        var visited := if open then VisitVolume(o, spec.storage, svc.global) else Some(o);
        if visited.None? then None
        else
          var p := visited.value;
          var applied :=
            if open
            then PutDeployment(p.(services := p.services[BackupObject := BackupEndpoint(svc.global, spec)]),
                               BackupObject, BackupPod(svc.global, spec, aliases.Some?), used.value)
            else p;
          Some(World(StampDeployment(applied, BackupObject, used.value),
                     Record(w.caches, used.value, BackupHash, OfBackup(spec))))
  }

  // ---------- the cycle ----------

  /** What a cycle is given. */
  datatype Input = Input(service: Service, secrets: Secrets, aliases: Option<Secret>)

  ghost predicate ValidInput(i: Input) {
    ValidSecrets(i.secrets) &&
    (i.aliases.Some? ==> i.aliases.value.name in i.secrets && i.secrets[i.aliases.value.name] == i.aliases.value)
  }

  function Finish(w: World, svc: Service): World {
    World(w.objects.(recorded := svc.global.pvcAnnotations),
          w.caches.(hashes := w.caches.hashes[SpecHash := OfService(svc)][GlobalHash := OfGlobal(svc.global)]))
  }

  function RunCycle(w: World, i: Input, always: bool): Option<World> {
    var w1 := ReconcileZooKeeper(w, i.service, i.secrets, always);
    if w1.None? then None
    else
      var w2 := ReconcileMonitoring(w1.value, i.service, i.secrets);
      if w2.None? then None
      else
        var w3 := ReconcileBackup(w2.value, i.service, i.secrets, i.aliases);
        if w3.None? then None else Some(Finish(w3.value, i.service))
  }
}
