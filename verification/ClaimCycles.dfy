/** The claims in reconcile cycles: cycles are steps of the claims' runs, so that what is proved
    of those holds of every run of the operator. */
module ClaimCycles {
  import opened Bytes
  import opened Claims
  import opened Cluster
  import opened Cycle
  import opened RestartDelivery

  /** Merging once more would change nothing. */
  ghost predicate Merged(o: Objects, c: ClaimName, g: GlobalSpec) {
    c in o.claims && Merge(o.claims[c], g.pvcAnnotations, o.recorded) == Some(o.claims[c])
  }

  /** What is merged stays merged, whoever visits it again. */
  lemma MergedStays(o: Objects, p: Objects, g: GlobalSpec, c: ClaimName)
    requires Advances(o, p, g) && Merged(o, c, g)
    ensures Merged(p, c, g)
  {
    assert ClaimProgress(o.claims, p.claims, c, g.pvcAnnotations, o.recorded);
  }

  lemma VisitMerges(o: Objects, c: ClaimName, g: GlobalSpec)
    ensures var r := VisitClaim(o, c, g);
            r.Some? ==> Advances(o, r.value, g) && Merged(r.value, c, g)
  {
    var r := VisitClaim(o, c, g);
    if r.Some? {
      VisitProgress(o.claims, c, g.pvcAnnotations, o.recorded);
      if c in o.claims {
        MergeTwice(o.claims[c], g.pvcAnnotations, o.recorded);
      } else {
        MergeWanted(g.pvcAnnotations, o.recorded);
      }
    }
  }

  lemma VolumeAdvances(o: Objects, v: Volume, g: GlobalSpec)
    ensures var r := VisitVolume(o, v, g);
            r.Some? ==> Advances(o, r.value, g) &&
                        (v.Managed? || v.Standalone? ==> Merged(r.value, NamedClaim(v.claim), g))
  {
    hide Visit;
    AdvancesSame(o, o, g);
    if v.Managed? || v.Standalone? {
      VisitMerges(o, NamedClaim(v.claim), g);
    }
  }

  lemma {:induction false} ScaleDownAdvances(o: Objects, lo: int, hi: int)
    ensures var r := ScaleDown(o, lo, hi);
            r.Some? ==> r.value.recorded == o.recorded && r.value.claims == o.claims
    decreases hi - lo
  {
    if lo <= hi {
      ScaleDownAdvances(o, lo, hi - 1);
    }
  }

  lemma PutServerAdvances(o: Objects, svc: Service, secret: Secret, id: int)
    ensures var r := PutServer(o, svc, secret, id);
            r.Some? ==> Advances(o, r.value, svc.global) &&
                        (id in svc.zooKeeper.storage ==> Merged(r.value, ServerClaim(id), svc.global))
  {
    hide Visit, Stamp, Progress;
    var name, spec := ServerObject(id), Steady(svc.zooKeeper);
    var p := o.(services := o.services[name := ZooKeeperEndpoint(svc.global, spec, name)]);
    AdvancesSame(o, p, svc.global);
    if id in spec.storage && VisitClaim(p, ServerClaim(id), svc.global).Some? {
      VisitMerges(p, ServerClaim(id), svc.global);
      AdvancesTrans(o, p, VisitClaim(p, ServerClaim(id), svc.global).value, svc.global);
    }
  }

  lemma {:induction false} PutServersAdvances(o: Objects, svc: Service, secret: Secret, n: nat)
    ensures var r := PutServers(o, svc, secret, n);
            r.Some? ==> Advances(o, r.value, svc.global) &&
                        forall i :: 1 <= i <= n && i in svc.zooKeeper.storage ==>
                                      Merged(r.value, ServerClaim(i), svc.global)
  {
    hide PutServer, Progress, Merge;
    if n == 0 {
      AdvancesSame(o, o, svc.global);
    } else {
      PutServersAdvances(o, svc, secret, n - 1);
      var most := PutServers(o, svc, secret, n - 1);
      if most.Some? && PutServer(most.value, svc, secret, n).Some? {
        PutServerAdvances(most.value, svc, secret, n);
        var p := PutServer(most.value, svc, secret, n).value;
        AdvancesTrans(o, most.value, p, svc.global);
        forall i | 1 <= i < n && i in svc.zooKeeper.storage ensures Merged(p, ServerClaim(i), svc.global) {
          MergedStays(most.value, p, svc.global, ServerClaim(i));
        }
      }
    }
  }

  /** The claims the ZooKeeper component visits. */
  ghost function ZooKeeperClaims(svc: Service): set<ClaimName> {
    if Replicas(svc) == 0 then {}
    else
      (set i | i in FirstIds(Replicas(svc)) && i in svc.zooKeeper.storage :: ServerClaim(i)) +
      (if svc.zooKeeper.snapshots.Managed? then {NamedClaim(svc.zooKeeper.snapshots.claim)} else {})
  }

  lemma ApplyAdvances(o: Objects, svc: Service, secret: Secret)
    ensures var r := ApplyZooKeeper(o, svc, secret);
            r.Some? ==> Advances(o, r.value, svc.global) &&
                        forall c :: c in ZooKeeperClaims(svc) ==> Merged(r.value, c, svc.global)
  {
    hide VisitVolume, ScaleDown, PutServers, ActiveIds, Progress, Merge, FirstIds;
    var g, n, v := svc.global, Replicas(svc), SnapshotVolume(svc);
    if n == 0 {
      AdvancesSame(o, o, g);
    } else if ApplyZooKeeper(o, svc, secret).Some? {
      VolumeAdvances(o, v, g);
      var p := VisitVolume(o, v, g).value;
      var q := PutServices(p, svc);
      var count := |ActiveIds(o.deployments)|;
      ScaleDownAdvances(q, n + 1, count);
      var r := ScaleDown(q, n + 1, count).value;
      PutServersAdvances(r, svc, secret, n);
      var s := PutServers(r, svc, secret, n).value;
      AdvancesSame(p, r, g);
      AdvancesTrans(o, p, r, g);
      AdvancesTrans(o, r, s, g);
      if v.Managed? {
        MergedStays(p, r, g, NamedClaim(v.claim));
        MergedStays(r, s, g, NamedClaim(v.claim));
      }
    }
  }

  lemma {:induction false} StampServersKeep(o: Objects, secrets: seq<Secret>, n: nat)
    ensures var p := StampServers(o, secrets, n);
            p.recorded == o.recorded && p.claims == o.claims
  {
    hide Stamp;
    if n > 0 {
      StampServersKeep(o, secrets, n - 1);
    }
  }

  lemma MonitoringAdvances(w: World, svc: Service, secrets: Secrets)
    ensures var r := ReconcileMonitoring(w, svc, secrets);
            r.Some? ==> Advances(w.objects, r.value.objects, svc.global)
  {
    hide Stamp, AnyChanged, MonitoringSecrets, Record, Progress;
    var r := ReconcileMonitoring(w, svc, secrets);
    if r.Some? {
      AdvancesSame(w.objects, r.value.objects, svc.global);
    }
  }

  lemma BackupAdvances(w: World, svc: Service, secrets: Secrets, aliases: Option<Secret>)
    ensures var r := ReconcileBackup(w, svc, secrets, aliases);
            r.Some? ==> Advances(w.objects, r.value.objects, svc.global)
  {
    hide Stamp, AnyChanged, BackupSecrets, Record, Progress, VisitVolume;
    var r := ReconcileBackup(w, svc, secrets, aliases);
    AdvancesSame(w.objects, w.objects, svc.global);
    if svc.backup.Some? && r.Some? {
      VolumeAdvances(w.objects, svc.backup.value.storage, svc.global);
      if r.value.objects.claims == w.objects.claims {
        AdvancesSame(w.objects, r.value.objects, svc.global);
      } else {
        var p := VisitVolume(w.objects, svc.backup.value.storage, svc.global).value;
        AdvancesSame(p, r.value.objects, svc.global);
        AdvancesTrans(w.objects, p, r.value.objects, svc.global);
      }
    }
  }

  /** The claim the Backup Daemon visits, when the operator makes it. */
  ghost function BackupClaims(svc: Service): set<ClaimName> {
    if svc.backup.None? then {}
    else
      var v := svc.backup.value.storage;
      if v.Managed? || v.Standalone? then {NamedClaim(v.claim)} else {}
  }

  /** All claims that a cycle visits and the operator makes. */
  ghost function ComponentClaims(svc: Service): set<ClaimName> {
    ZooKeeperClaims(svc) + BackupClaims(svc)
  }

  ghost predicate AllThere(o: Objects, claims: set<ClaimName>) {
    forall c :: c in claims ==> c in o.claims
  }

  ghost predicate AllMerged(o: Objects, claims: set<ClaimName>, g: GlobalSpec) {
    forall c :: c in claims ==> Merged(o, c, g)
  }

  /** What must hold for a shut gate to be as good as a visit. */
  ghost predicate NothingToMerge(o: Objects, g: GlobalSpec, claims: set<ClaimName>) {
    o.recorded == g.pvcAnnotations && AllThere(o, claims)
  }

  /** A gate can be shut only when both of these are remembered. */
  predicate MayShut(c: Caches, name: HashName, digest: Digest, g: GlobalSpec) {
    Hashed(c, name, digest) && Hashed(c, GlobalHash, OfGlobal(g))
  }

  ghost predicate ZooKeeperReady(w: World, svc: Service) {
    MayShut(w.caches, ZooKeeperHash, OfZooKeeper(svc.zooKeeper), svc.global) ==>
      NothingToMerge(w.objects, svc.global, ZooKeeperClaims(svc))
  }

  ghost predicate BackupReady(w: World, svc: Service) {
    svc.backup.Some? && MayShut(w.caches, BackupHash, OfBackup(svc.backup.value), svc.global) ==>
      NothingToMerge(w.objects, svc.global, BackupClaims(svc))
  }

  lemma ZooKeeperMerges(w: World, svc: Service, secrets: Secrets)
    requires ZooKeeperReady(w, svc)
    ensures var r := ReconcileZooKeeper(w, svc, secrets, false);
            r.Some? ==> Advances(w.objects, r.value.objects, svc.global) &&
                        AllMerged(r.value.objects, ZooKeeperClaims(svc), svc.global)
  {
    hide ApplyZooKeeper, StampServers, Progress, ZooKeeperClaims, Record;
    var r := ReconcileZooKeeper(w, svc, secrets, false);
    if r.Some? {
      var secret := secrets[svc.zooKeeper.secretName];
      var p := w.objects;
      AdvancesSame(p, p, svc.global);
      if ZooKeeperChanged(w.caches, svc, secret) {
        ApplyAdvances(w.objects, svc, secret);
        p := ApplyZooKeeper(w.objects, svc, secret).value;
      }
      StampServersKeep(p, [secret], Replicas(svc));
      AdvancesSame(p, r.value.objects, svc.global);
      AdvancesTrans(w.objects, p, r.value.objects, svc.global);
    }
  }

  /** The claims after the Backup Daemon: as after a visit if the gate was open, else as before. */
  lemma BackupVisits(w: World, svc: Service, secrets: Secrets, aliases: Option<Secret>)
    ensures var r := ReconcileBackup(w, svc, secrets, aliases);
            r.Some? && svc.backup.Some? ==>
              var p := VisitVolume(w.objects, svc.backup.value.storage, svc.global);
              && r.value.objects.recorded == w.objects.recorded
              && ((p.Some? && r.value.objects.claims == p.value.claims) ||
                  (MayShut(w.caches, BackupHash, OfBackup(svc.backup.value), svc.global) &&
                   r.value.objects.claims == w.objects.claims))
  {
    if svc.backup.Some? {
      VolumeKeepsStatus(w.objects, svc.backup.value.storage, svc.global);
    }
    hide Stamp, AnyChanged, BackupSecrets, Record, VisitVolume;
  }

  lemma VolumeKeepsStatus(o: Objects, v: Volume, g: GlobalSpec)
    ensures var r := VisitVolume(o, v, g);
            r.Some? ==> r.value.recorded == o.recorded
  {
    hide Visit;
  }

  lemma BackupMerges(w: World, svc: Service, secrets: Secrets, aliases: Option<Secret>)
    requires BackupReady(w, svc)
    ensures var r := ReconcileBackup(w, svc, secrets, aliases);
            r.Some? ==> AllMerged(r.value.objects, BackupClaims(svc), svc.global)
  {
    BackupVisits(w, svc, secrets, aliases);
    hide ReconcileBackup, VisitVolume;
    if svc.backup.Some? {
      VolumeAdvances(w.objects, svc.backup.value.storage, svc.global);
    }
  }

  /** A successful cycle merges every claim the operator makes and records the wanted set: it is
      a step of the runs over which claims stay exact. */
  lemma CycleIsClaimStep(w: World, i: Input, keys: set<string>)
    requires RunCycle(w, i, false).Some? && i.service.global.pvcAnnotations.Keys <= keys
    requires ZooKeeperReady(w, i.service) && BackupReady(w, i.service)
    ensures var o, p := w.objects, RunCycle(w, i, false).value.objects;
            Claims.Step(State(o.claims, o.recorded), Succeeded(i.service.global.pvcAnnotations),
                        State(p.claims, p.recorded), ComponentClaims(i.service), keys)
  {
    var g := i.service.global;
    ZooKeeperMerges(w, i.service, i.secrets);
    var w1 := ReconcileZooKeeper(w, i.service, i.secrets, false).value;
    ZooKeeperGate(w, i, w1);
    MonitoringAdvances(w1, i.service, i.secrets);
    var w2 := ReconcileMonitoring(w1, i.service, i.secrets).value;
    MonitoringGate(w1, i, w2);
    hide ReconcileZooKeeper, ReconcileMonitoring, ReconcileBackup, Progress, ZooKeeperClaims, BackupClaims, Merge,
         AllThere, Merged;
    AdvancesTrans(w.objects, w1.objects, w2.objects, g);
    AllStay(w.objects, w2.objects, g, BackupClaims(i.service));
    BackupMerges(w2, i.service, i.secrets, i.aliases);
    BackupAdvances(w2, i.service, i.secrets, i.aliases);
    var w3 := ReconcileBackup(w2, i.service, i.secrets, i.aliases).value;
    AdvancesTrans(w.objects, w2.objects, w3.objects, g);
    AdvancesTrans(w1.objects, w2.objects, w3.objects, g);
    forall c | c in ZooKeeperClaims(i.service) ensures Merged(w3.objects, c, g) {
      MergedStays(w1.objects, w3.objects, g, c);
    }
    VisitedAre(w3.objects, i.service, w.objects.recorded);
  }

  lemma VisitedAre(o: Objects, svc: Service, recorded: Annotations)
    requires AllMerged(o, ZooKeeperClaims(svc), svc.global) && AllMerged(o, BackupClaims(svc), svc.global)
    requires o.recorded == recorded
    ensures Visited(o.claims, ComponentClaims(svc), svc.global.pvcAnnotations, recorded)
  {
    hide ZooKeeperClaims, BackupClaims, Merge;
  }

  lemma AllStay(o: Objects, p: Objects, g: GlobalSpec, claims: set<ClaimName>)
    requires Advances(o, p, g)
    ensures AllThere(o, claims) ==> AllThere(p, claims)
  {
    forall c | c in o.claims ensures c in p.claims {
      assert ClaimProgress(o.claims, p.claims, c, g.pvcAnnotations, o.recorded);
    }
  }

  // ---------- what the memory says ----------

  /** What `v` remembers beyond `w` of a component, it remembers with the claims in place. */
  ghost predicate Backed(w: World, v: World, svc: Service) {
    && (forall x :: Hashed(v.caches, ZooKeeperHash, x) ==>
          Hashed(w.caches, ZooKeeperHash, x) ||
          (x == OfZooKeeper(svc.zooKeeper) && AllThere(v.objects, ZooKeeperClaims(svc))))
    && (forall x :: Hashed(v.caches, BackupHash, x) ==>
          Hashed(w.caches, BackupHash, x) ||
          (svc.backup.Some? && x == OfBackup(svc.backup.value) && AllThere(v.objects, BackupClaims(svc))))
  }

  ghost predicate SameGlobal(c: Caches, d: Caches) {
    forall x :: Hashed(c, GlobalHash, x) <==> Hashed(d, GlobalHash, x)
  }

  lemma BackedTrans(w: World, v: World, u: World, svc: Service)
    requires Backed(w, v, svc) && Backed(v, u, svc) && Advances(v.objects, u.objects, svc.global)
    ensures Backed(w, u, svc)
  {
    hide ZooKeeperClaims, BackupClaims, AllThere, Progress;
    AllStay(v.objects, u.objects, svc.global, ZooKeeperClaims(svc));
    AllStay(v.objects, u.objects, svc.global, BackupClaims(svc));
  }

  /** The ZooKeeper component remembers its specification only once its claims are there. */
  lemma ZooKeeperGate(w: World, i: Input, v: World)
    requires ReconcileZooKeeper(w, i.service, i.secrets, false) == Some(v)
    ensures Backed(w, v, i.service) && SameGlobal(w.caches, v.caches)
    ensures forall x :: Hashed(w.caches, BackupHash, x) <==> Hashed(v.caches, BackupHash, x)
  {
    hide ApplyZooKeeper, StampServers, ZooKeeperClaims, BackupClaims, RecordVersions, Merge;
    var svc := i.service;
    var secret := i.secrets[svc.zooKeeper.secretName];
    if ZooKeeperChanged(w.caches, svc, secret) {
      ApplyAdvances(w.objects, svc, secret);
      StampServersKeep(ApplyZooKeeper(w.objects, svc, secret).value, [secret], Replicas(svc));
    }
  }

  lemma MonitoringGate(w: World, i: Input, v: World)
    requires ReconcileMonitoring(w, i.service, i.secrets) == Some(v)
    ensures Backed(w, v, i.service) && SameGlobal(w.caches, v.caches)
    ensures forall x :: Hashed(w.caches, BackupHash, x) <==> Hashed(v.caches, BackupHash, x)
  {
    hide StampDeployment, PutDeployment, RecordVersions, AnyChanged, MonitoringSecrets;
  }

  /** So does the Backup Daemon. */
  lemma BackupGate(w: World, i: Input, v: World)
    requires ReconcileBackup(w, i.service, i.secrets, i.aliases) == Some(v)
    ensures Backed(w, v, i.service) && SameGlobal(w.caches, v.caches)
  {
    BackupVisits(w, i.service, i.secrets, i.aliases);
    if i.service.backup.Some? {
      VolumeAdvances(w.objects, i.service.backup.value.storage, i.service.global);
    }
    hide StampDeployment, PutDeployment, RecordVersions, AnyChanged, VisitVolume, BackupSecrets, Merge, ZooKeeperClaims;
  }

  // ---------- runs of the operator ----------

  /** What a failed cycle can leave: some claims merged, the new set recorded only if all
      components were through, the global hash as it was, and a component's hash recorded only
      once its claims are there. */
  ghost predicate FailedCycle(w: World, i: Input, v: World) {
    && Progress(w.objects.claims, v.objects.claims, i.service.global.pvcAnnotations, w.objects.recorded)
    && (v.objects.recorded == w.objects.recorded ||
        (RunCycle(w, i, false).Some? && v.objects == RunCycle(w, i, false).value.objects))
    && SameGlobal(w.caches, v.caches) && Backed(w, v, i.service)
  }

  lemma FailsAtOnce(w: World, i: Input, v: World)
    requires v.caches == w.caches && Advances(w.objects, v.objects, i.service.global)
    ensures FailedCycle(w, i, v)
  {}

  lemma FailsLater(w: World, i: Input, v: World, u: World)
    requires FailedCycle(w, i, v) && v.objects.recorded == w.objects.recorded
    requires SameGlobal(v.caches, u.caches) && Backed(v, u, i.service)
    requires Advances(v.objects, u.objects, i.service.global)
    ensures FailedCycle(w, i, u)
  {
    hide RunCycle, Backed, Progress;
    AdvancesTrans(w.objects, v.objects, u.objects, i.service.global);
    BackedTrans(w, v, u, i.service);
  }

  /** The operator restarts, others edit their annotations, or a cycle succeeds or fails. */
  datatype OperatorEvent = Restarted | Edited | Cycled(input: Input, ok: bool)

  ghost predicate OperatorStep(w: World, e: OperatorEvent, v: World, keys: set<string>) {
    match e
    case Restarted => v == w.(caches := EMPTY_CACHES)
    case Edited =>
      v == w.(objects := w.objects.(claims := v.objects.claims)) &&
      v.objects.claims.Keys == w.objects.claims.Keys &&
      forall c :: c in w.objects.claims ==> Own(v.objects.claims[c], keys) == Own(w.objects.claims[c], keys)
    case Cycled(i, ok) =>
      && i.service.global.pvcAnnotations.Keys <= keys
      && if ok then RunCycle(w, i, false) == Some(v) else FailedCycle(w, i, v)
  }

  /** How an event looks to the claims. */
  function ToClaims(e: OperatorEvent): Claims.Event {
    match e
    case Cycled(i, ok) =>
      if ok then Succeeded(i.service.global.pvcAnnotations) else Failed(i.service.global.pvcAnnotations)
    case _ => Others
  }

  ghost predicate VisitsAlways(e: OperatorEvent, visited: set<ClaimName>) {
    e.Cycled? ==> visited <= ComponentClaims(e.input.service)
  }

  /** What the memory promises, a cycle with the set `pending` having perhaps failed. */
  ghost predicate Promises(w: World, pending: Option<Annotations>) {
    && (forall svc: Service :: Hashed(w.caches, ZooKeeperHash, OfZooKeeper(svc.zooKeeper)) ==>
          AllThere(w.objects, ZooKeeperClaims(svc)))
    && (forall svc: Service :: svc.backup.Some? && Hashed(w.caches, BackupHash, OfBackup(svc.backup.value)) ==>
          AllThere(w.objects, BackupClaims(svc)))
    && (forall g :: Hashed(w.caches, GlobalHash, OfGlobal(g)) ==>
          w.objects.recorded == g.pvcAnnotations || pending == Some(w.objects.recorded))
  }

  lemma ClaimsOfSpec(a: Service, b: Service)
    ensures a.zooKeeper == b.zooKeeper ==> ZooKeeperClaims(a) == ZooKeeperClaims(b)
    ensures a.backup == b.backup ==> BackupClaims(a) == BackupClaims(b)
  {}

  function ClaimState(w: World): Claims.State {
    State(w.objects.claims, w.objects.recorded)
  }

  /** Neither gate ever hides a merge that is due. */
  lemma GatesHideNothing(w: World, i: Input, pending: Option<Annotations>)
    requires Promises(w, pending)
    requires pending.Some? ==> pending.value == i.service.global.pvcAnnotations
    ensures ZooKeeperReady(w, i.service) && BackupReady(w, i.service)
  {
    hide ZooKeeperClaims, BackupClaims, AllThere;
  }

  /** The promises about claims outlive any cycle, successful or not. */
  lemma ClaimPromises(w: World, v: World, svc: Service, pending: Option<Annotations>, s: Service)
    requires Promises(w, pending) && Backed(w, v, svc)
    requires Progress(w.objects.claims, v.objects.claims, svc.global.pvcAnnotations, w.objects.recorded)
    ensures Hashed(v.caches, ZooKeeperHash, OfZooKeeper(s.zooKeeper)) ==> AllThere(v.objects, ZooKeeperClaims(s))
    ensures s.backup.Some? && Hashed(v.caches, BackupHash, OfBackup(s.backup.value)) ==>
              AllThere(v.objects, BackupClaims(s))
  {
    ClaimsOfSpec(s, svc);
    StillThere(w.objects, v.objects, svc.global, ZooKeeperClaims(s));
    StillThere(w.objects, v.objects, svc.global, BackupClaims(s));
    hide ZooKeeperClaims, BackupClaims, AllThere, Progress;
  }

  lemma StillThere(o: Objects, p: Objects, g: GlobalSpec, claims: set<ClaimName>)
    requires Progress(o.claims, p.claims, g.pvcAnnotations, o.recorded)
    ensures AllThere(o, claims) ==> AllThere(p, claims)
  {
    AllStay(o, p.(recorded := o.recorded), g, claims);
  }

  /** What a successful cycle remembers, the global section aside. */
  lemma CycleBacked(w: World, i: Input)
    requires RunCycle(w, i, false).Some?
    requires ZooKeeperReady(w, i.service)
    ensures Backed(w, RunCycle(w, i, false).value, i.service)
  {
    var svc := i.service;
    ZooKeeperMerges(w, svc, i.secrets);
    var w1 := ReconcileZooKeeper(w, svc, i.secrets, false).value;
    ZooKeeperGate(w, i, w1);
    MonitoringAdvances(w1, svc, i.secrets);
    var w2 := ReconcileMonitoring(w1, svc, i.secrets).value;
    MonitoringGate(w1, i, w2);
    BackupAdvances(w2, svc, i.secrets, i.aliases);
    var w3 := ReconcileBackup(w2, svc, i.secrets, i.aliases).value;
    BackupGate(w2, i, w3);
    hide ReconcileZooKeeper, ReconcileMonitoring, ReconcileBackup, Backed, Progress;
    BackedTrans(w, w1, w2, svc);
    BackedTrans(w, w2, w3, svc);
    FinishBacked(w, w3, svc);
  }

  lemma FinishBacked(w: World, v: World, svc: Service)
    requires Backed(w, v, svc)
    ensures Backed(w, Finish(v, svc), svc)
  {
    hide ZooKeeperClaims, BackupClaims;
  }

  lemma SuccessIsClaimStep(w: World, i: Input, v: World, pending: Option<Annotations>,
                           visited: set<ClaimName>, keys: set<string>)
    requires Promises(w, pending) && OperatorStep(w, Cycled(i, true), v, keys)
    requires visited <= ComponentClaims(i.service)
    requires pending.Some? ==> pending.value == i.service.global.pvcAnnotations
    ensures Claims.Step(ClaimState(w), ToClaims(Cycled(i, true)), ClaimState(v), visited, keys)
    ensures Promises(v, None)
  {
    GatesHideNothing(w, i, pending);
    CycleIsClaimStep(w, i, keys);
    CycleBacked(w, i);
    MemoryAfter(w, i, false);
    hide RunCycle, Progress, ComponentClaims, Backed, ZooKeeperClaims, BackupClaims, AllThere, RecordVersions,
         ZooKeeperReady, BackupReady, Merge;
    forall s: Service
      ensures Hashed(v.caches, ZooKeeperHash, OfZooKeeper(s.zooKeeper)) ==> AllThere(v.objects, ZooKeeperClaims(s))
      ensures s.backup.Some? && Hashed(v.caches, BackupHash, OfBackup(s.backup.value)) ==>
                AllThere(v.objects, BackupClaims(s))
    {
      ClaimPromises(w, v, i.service, pending, s);
    }
  }

  lemma FailureIsClaimStep(w: World, i: Input, v: World, pending: Option<Annotations>,
                           visited: set<ClaimName>, keys: set<string>)
    requires Promises(w, pending) && OperatorStep(w, Cycled(i, false), v, keys)
    requires visited <= ComponentClaims(i.service)
    requires pending.Some? ==> pending.value == i.service.global.pvcAnnotations
    ensures Claims.Step(ClaimState(w), ToClaims(Cycled(i, false)), ClaimState(v), visited, keys)
    ensures Promises(v, Some(i.service.global.pvcAnnotations))
  {
    hide RunCycle, Progress, ComponentClaims, Merge, Backed, ZooKeeperReady, BackupReady, ZooKeeperClaims, BackupClaims,
         AllThere;
    if v.objects.recorded != w.objects.recorded {
      GatesHideNothing(w, i, pending);
      CycleIsClaimStep(w, i, keys);
    }
    forall s: Service
      ensures Hashed(v.caches, ZooKeeperHash, OfZooKeeper(s.zooKeeper)) ==> AllThere(v.objects, ZooKeeperClaims(s))
      ensures s.backup.Some? && Hashed(v.caches, BackupHash, OfBackup(s.backup.value)) ==>
                AllThere(v.objects, BackupClaims(s))
    {
      ClaimPromises(w, v, i.service, pending, s);
    }
  }

  /** A run of the operator: worlds, and the event between each two. */
  ghost predicate OperatorRun(worlds: seq<World>, events: seq<OperatorEvent>, visited: set<ClaimName>,
                              keys: set<string>)
  {
    |worlds| == |events| + 1 &&
    forall k :: 0 <= k < |events| ==>
                  OperatorStep(worlds[k], events[k], worlds[k + 1], keys) && VisitsAlways(events[k], visited)
  }

  function AllToClaims(events: seq<OperatorEvent>): (r: seq<Claims.Event>)
    ensures |r| == |events| && forall k :: 0 <= k < |r| ==> r[k] == ToClaims(events[k])
  {
    seq(|events|, k requires 0 <= k < |events| => ToClaims(events[k]))
  }

  function ClaimStates(worlds: seq<World>): (r: seq<Claims.State>)
    ensures |r| == |worlds| && forall k :: 0 <= k < |r| ==> r[k] == ClaimState(worlds[k])
  {
    seq(|worlds|, k requires 0 <= k < |worlds| => ClaimState(worlds[k]))
  }

  /** Every run of the operator in which wanted sets are retried is a run of the claims. */
  lemma {:induction false} OperatorRunIsClaimRun(worlds: seq<World>, events: seq<OperatorEvent>,
                                                 visited: set<ClaimName>, keys: set<string>)
    requires OperatorRun(worlds, events, visited, keys) && Retried(AllToClaims(events))
    requires worlds[0].caches == EMPTY_CACHES
    ensures Claims.Run(ClaimStates(worlds), AllToClaims(events), visited, keys)
    ensures Promises(worlds[|events|], Pending(AllToClaims(events)))
    decreases |events|
  {
    hide OperatorStep, Claims.Step, Promises, VisitsAlways;
    if events == [] {
      EmptyPromises(worlds[0]);
    } else {
      var last := |events| - 1;
      var most, before := events[..last], worlds[..last + 1];
      var es := AllToClaims(events);
      assert AllToClaims(most) == es[..last];
      assert OperatorRun(before, most, visited, keys) by {
        forall k | 0 <= k < |most|
          ensures OperatorStep(before[k], most[k], before[k + 1], keys) && VisitsAlways(most[k], visited)
        {
          assert OperatorStep(worlds[k], events[k], worlds[k + 1], keys);
        }
      }
      RetriedPrefix(es);
      OperatorRunIsClaimRun(before, most, visited, keys);
      var pending := Pending(es[..last]);
      assert !es[last].Others? && pending.Some? ==> pending.value == es[last].wanted by {
        if !es[last].Others? && pending.Some? { PendingIsNext(es, last); }
      }
      StepIsClaimStep(worlds[last], events[last], worlds[last + 1], pending, visited, keys);
      var states := ClaimStates(worlds);
      forall k | 0 <= k < |es| ensures Claims.Step(states[k], es[k], states[k + 1], visited, keys) {
        if k < last {
          assert Claims.Step(ClaimStates(before)[k], AllToClaims(most)[k], ClaimStates(before)[k + 1], visited, keys);
        }
      }
    }
  }

  lemma EmptyPromises(w: World)
    requires w.caches == EMPTY_CACHES
    ensures Promises(w, None)
  {}

  ghost function PendingAfter(e: OperatorEvent, pending: Option<Annotations>): Option<Annotations> {
    match ToClaims(e)
    case Others => pending
    case Failed(wanted) => Some(wanted)
    case Succeeded(_) => None
  }

  lemma StepIsClaimStep(w: World, e: OperatorEvent, v: World, pending: Option<Annotations>,
                        visited: set<ClaimName>, keys: set<string>)
    requires Promises(w, pending) && OperatorStep(w, e, v, keys) && VisitsAlways(e, visited)
    requires !ToClaims(e).Others? && pending.Some? ==> pending.value == ToClaims(e).wanted
    ensures Claims.Step(ClaimState(w), ToClaims(e), ClaimState(v), visited, keys)
    ensures Promises(v, PendingAfter(e, pending))
  {
    match e {
      case Cycled(i, ok) =>
        if ok {
          SuccessIsClaimStep(w, i, v, pending, visited, keys);
        } else {
          FailureIsClaimStep(w, i, v, pending, visited, keys);
        }
      case _ =>
    }
  }

  /** The operator's promise about claims: from a start with empty memory, over every run of
      restarts, foreign edits, and successful and failed cycles in which each wanted set is
      retried until it succeeds, a claim that the cycles visit ends each successful cycle with
      exactly the wanted set beside what others put there. */
  lemma ClaimsStayExact(worlds: seq<World>, events: seq<OperatorEvent>, visited: set<ClaimName>,
                        keys: set<string>, c: ClaimName)
    requires OperatorRun(worlds, events, visited, keys) && Retried(AllToClaims(events))
    requires worlds[0].caches == EMPTY_CACHES && worlds[0].objects.recorded.Keys <= keys
    requires c in visited && Holds(ClaimState(worlds[0]), None, c, keys)
    requires events != [] && events[|events| - 1].Cycled? && events[|events| - 1].ok
    ensures var before, after := worlds[|events| - 1].objects.claims, worlds[|events|].objects.claims;
            var others := if c in before then Foreign(before[c], keys) else map[];
            c in after && after[c] == others + events[|events| - 1].input.service.global.pvcAnnotations
  {
    OperatorRunIsClaimRun(worlds, events, visited, keys);
    hide OperatorRun, Retried, Claims.Run;
    ExactAfterSuccess(ClaimStates(worlds), AllToClaims(events), visited, keys, c);
  }
}
