/** Exactly when a reconcile cycle can succeed, said over the cluster, the spec and the secrets
    before it. Any API call may fail besides. */
module CycleSuccess {
  import opened Bytes
  import opened Claims
  import opened Cluster
  import opened Cycle
  import opened Scaling
  import opened RestartDelivery
  import opened ClaimCycles
  import opened DeletedClaims
  import opened MonitoringCache
  import opened BackupCache

  /** A claim without any annotations is there, and a new set of some is due: copying into the nil
      map panics. */
  predicate Bare(o: Objects, c: ClaimName, g: GlobalSpec) {
    c in o.claims && o.claims[c] == map[] && g.pvcAnnotations != map[] && g.pvcAnnotations != o.recorded
  }

  /** A volume that a cycle can provide for. */
  predicate Usable(o: Objects, v: Volume, g: GlobalSpec) {
    match v
    case NoVolume => true
    case Unnamed => false
    case Existing(c) => NamedClaim(c) in o.claims
    case Standalone(c) => !Bare(o, NamedClaim(c), g)
    case Managed(c) => !Bare(o, NamedClaim(c), g)
  }

  /** With n > 0 servers: the snapshot volume is usable, unless it is each pod's own; no server to
      stop is missing; and no server's claim is bare. */
  ghost predicate ServersCanApply(o: Objects, svc: Service) {
    var n := svc.zooKeeper.replicas;
    n > 0 ==>
      && (svc.zooKeeper.snapshots.Standalone? || Usable(o, svc.zooKeeper.snapshots, svc.global))
      && (forall i :: n < i <= |ActiveIds(o.deployments)| ==> ServerObject(i) in o.deployments)
      && (forall i :: 1 <= i <= n && i in svc.zooKeeper.storage ==> !Bare(o, ServerClaim(i), svc.global))
  }

  // ---------- claims ----------

  /** A visit fails on a bare claim only, and touches no other. */
  lemma VisitIff(o: Objects, c: ClaimName, g: GlobalSpec)
    ensures VisitClaim(o, c, g).Some? <==> !Bare(o, c, g)
    ensures VisitClaim(o, c, g).Some? ==>
              var p := VisitClaim(o, c, g).value;
              && p == o.(claims := p.claims) && c in p.claims && !Bare(p, c, g)
              && forall d :: d != c ==> At(p.claims, d) == At(o.claims, d)
  {
    if c in o.claims && g.pvcAnnotations != o.recorded && o.claims[c] != map[] {
      var merged := Merge(o.claims[c], g.pvcAnnotations, o.recorded).value;
      assert forall k :: k in g.pvcAnnotations ==> k in merged;
    }
  }

  lemma VolumeIff(o: Objects, v: Volume, g: GlobalSpec)
    ensures VisitVolume(o, v, g).Some? <==> Usable(o, v, g)
    ensures VisitVolume(o, v, g).Some? ==>
              var p := VisitVolume(o, v, g).value;
              && p == o.(claims := p.claims)
              && (forall c :: NamedClaim(c) in p.claims <==> NamedClaim(c) in o.claims || Makes(v, c))
              && (forall c :: Bare(p, NamedClaim(c), g) <==> Bare(o, NamedClaim(c), g))
              && (forall i :: At(p.claims, ServerClaim(i)) == At(o.claims, ServerClaim(i)))
  {
    hide VisitClaim;
    if v.Standalone? || v.Managed? {
      VisitIff(o, NamedClaim(v.claim), g);
      if VisitClaim(o, NamedClaim(v.claim), g).Some? {
        var p := VisitClaim(o, NamedClaim(v.claim), g).value;
        forall c ensures NamedClaim(c) in p.claims <==> NamedClaim(c) in o.claims || Makes(v, c)
                 ensures Bare(p, NamedClaim(c), g) <==> Bare(o, NamedClaim(c), g)
        {
          if c != v.claim {
            assert At(p.claims, NamedClaim(c)) == At(o.claims, NamedClaim(c));
          }
        }
      }
    }
  }

  /** The operator makes the claim of this name for the volume. */
  predicate Makes(v: Volume, c: string) {
    (v.Standalone? || v.Managed?) && v.claim == c
  }

  lemma PutServerIff(o: Objects, svc: Service, secret: Secret, id: int)
    ensures PutServer(o, svc, secret, id).Some? <==>
            id !in svc.zooKeeper.storage || !Bare(o, ServerClaim(id), svc.global)
    ensures PutServer(o, svc, secret, id).Some? ==>
              var p := PutServer(o, svc, secret, id).value;
              p.recorded == o.recorded && forall d :: d != ServerClaim(id) ==> At(p.claims, d) == At(o.claims, d)
  {
    var name := ServerObject(id);
    var p := o.(services := o.services[name := ZooKeeperEndpoint(svc.global, Steady(svc.zooKeeper), name)]);
    VisitIff(p, ServerClaim(id), svc.global);
    hide VisitClaim, Stamp;
  }

  lemma {:induction false} PutServersIff(o: Objects, svc: Service, secret: Secret, n: nat)
    ensures PutServers(o, svc, secret, n).Some? <==>
            forall i :: 1 <= i <= n && i in svc.zooKeeper.storage ==> !Bare(o, ServerClaim(i), svc.global)
    ensures PutServers(o, svc, secret, n).Some? ==>
              var p := PutServers(o, svc, secret, n).value;
              && p.recorded == o.recorded
              && forall d: ClaimName :: !(d.ServerClaim? && 1 <= d.id <= n) ==> At(p.claims, d) == At(o.claims, d)
  {
    hide PutServer;
    if n > 0 {
      PutServersIff(o, svc, secret, n - 1);
      var most := PutServers(o, svc, secret, n - 1);
      if most.Some? {
        PutServerIff(most.value, svc, secret, n);
        assert At(most.value.claims, ServerClaim(n)) == At(o.claims, ServerClaim(n));
        assert Bare(most.value, ServerClaim(n), svc.global) <==> Bare(o, ServerClaim(n), svc.global);
      }
    }
  }

  // ---------- the ZooKeeper component ----------

  lemma ApplyIff(o: Objects, svc: Service, secret: Secret)
    ensures ApplyZooKeeper(o, svc, secret).Some? <==> ServersCanApply(o, svc)
    ensures ApplyZooKeeper(o, svc, secret).Some? ==>
              var p, v := ApplyZooKeeper(o, svc, secret).value, svc.zooKeeper.snapshots;
              && p.recorded == o.recorded
              && (forall c :: NamedClaim(c) in p.claims <==>
                    NamedClaim(c) in o.claims || (Replicas(svc) > 0 && v == Managed(c)))
              && (forall c :: Bare(p, NamedClaim(c), svc.global) <==> Bare(o, NamedClaim(c), svc.global))
  {
    var n, g, v := Replicas(svc), svc.global, SnapshotVolume(svc);
    if n > 0 {
      VolumeIff(o, v, g);
      assert Usable(o, v, g) <==> svc.zooKeeper.snapshots.Standalone? || Usable(o, svc.zooKeeper.snapshots, g);
      hide VisitVolume, ScaleDown, PutServers, ActiveIds, Usable;
      var p := VisitVolume(o, v, g);
      if p.Some? {
        var q, count := PutServices(p.value, svc), |ActiveIds(o.deployments)|;
        ScaleDownAt(q, n + 1, count);
        var r := ScaleDown(q, n + 1, count);
        if r.Some? {
          PutServersIff(r.value, svc, secret, n);
          NamedAfter(o, r.value, svc, secret);
        }
      }
    }
  }

  /** Putting servers leaves named claims alone, and what was visited before leaves servers'. */
  lemma NamedAfter(o: Objects, r: Objects, svc: Service, secret: Secret)
    requires r.recorded == o.recorded && forall i :: At(r.claims, ServerClaim(i)) == At(o.claims, ServerClaim(i))
    ensures forall i :: Bare(r, ServerClaim(i), svc.global) <==> Bare(o, ServerClaim(i), svc.global)
    ensures var s := PutServers(r, svc, secret, Replicas(svc));
            s.Some? ==>
              && (forall c :: NamedClaim(c) in s.value.claims <==> NamedClaim(c) in r.claims)
              && (forall c :: Bare(s.value, NamedClaim(c), svc.global) <==> Bare(r, NamedClaim(c), svc.global))
  {
    PutServersIff(r, svc, secret, Replicas(svc));
    hide PutServers;
    forall i ensures Bare(r, ServerClaim(i), svc.global) <==> Bare(o, ServerClaim(i), svc.global) {
      assert At(r.claims, ServerClaim(i)) == At(o.claims, ServerClaim(i));
    }
    var s := PutServers(r, svc, secret, Replicas(svc));
    if s.Some? {
      forall c ensures NamedClaim(c) in s.value.claims <==> NamedClaim(c) in r.claims
               ensures Bare(s.value, NamedClaim(c), svc.global) <==> Bare(r, NamedClaim(c), svc.global)
      {
        assert At(s.value.claims, NamedClaim(c)) == At(r.claims, NamedClaim(c));
      }
    }
  }

  // ---------- the cycle ----------

  /** The ZooKeeper component's gate is open. */
  predicate ServersOpen(w: World, i: Input) {
    i.service.zooKeeper.secretName in i.secrets &&
    (!Hashed(w.caches, ZooKeeperHash, OfZooKeeper(i.service.zooKeeper)) ||
     !Hashed(w.caches, GlobalHash, OfGlobal(i.service.global)) ||
     Moved(w.caches.versions, i.secrets, i.service.zooKeeper.secretName))
  }

  /** The Backup Daemon's volume can be provided for: a claim that must exist may also be one that
      the ZooKeeper component makes in the same cycle. */
  ghost predicate BackupCanApply(w: World, i: Input)
    requires i.service.backup.Some?
  {
    var v := i.service.backup.value.storage;
    || Usable(w.objects, v, i.service.global)
    || (v.Existing? && ServersOpen(w, i) && i.service.zooKeeper.replicas > 0 &&
        i.service.zooKeeper.snapshots == Managed(v.claim))
  }

  ghost predicate CanSucceed(w: World, i: Input) {
    var svc := i.service;
    && svc.zooKeeper.secretName in i.secrets
    && (ServersOpen(w, i) ==> ServersCanApply(w.objects, svc))
    && (svc.monitoring.Some? ==> svc.monitoring.value.secretName in i.secrets)
    && (svc.backup.Some? ==>
          && svc.backup.value.secretName in i.secrets
          && (BackupChanged(w.caches, FoundByBackup(w.caches, i), i) ==> BackupCanApply(w, i)))
  }

  lemma ZooKeeperIff(w: World, i: Input)
    ensures var r := ReconcileZooKeeper(w, i.service, i.secrets, false);
            && (r.Some? <==> i.service.zooKeeper.secretName in i.secrets &&
                             (ServersOpen(w, i) ==> ServersCanApply(w.objects, i.service)))
            && (r.Some? ==>
                  && r.value.objects.recorded == w.objects.recorded
                  && r.value.caches == Record(w.caches, [i.secrets[i.service.zooKeeper.secretName]], ZooKeeperHash,
                                              OfZooKeeper(i.service.zooKeeper))
                  && (forall c :: NamedClaim(c) in r.value.objects.claims <==>
                        NamedClaim(c) in w.objects.claims ||
                        (ServersOpen(w, i) && Replicas(i.service) > 0 && i.service.zooKeeper.snapshots == Managed(c)))
                  && (forall c :: Bare(r.value.objects, NamedClaim(c), i.service.global) <==>
                                  Bare(w.objects, NamedClaim(c), i.service.global)))
  {
    if i.service.zooKeeper.secretName in i.secrets {
      var secret := i.secrets[i.service.zooKeeper.secretName];
      assert ServersOpen(w, i) <==> ZooKeeperChanged(w.caches, i.service, secret);
      hide ApplyZooKeeper, StampServers, ZooKeeperChanged, RecordVersions, ServersCanApply, ServersOpen;
      ApplyIff(w.objects, i.service, secret);
      StampServersKeep(w.objects, [secret], Replicas(i.service));
      if ApplyZooKeeper(w.objects, i.service, secret).Some? {
        StampServersKeep(ApplyZooKeeper(w.objects, i.service, secret).value, [secret], Replicas(i.service));
      }
    }
  }

  lemma BackupIff(w: World, i: Input)
    requires i.service.backup.Some?
    ensures ReconcileBackup(w, i.service, i.secrets, i.aliases).Some? <==>
            && i.service.backup.value.secretName in i.secrets
            && (BackupChanged(w.caches, w.caches.versions, i) ==>
                  Usable(w.objects, i.service.backup.value.storage, i.service.global))
  {
    if i.service.backup.value.secretName in i.secrets {
      BackupUses(w.caches.versions, i);
      VolumeIff(w.objects, i.service.backup.value.storage, i.service.global);
      hide Stamp, RecordVersions, AnyChanged, VisitVolume, Usable, BackupSecretMoved;
    }
  }

  lemma MonitoringIff(w: World, i: Input)
    ensures ReconcileMonitoring(w, i.service, i.secrets).Some? <==>
            (i.service.monitoring.Some? ==> i.service.monitoring.value.secretName in i.secrets)
    ensures ReconcileMonitoring(w, i.service, i.secrets).Some? ==>
              ReconcileMonitoring(w, i.service, i.secrets).value.objects.recorded == w.objects.recorded
  {
    hide Stamp, RecordVersions, AnyChanged;
  }

  /** Claims that answer alike make a volume usable alike. */
  lemma UsableAlike(o: Objects, p: Objects, v: Volume, g: GlobalSpec)
    requires forall c :: Bare(p, NamedClaim(c), g) <==> Bare(o, NamedClaim(c), g)
    ensures !v.Existing? ==> (Usable(p, v, g) <==> Usable(o, v, g))
  {}

  /** A cycle can succeed exactly when this holds before it. */
  lemma CycleSucceedsIff(w: World, i: Input)
    ensures RunCycle(w, i, false).Some? <==> CanSucceed(w, i)
  {
    var svc := i.service;
    ZooKeeperIff(w, i);
    var r1 := ReconcileZooKeeper(w, svc, i.secrets, false);
    hide ReconcileZooKeeper, ReconcileMonitoring, ReconcileBackup, ServersOpen, ServersCanApply, Usable, RecordVersions,
         MonitoringSecrets, BackupSecretMoved, Bare;
    if r1.Some? {
      MonitoringIff(r1.value, i);
      MonitoringKeepsClaims(r1.value, i);
      var r2 := ReconcileMonitoring(r1.value, svc, i.secrets);
      MonitoringLeavesBackup(r1.value, svc, i.secrets);
      if r2.Some? {
        NoBackupNoFailure(r2.value, i);
      }
      if r2.Some? && svc.backup.Some? {
        BackupIff(r2.value, i);
        assert r2.value.caches.versions == FoundByBackup(w.caches, i);
        assert BackupChanged(r2.value.caches, r2.value.caches.versions, i) <==>
               BackupChanged(w.caches, FoundByBackup(w.caches, i), i);
        BackupVolumeThen(w, i, r1.value, r2.value);
      }
    }
  }

  /** What the Backup Daemon finds of its volume, in terms of before the cycle. */
  lemma BackupVolumeThen(w: World, i: Input, w1: World, w2: World)
    requires i.service.backup.Some? && w2.objects.claims == w1.objects.claims
    requires w2.objects.recorded == w1.objects.recorded == w.objects.recorded
    requires forall c :: NamedClaim(c) in w1.objects.claims <==>
               NamedClaim(c) in w.objects.claims ||
               (ServersOpen(w, i) && Replicas(i.service) > 0 && i.service.zooKeeper.snapshots == Managed(c))
    requires forall c :: Bare(w1.objects, NamedClaim(c), i.service.global) <==>
                         Bare(w.objects, NamedClaim(c), i.service.global)
    ensures Usable(w2.objects, i.service.backup.value.storage, i.service.global) <==> BackupCanApply(w, i)
  {
    hide ServersOpen;
    var v, g := i.service.backup.value.storage, i.service.global;
    assert forall c :: Bare(w2.objects, NamedClaim(c), g) <==> Bare(w1.objects, NamedClaim(c), g);
    UsableAlike(w.objects, w2.objects, v, g);
  }

  lemma NoBackupNoFailure(w: World, i: Input)
    ensures i.service.backup.None? ==> ReconcileBackup(w, i.service, i.secrets, i.aliases).Some?
  {}

  /** So a server's claim without annotations blocks every cycle whose gate is open, until someone
      annotates it or the wanted set is emptied or put back. */
  lemma BareClaimBlocks(w: World, i: Input, id: int)
    requires ServersOpen(w, i) && 1 <= id <= i.service.zooKeeper.replicas && id in i.service.zooKeeper.storage
    requires Bare(w.objects, ServerClaim(id), i.service.global)
    ensures RunCycle(w, i, false).None?
  {
    CycleSucceedsIff(w, i);
    hide RunCycle, ServersOpen, Bare;
    assert !ServersCanApply(w.objects, i.service);
  }
}
