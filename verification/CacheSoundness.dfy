/** The change-detection cache of the ZooKeeper component: skipping a reconcile that the hashes
    and versions say is not needed leaves the cluster as if it had been done, over every run of
    successful cycles and operator restarts. */
module CacheSoundness {
  import opened Bytes
  import opened Claims
  import opened Cluster
  import opened Cycle
  import opened Scaling
  import opened RestartDelivery

  /** The same cluster, whatever the number of update calls. */
  ghost predicate Same(a: Objects, b: Objects) {
    a == b.(writes := a.writes)
  }

  ghost predicate BothSame(r: Option<Objects>, s: Option<Objects>) {
    r.Some? == s.Some? && (r.Some? ==> Same(r.value, s.value))
  }

  ghost predicate SameWorlds(r: Option<World>, s: Option<World>) {
    r.Some? == s.Some? &&
    (r.Some? ==> Same(r.value.objects, s.value.objects) && r.value.caches == s.value.caches)
  }

  // ---------- the call count influences nothing ----------

  lemma VolumeSame(a: Objects, b: Objects, v: Volume, g: GlobalSpec)
    requires Same(a, b)
    ensures BothSame(VisitVolume(a, v, g), VisitVolume(b, v, g))
  {
    hide Visit;
  }

  lemma {:induction false} ScaleDownSame(a: Objects, b: Objects, lo: int, hi: int)
    requires Same(a, b)
    ensures BothSame(ScaleDown(a, lo, hi), ScaleDown(b, lo, hi))
    decreases hi - lo
  {
    if lo <= hi {
      ScaleDownSame(a, b, lo, hi - 1);
    }
  }

  lemma PutServerSame(a: Objects, b: Objects, svc: Service, secret: Secret, id: int)
    requires Same(a, b)
    ensures BothSame(PutServer(a, svc, secret, id), PutServer(b, svc, secret, id))
  {
    hide Visit, Stamp;
  }

  lemma {:induction false} PutServersSame(a: Objects, b: Objects, svc: Service, secret: Secret, n: nat)
    requires Same(a, b)
    ensures BothSame(PutServers(a, svc, secret, n), PutServers(b, svc, secret, n))
  {
    hide PutServer;
    if n > 0 {
      PutServersSame(a, b, svc, secret, n - 1);
      var r, s := PutServers(a, svc, secret, n - 1), PutServers(b, svc, secret, n - 1);
      if r.Some? {
        PutServerSame(r.value, s.value, svc, secret, n);
      }
    }
  }

  lemma StampSame(a: Objects, b: Objects, name: ObjectName, secrets: seq<Secret>)
    requires Same(a, b)
    ensures Same(StampDeployment(a, name, secrets), StampDeployment(b, name, secrets))
  {
    hide Stamp;
  }

  lemma {:induction false} StampServersSame(a: Objects, b: Objects, secrets: seq<Secret>, n: nat)
    requires Same(a, b)
    ensures Same(StampServers(a, secrets, n), StampServers(b, secrets, n))
  {
    if n > 0 {
      StampServersSame(a, b, secrets, n - 1);
      StampSame(StampServers(a, secrets, n - 1), StampServers(b, secrets, n - 1), ServerObject(n), secrets);
    }
  }

  lemma ApplySame(a: Objects, b: Objects, svc: Service, secret: Secret)
    requires Same(a, b)
    ensures BothSame(ApplyZooKeeper(a, svc, secret), ApplyZooKeeper(b, svc, secret))
  {
    hide VisitVolume, ScaleDown, PutServers, ActiveIds;
    var n, count := Replicas(svc), |ActiveIds(a.deployments)|;
    VolumeSame(a, b, SnapshotVolume(svc), svc.global);
    var r, s := VisitVolume(a, SnapshotVolume(svc), svc.global), VisitVolume(b, SnapshotVolume(svc), svc.global);
    if r.Some? {
      var p, q := PutServices(r.value, svc), PutServices(s.value, svc);
      ScaleDownSame(p, q, n + 1, count);
      if ScaleDown(p, n + 1, count).Some? {
        PutServersSame(ScaleDown(p, n + 1, count).value, ScaleDown(q, n + 1, count).value, svc, secret, n);
      }
    }
  }

  lemma ZooKeeperSame(a: Objects, b: Objects, c: Caches, svc: Service, secrets: Secrets, always: bool)
    requires Same(a, b)
    ensures SameWorlds(ReconcileZooKeeper(World(a, c), svc, secrets, always),
                       ReconcileZooKeeper(World(b, c), svc, secrets, always))
  {
    hide ApplyZooKeeper, StampServers, Record, ZooKeeperChanged;
    if svc.zooKeeper.secretName in secrets {
      var secret := secrets[svc.zooKeeper.secretName];
      ApplySame(a, b, svc, secret);
      StampServersSame(a, b, [secret], Replicas(svc));
      if ApplyZooKeeper(a, svc, secret).Some? {
        StampServersSame(ApplyZooKeeper(a, svc, secret).value, ApplyZooKeeper(b, svc, secret).value,
                         [secret], Replicas(svc));
      }
    }
  }

  lemma MonitoringSame(a: Objects, b: Objects, c: Caches, svc: Service, secrets: Secrets)
    requires Same(a, b)
    ensures SameWorlds(ReconcileMonitoring(World(a, c), svc, secrets), ReconcileMonitoring(World(b, c), svc, secrets))
  {
    hide Stamp, Record, AnyChanged, MonitoringSecrets;
  }

  lemma BackupSame(a: Objects, b: Objects, c: Caches, svc: Service, secrets: Secrets, aliases: Option<Secret>)
    requires Same(a, b)
    ensures SameWorlds(ReconcileBackup(World(a, c), svc, secrets, aliases),
                       ReconcileBackup(World(b, c), svc, secrets, aliases))
  {
    hide Stamp, Record, AnyChanged, BackupSecrets, VisitVolume;
    if svc.backup.Some? {
      VolumeSame(a, b, svc.backup.value.storage, svc.global);
    }
  }

  /** The rest of a cycle, from where the ZooKeeper component left it. */
  function AfterZooKeeper(w: World, i: Input): Option<World> {
    var w2 := ReconcileMonitoring(w, i.service, i.secrets);
    if w2.None? then None
    else
      var w3 := ReconcileBackup(w2.value, i.service, i.secrets, i.aliases);
      if w3.None? then None else Some(Finish(w3.value, i.service))
  }

  lemma AfterZooKeeperSame(v: World, w: World, i: Input)
    requires Same(v.objects, w.objects) && v.caches == w.caches
    ensures SameWorlds(AfterZooKeeper(v, i), AfterZooKeeper(w, i))
  {
    hide ReconcileMonitoring, ReconcileBackup;
    MonitoringSame(v.objects, w.objects, v.caches, i.service, i.secrets);
    assert v == World(v.objects, v.caches) && w == World(w.objects, w.caches);
    var r, s := ReconcileMonitoring(v, i.service, i.secrets), ReconcileMonitoring(w, i.service, i.secrets);
    if r.Some? {
      BackupSame(r.value.objects, s.value.objects, r.value.caches, i.service, i.secrets, i.aliases);
      assert r.value == World(r.value.objects, r.value.caches) && s.value == World(s.value.objects, s.value.caches);
    }
  }

  lemma CycleSplit(w: World, i: Input, always: bool)
    ensures var w1 := ReconcileZooKeeper(w, i.service, i.secrets, always);
            RunCycle(w, i, always) == if w1.None? then None else AfterZooKeeper(w1.value, i)
  {
    hide ReconcileZooKeeper, ReconcileMonitoring, ReconcileBackup;
  }

  // ---------- a settled component ----------

  /** The servers and services the ZooKeeper component would build are there, and no others are
      active. */
  ghost predicate ServersBuilt(o: Objects, svc: Service, secret: Secret) {
    var n := Replicas(svc);
    n > 0 ==>
      && (forall i :: 1 <= i <= n ==> At(o.deployments, ServerObject(i)) == Some(ServerDeployment(svc, secret, i)))
      && (forall x :: IsServer(x, 1, n) || x == ClientObject || x == DomainObject ==>
                        At(o.services, x) == Some(ServerEndpoint(svc, x)))
      && ActiveIds(o.deployments) == FirstIds(n)
  }

  /** So are the claims. */
  ghost predicate Built(o: Objects, svc: Service, secret: Secret) {
    var n := Replicas(svc);
    ServersBuilt(o, svc, secret) &&
    (n > 0 ==>
      && (forall i :: 1 <= i <= n && i in svc.zooKeeper.storage ==> ServerClaim(i) in o.claims)
      && InPlace(SnapshotVolume(svc), o.claims))
  }

  ghost predicate Settled(o: Objects, svc: Service, secret: Secret) {
    Built(o, svc, secret) && o.recorded == svc.global.pvcAnnotations
  }

  /** Once applied, only the set of active servers can be wrong. */
  lemma AppliedServers(o: Objects, p: Objects, svc: Service, secret: Secret)
    requires Replicas(svc) > 0 && Applied(o, p, svc, secret)
    ensures ServersBuilt(p, svc, secret) <==> ActiveIds(p.deployments) == FirstIds(Replicas(svc))
  {
    hide ActiveIds, FirstIds, ServerDeployment, ServerEndpoint, InPlace;
    var n := Replicas(svc);
    forall i | 1 <= i <= n
      ensures At(p.deployments, ServerObject(i)) == Some(ServerDeployment(svc, secret, i))
    {
      assert IsServer(ServerObject(i), 1, n);
    }
  }

  lemma ApplyBuilds(o: Objects, svc: Service, secret: Secret)
    requires Shaped(o)
    ensures var r := ApplyZooKeeper(o, svc, secret);
            r.Some? ==> Built(r.value, svc, secret) && Shaped(r.value)
  {
    var r := ApplyZooKeeper(o, svc, secret);
    if Replicas(svc) > 0 && r.Some? {
      hide ApplyZooKeeper, ActiveIds, FirstIds, ServersBuilt, Shaped, InPlace;
      ApplyShapes(o, svc, secret);
      ApplyAt(o, svc, secret);
      AppliedServers(o, r.value, svc, secret);
    }
  }

  lemma VisitSettled(claims: ClaimMap, c: ClaimName, wanted: Annotations)
    requires c in claims
    ensures Visit(claims, c, wanted, wanted) == Some(claims)
  {
    assert claims[c := claims[c]] == claims;
  }

  lemma PutServerSettled(o: Objects, svc: Service, secret: Secret, id: int)
    requires Settled(o, svc, secret) && 1 <= id <= Replicas(svc)
    ensures BothSame(PutServer(o, svc, secret, id), Some(o))
  {
    hide Visit, Stamp, ActiveIds, FirstIds;
    var name := ServerObject(id);
    assert IsServer(name, 1, Replicas(svc));
    assert At(o.services, name) == Some(ServerEndpoint(svc, name));
    assert o.services[name := ServerEndpoint(svc, name)] == o.services;
    assert At(o.deployments, name) == Some(ServerDeployment(svc, secret, id));
    assert o.deployments[name := ServerDeployment(svc, secret, id)] == o.deployments;
    if id in svc.zooKeeper.storage {
      VisitSettled(o.claims, ServerClaim(id), o.recorded);
    }
  }

  lemma {:induction false} PutServersSettled(o: Objects, svc: Service, secret: Secret, n: nat)
    requires Settled(o, svc, secret) && n <= Replicas(svc)
    ensures BothSame(PutServers(o, svc, secret, n), Some(o))
  {
    hide PutServer, Settled;
    if n > 0 {
      PutServersSettled(o, svc, secret, n - 1);
      PutServerSettled(o, svc, secret, n);
      var most := PutServers(o, svc, secret, n - 1);
      PutServerSame(most.value, o, svc, secret, n);
    }
  }

  /** Applying the component once more changes nothing. */
  lemma ApplySettled(o: Objects, svc: Service, secret: Secret)
    requires Settled(o, svc, secret)
    ensures BothSame(ApplyZooKeeper(o, svc, secret), Some(o))
  {
    var n := Replicas(svc);
    if n > 0 {
      var v := SnapshotVolume(svc);
      assert VisitVolume(o, v, svc.global) == Some(o) by {
        if v.Managed? { VisitSettled(o.claims, NamedClaim(v.claim), o.recorded); }
      }
      assert PutServices(o, svc) == o by {
        assert At(o.services, ClientObject) == Some(ServerEndpoint(svc, ClientObject));
        assert At(o.services, DomainObject) == Some(ServerEndpoint(svc, DomainObject));
        assert o.services[ClientObject := ServerEndpoint(svc, ClientObject)]
                         [DomainObject := ServerEndpoint(svc, DomainObject)] == o.services;
      }
      assert |ActiveIds(o.deployments)| == n;
      assert ScaleDown(o, n + 1, n) == Some(o);
      PutServersSettled(o, svc, secret, n);
      hide PutServers, VisitVolume, PutServices, ScaleDown, Settled, ActiveIds;
    }
  }

  lemma StampBuilt(o: Objects, svc: Service, secret: Secret)
    requires ServersBuilt(o, svc, secret)
    ensures StampServers(o, [secret], Replicas(svc)) == o
  {
    var n := Replicas(svc);
    assert ServersCarry(o, [secret], n) by {
      StampCarries(map[], [secret]);
      forall i | 1 <= i <= n ensures DeploymentCarries(o, ServerObject(i), [secret]) {
        assert At(o.deployments, ServerObject(i)) == Some(ServerDeployment(svc, secret, i));
      }
    }
    StampServersAgain(o, [secret], n);
  }

  // ---------- what the other components leave alone ----------

  /** They leave servers and their services alone and delete no claim. */
  ghost predicate LeavesZooKeeper(o: Objects, p: Objects) {
    && (forall x: ObjectName :: x.ServerObject? ==> At(p.deployments, x) == At(o.deployments, x))
    && (forall x: ObjectName :: x.ServerObject? || x == ClientObject || x == DomainObject ==>
          At(p.services, x) == At(o.services, x))
    && (forall c :: c in o.claims ==> c in p.claims)
  }

  lemma MonitoringLeaves(w: World, svc: Service, secrets: Secrets)
    ensures var r := ReconcileMonitoring(w, svc, secrets);
            r.Some? ==> LeavesZooKeeper(w.objects, r.value.objects)
  {
    hide Stamp, AnyChanged, MonitoringSecrets, Record;
  }

  lemma BackupLeaves(w: World, svc: Service, secrets: Secrets, aliases: Option<Secret>)
    ensures var r := ReconcileBackup(w, svc, secrets, aliases);
            r.Some? ==> LeavesZooKeeper(w.objects, r.value.objects)
  {
    hide Stamp, AnyChanged, BackupSecrets, VisitVolume, Record;
    if svc.backup.Some? {
      VolumeAt(w.objects, svc.backup.value.storage, svc.global);
    }
  }

  lemma AfterZooKeeperLeaves(w: World, i: Input)
    ensures var r := AfterZooKeeper(w, i);
            r.Some? ==> LeavesZooKeeper(w.objects, r.value.objects)
  {
    hide ReconcileMonitoring, ReconcileBackup;
    MonitoringLeaves(w, i.service, i.secrets);
    var r := ReconcileMonitoring(w, i.service, i.secrets);
    if r.Some? {
      BackupLeaves(r.value, i.service, i.secrets, i.aliases);
    }
  }

  lemma LeavesActive(o: Objects, p: Objects)
    requires LeavesZooKeeper(o, p)
    ensures ActiveIds(p.deployments) == ActiveIds(o.deployments)
  {
    forall i ensures i in ActiveIds(p.deployments) <==> i in ActiveIds(o.deployments) {
      ActiveAt(o.deployments, i);
      ActiveAt(p.deployments, i);
    }
    SameSet(ActiveIds(p.deployments), ActiveIds(o.deployments));
  }

  lemma LeavesServers(o: Objects, p: Objects, svc: Service, secret: Secret)
    requires LeavesZooKeeper(o, p)
    ensures ServersBuilt(o, svc, secret) <==> ServersBuilt(p, svc, secret)
  {
    LeavesActive(o, p);
    hide ActiveIds, FirstIds, ServerDeployment, ServerEndpoint;
  }

  lemma LeavesBuilt(o: Objects, p: Objects, svc: Service, secret: Secret)
    requires LeavesZooKeeper(o, p) && Built(o, svc, secret)
    ensures Built(p, svc, secret)
  {
    LeavesServers(o, p, svc, secret);
    hide ServersBuilt, At;
  }

  // ---------- the invariant between cycles ----------

  /** The operator just started, or its memory is that of the last cycle and that cycle's
      ZooKeeper component is settled. */
  ghost predicate Remembers(w: World, last: Option<Input>) {
    && Shaped(w.objects)
    && (last.None? ==> w.caches == EMPTY_CACHES)
    && (last.Some? ==>
          var i := last.value;
          && i.service.zooKeeper.secretName in i.secrets
          && UpToDate(w.caches, i)
          && Settled(w.objects, i.service, i.secrets[i.service.zooKeeper.secretName]))
  }

  /** A version identifies a secret's content. */
  ghost predicate SameVersions(i: Input, j: Input) {
    forall n :: n in i.secrets && n in j.secrets && i.secrets[n].version == j.secrets[n].version ==>
                  i.secrets[n] == j.secrets[n]
  }

  /** When the gate stays shut the component is settled for the new inputs too. */
  lemma ShutIsSettled(w: World, last: Option<Input>, i: Input)
    requires Remembers(w, last) && ValidInput(i)
    requires last.Some? ==> ValidInput(last.value) && SameVersions(last.value, i)
    requires i.service.zooKeeper.secretName in i.secrets
    requires !ZooKeeperChanged(w.caches, i.service, i.secrets[i.service.zooKeeper.secretName])
    ensures Settled(w.objects, i.service, i.secrets[i.service.zooKeeper.secretName])
  {
    var j := last.value;
    var name := i.service.zooKeeper.secretName;
    assert ZooKeeperUses(j)[0] == j.secrets[name];
    assert i.secrets[name] == j.secrets[name];
    SettledReads(w.objects, j.service, i.service, i.secrets[name]);
  }

  lemma SettledReads(o: Objects, a: Service, b: Service, secret: Secret)
    requires a.zooKeeper == b.zooKeeper && a.global == b.global && Settled(o, a, secret)
    ensures Settled(o, b, secret)
  {
    hide ActiveIds, FirstIds, Stamp;
    assert Replicas(a) == Replicas(b) && SnapshotVolume(a) == SnapshotVolume(b);
    assert forall x :: ServerEndpoint(a, x) == ServerEndpoint(b, x);
    assert forall i :: ServerDeployment(a, secret, i) == ServerDeployment(b, secret, i);
  }

  /** One cycle, gated or not: the same cluster and the same memory. */
  lemma GateIsSound(w: World, last: Option<Input>, i: Input)
    requires Remembers(w, last) && ValidInput(i)
    requires last.Some? ==> ValidInput(last.value) && SameVersions(last.value, i)
    ensures SameWorlds(RunCycle(w, i, false), RunCycle(w, i, true))
  {
    CycleSplit(w, i, false);
    CycleSplit(w, i, true);
    var r, s := ReconcileZooKeeper(w, i.service, i.secrets, false), ReconcileZooKeeper(w, i.service, i.secrets, true);
    assert SameWorlds(r, s) by { ZooKeeperGateIsSound(w, last, i); }
    hide ReconcileZooKeeper, AfterZooKeeper, RunCycle;
    if r.Some? {
      AfterZooKeeperSame(r.value, s.value, i);
    }
  }

  lemma ZooKeeperGateIsSound(w: World, last: Option<Input>, i: Input)
    requires Remembers(w, last) && ValidInput(i)
    requires last.Some? ==> ValidInput(last.value) && SameVersions(last.value, i)
    ensures SameWorlds(ReconcileZooKeeper(w, i.service, i.secrets, false),
                       ReconcileZooKeeper(w, i.service, i.secrets, true))
  {
    hide Remembers, ValidInput, SameVersions, Settled, ApplyZooKeeper, StampServers, Record, ZooKeeperChanged;
    if i.service.zooKeeper.secretName in i.secrets {
      var secret := i.secrets[i.service.zooKeeper.secretName];
      if !ZooKeeperChanged(w.caches, i.service, secret) {
        ShutIsSettled(w, last, i);
        ApplySettled(w.objects, i.service, secret);
        StampServersSame(w.objects, ApplyZooKeeper(w.objects, i.service, secret).value, [secret], Replicas(i.service));
      }
    }
  }

  /** One successful cycle, and the operator remembers it. */
  lemma CycleRemembers(w: World, last: Option<Input>, i: Input)
    requires Remembers(w, last) && ValidInput(i)
    requires last.Some? ==> ValidInput(last.value) && SameVersions(last.value, i)
    requires RunCycle(w, i, false).Some?
    ensures Remembers(RunCycle(w, i, false).value, Some(i))
  {
    CycleSplit(w, i, false);
    CycleUpdatesMemory(w, i, false);
    CycleFoundSecrets(w, i, false);
    var secret := i.secrets[i.service.zooKeeper.secretName];
    var w1 := ReconcileZooKeeper(w, i.service, i.secrets, false).value;
    ZooKeeperBuilds(w, last, i);
    AfterZooKeeperLeaves(w1, i);
    hide RunCycle, ReconcileZooKeeper, AfterZooKeeper, UpToDate;
    var after := AfterZooKeeper(w1, i).value;
    LeavesBuilt(w1.objects, after.objects, i.service, secret);
    LeavesActive(w1.objects, after.objects);
  }

  lemma ZooKeeperBuilds(w: World, last: Option<Input>, i: Input)
    requires Remembers(w, last) && ValidInput(i)
    requires last.Some? ==> ValidInput(last.value) && SameVersions(last.value, i)
    requires i.service.zooKeeper.secretName in i.secrets
    ensures var r := ReconcileZooKeeper(w, i.service, i.secrets, false);
            var secret := i.secrets[i.service.zooKeeper.secretName];
            r.Some? ==> Built(r.value.objects, i.service, secret) && Shaped(r.value.objects)
  {
    var secret := i.secrets[i.service.zooKeeper.secretName];
    if ZooKeeperChanged(w.caches, i.service, secret) {
      OpenBuilds(w.objects, i.service, secret);
    } else {
      ShutIsSettled(w, last, i);
      StampBuilt(w.objects, i.service, secret);
    }
    hide ValidInput, SameVersions, ApplyZooKeeper, StampServers, Record, ZooKeeperChanged, Built, Shaped,
         UpToDate, Replicas;
  }

  lemma OpenBuilds(o: Objects, svc: Service, secret: Secret)
    requires Shaped(o)
    ensures var r := ApplyZooKeeper(o, svc, secret);
            r.Some? ==> var p := StampServers(r.value, [secret], Replicas(svc));
                        Built(p, svc, secret) && Shaped(p)
  {
    ApplyBuilds(o, svc, secret);
    hide ApplyZooKeeper, StampServers, Built, Shaped;
    if ApplyZooKeeper(o, svc, secret).Some? {
      StampBuilt(ApplyZooKeeper(o, svc, secret).value, svc, secret);
    }
  }

  // ---------- runs ----------

  /** A restart of the operator empties its memory. */
  datatype Event = Restart | Cycles(input: Input)

  function Exec(w: World, events: seq<Event>, always: bool): Option<World> {
    if events == [] then Some(w)
    else
      var most := Exec(w, events[..|events| - 1], always);
      if most.None? then None
      else
        match events[|events| - 1]
        case Restart => Some(most.value.(caches := EMPTY_CACHES))
        case Cycles(i) => RunCycle(most.value, i, always)
  }

  ghost predicate ValidRun(events: seq<Event>) {
    && (forall k :: 0 <= k < |events| && events[k].Cycles? ==> ValidInput(events[k].input))
    && (forall k, m :: 0 <= k < m < |events| && events[k].Cycles? && events[m].Cycles? ==>
                         SameVersions(events[k].input, events[m].input))
  }

  /** The inputs the memory is about. */
  ghost function LastInput(events: seq<Event>): Option<Input> {
    if events == [] || events[|events| - 1].Restart? then None else Some(events[|events| - 1].input)
  }

  /** Cache soundness: for every run of specs, secrets and restarts without a failed cycle, the
      gated operator leaves the same services, claims and deployments, and the same memory, as
      one that always applies the ZooKeeper component. */
  lemma {:induction false} CacheSound(w: World, events: seq<Event>)
    requires Shaped(w.objects) && w.caches == EMPTY_CACHES && ValidRun(events)
    requires Exec(w, events, false).Some?
    ensures Remembers(Exec(w, events, false).value, LastInput(events))
    ensures SameWorlds(Exec(w, events, false), Exec(w, events, true))
    decreases |events|
  {
    hide RunCycle, Remembers, SameVersions, ValidInput;
    if events == [] {
      NothingToRemember(w);
    } else {
      var most := events[..|events| - 1];
      assert ValidRun(most) by {
        assert forall k :: 0 <= k < |most| ==> most[k] == events[k];
      }
      CacheSound(w, most);
      var g, u := Exec(w, most, false).value, Exec(w, most, true).value;
      match events[|events| - 1] {
        case Restart =>
          ForgetsAll(g, LastInput(most));
        case Cycles(i) =>
          LastIsValid(events);
          GateIsSound(g, LastInput(most), i);
          CycleRemembers(g, LastInput(most), i);
          CycleSame(g, u, i);
      }
    }
  }

  lemma NothingToRemember(w: World)
    requires Shaped(w.objects) && w.caches == EMPTY_CACHES
    ensures Remembers(w, None)
  {}

  lemma ForgetsAll(w: World, last: Option<Input>)
    requires Remembers(w, last)
    ensures Remembers(w.(caches := EMPTY_CACHES), None)
  {}

  lemma LastIsValid(events: seq<Event>)
    requires ValidRun(events) && events != [] && events[|events| - 1].Cycles?
    ensures ValidInput(events[|events| - 1].input)
    ensures var last := LastInput(events[..|events| - 1]);
            last.Some? ==> ValidInput(last.value) && SameVersions(last.value, events[|events| - 1].input)
  {
    if |events| > 1 {
      assert events[..|events| - 1][|events| - 2] == events[|events| - 2];
    }
  }

  lemma CycleSame(g: World, u: World, i: Input)
    requires Same(g.objects, u.objects) && g.caches == u.caches
    ensures SameWorlds(RunCycle(g, i, true), RunCycle(u, i, true))
  {
    CycleSplit(g, i, true);
    CycleSplit(u, i, true);
    ZooKeeperSame(g.objects, u.objects, g.caches, i.service, i.secrets, true);
    assert g == World(g.objects, g.caches) && u == World(u.objects, u.caches);
    hide ReconcileZooKeeper, AfterZooKeeper, RunCycle;
    var r, s := ReconcileZooKeeper(g, i.service, i.secrets, true), ReconcileZooKeeper(u, i.service, i.secrets, true);
    if r.Some? {
      AfterZooKeeperSame(r.value, s.value, i);
    }
  }

  /** Scaling shape: over every run without a failed cycle, from active servers 1..k, the active
      servers after each cycle with n >= 1 servers are exactly 1..n. */
  lemma ScalingShape(w: World, events: seq<Event>)
    requires Shaped(w.objects) && w.caches == EMPTY_CACHES && ValidRun(events)
    requires Exec(w, events, false).Some?
    requires events != [] && events[|events| - 1].Cycles?
    ensures var n := events[|events| - 1].input.service.zooKeeper.replicas;
            n >= 1 ==> ActiveIds(Exec(w, events, false).value.objects.deployments) == FirstIds(n)
  {
    hide Exec;
    CacheSound(w, events);
  }
}
