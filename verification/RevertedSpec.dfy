/** What the ZooKeeper gate skips after a cycle that failed: the memory is that of an earlier
    cycle, and a spec that goes back to it is not applied. */
module RevertedSpec {
  import opened Bytes
  import opened Claims
  import opened Cluster
  import opened Cycle
  import opened Scaling
  import opened RestartDelivery
  import opened CacheSoundness
  import opened ClaimCycles

  /** Every active server is among the first n, or is stopped when going to n. */
  ghost predicate NoGap(o: Objects, n: nat) {
    var active := ActiveIds(o.deployments);
    forall i :: i in active ==> 1 <= i && (i <= n || i <= |active|)
  }

  /** Applying the component builds the servers exactly when there is no gap. */
  lemma ApplyServersIff(o: Objects, svc: Service, secret: Secret)
    ensures var r := ApplyZooKeeper(o, svc, secret);
            r.Some? ==>
              var p := StampServers(r.value, [secret], Replicas(svc));
              ServersBuilt(p, svc, secret) <==> Replicas(svc) == 0 || NoGap(o, Replicas(svc))
  {
    var r, n := ApplyZooKeeper(o, svc, secret), Replicas(svc);
    if r.Some? && n > 0 {
      hide ApplyZooKeeper, StampServers, ActiveIds, FirstIds, ServersBuilt;
      ApplyAt(o, svc, secret);
      AppliedServers(o, r.value, svc, secret);
      ActiveIff(o, svc, secret);
      AppliedCarries(o, r.value, svc, secret);
      StampServersAgain(r.value, [secret], n);
    }
  }

  lemma AppliedCarries(o: Objects, p: Objects, svc: Service, secret: Secret)
    requires Replicas(svc) > 0 && Applied(o, p, svc, secret)
    ensures ServersCarry(p, [secret], Replicas(svc))
  {
    hide ActiveIds, InPlace;
    StampCarries(map[], [secret]);
    var n := Replicas(svc);
    forall i | 1 <= i <= n ensures DeploymentCarries(p, ServerObject(i), [secret]) {
      assert IsServer(ServerObject(i), 1, n);
      assert At(p.deployments, ServerObject(i)) == Some(ServerDeployment(svc, secret, i));
    }
  }

  /** After a successful cycle from any world at all, one that a failed cycle left included, the
      servers and services are as the spec wants them exactly when the gate was open and there
      was no gap, or the gate was shut and they were so already, missing stamps aside. */
  lemma ServersBuiltIff(v: World, i: Input)
    requires RunCycle(v, i, false).Some?
    ensures i.service.zooKeeper.secretName in i.secrets
    ensures var secret, n := i.secrets[i.service.zooKeeper.secretName], Replicas(i.service);
            ServersBuilt(RunCycle(v, i, false).value.objects, i.service, secret) <==>
            if ZooKeeperChanged(v.caches, i.service, secret) then n == 0 || NoGap(v.objects, n)
            else ServersBuilt(StampServers(v.objects, [secret], n), i.service, secret)
  {
    CycleFoundSecrets(v, i, false);
    CycleSplit(v, i, false);
    var secret := i.secrets[i.service.zooKeeper.secretName];
    hide RunCycle, ApplyZooKeeper, StampServers, ServersBuilt, NoGap, ZooKeeperChanged, AfterZooKeeper, RecordVersions,
         LeavesZooKeeper;
    ApplyServersIff(v.objects, i.service, secret);
    var w1 := ReconcileZooKeeper(v, i.service, i.secrets, false).value;
    AfterZooKeeperLeaves(w1, i);
    var w2 := AfterZooKeeper(w1, i).value;
    LeavesServers(w1.objects, w2.objects, i.service, secret);
  }

  // ---------- a revert that is skipped ----------

  /** One server without a claim; the setting stands for its template. */
  function Setting(s: int): Input {
    Input(Service(GlobalSpec(map[], 0), ZooKeeperSpec(1, "z", {}, NoVolume, false, s), None, None),
          map["z" := Secret("z", "1", false)], None)
  }

  /** What a cycle that waits in vain for the pod of server 1 leaves. */
  function TimedOut(u: World, s: int): World {
    var i := Setting(s);
    var p := PutServer(PutServices(u.objects, i.service), i.service, i.secrets["z"], 1);
    if p.None? then u else World(p.value, u.caches)
  }

  lemma TimedOutIs(u: World, s: int)
    ensures var v := TimedOut(u, s);
            && FailedCycle(u, Setting(s), v) && v.caches == u.caches
            && At(v.objects.deployments, ServerObject(1)) ==
               Some(ServerDeployment(Setting(s).service, Setting(s).secrets["z"], 1))
  {
    hide PutServer, Progress, FailedCycle;
    var svc, secret := Setting(s).service, Setting(s).secrets["z"];
    var o := PutServices(u.objects, svc);
    PutServerAt(o, svc, secret, 1);
    PutServerAdvances(o, svc, secret, 1);
    AdvancesSame(u.objects, o, svc.global);
    AdvancesTrans(u.objects, o, TimedOut(u, s).objects, svc.global);
    FailsAtOnce(u, Setting(s), TimedOut(u, s));
  }

  lemma FirstSetting(s: int)
    ensures RunCycle(World(NOTHING, EMPTY_CACHES), Setting(s), false).Some?
  {
    var svc, secret := Setting(s).service, Setting(s).secrets["z"];
    assert ActiveIds(NOTHING.deployments) == {};
    ApplySucceeds(NOTHING, svc, secret);
    hide Stamp, RecordVersions, ApplyZooKeeper, StampServers;
  }

  lemma ShutForOld(v: World, s: int)
    requires UpToDate(v.caches, Setting(s))
    ensures RunCycle(v, Setting(s), false).Some?
    ensures !ZooKeeperChanged(v.caches, Setting(s).service, Setting(s).secrets["z"])
  {
    assert ZooKeeperUses(Setting(s))[0] == Setting(s).secrets["z"];
    hide Stamp, RecordVersions, ApplyZooKeeper, StampServers;
  }

  /** Setting 0 is applied, a cycle for setting 1 times out, and the spec goes back to 0: the next
      cycle succeeds and leaves server 1 with setting 1. */
  lemma RevertIsSkipped()
    ensures var first := RunCycle(World(NOTHING, EMPTY_CACHES), Setting(0), false);
            && first.Some?
            && var v := TimedOut(first.value, 1);
               var last := RunCycle(v, Setting(0), false);
               && FailedCycle(first.value, Setting(1), v)
               && last.Some? && !ServersBuilt(last.value.objects, Setting(0).service, Setting(0).secrets["z"])
  {
    var w := World(NOTHING, EMPTY_CACHES);
    assert ValidInput(Setting(0));
    hide RunCycle, UpToDate, ValidInput, FailedCycle, TimedOut, ZooKeeperChanged, StampServers;
    FirstSetting(0);
    CycleUpdatesMemory(w, Setting(0), false);
    var u := RunCycle(w, Setting(0), false).value;
    var v := TimedOut(u, 1);
    TimedOutIs(u, 1);
    ShutForOld(v, 0);
    ServersBuiltIff(v, Setting(0));
    NotStamped(v.objects);
  }

  /** Stamping is no help. */
  lemma NotStamped(o: Objects)
    requires At(o.deployments, ServerObject(1)) ==
             Some(ServerDeployment(Setting(1).service, Setting(1).secrets["z"], 1))
    ensures var secret := Setting(0).secrets["z"];
            !ServersBuilt(StampServers(o, [secret], 1), Setting(0).service, secret)
  {
    var secret := Setting(0).secrets["z"];
    assert StampServers(o, [secret], 0) == o;
    assert Stamp(o.deployments[ServerObject(1)].stamps, []) == o.deployments[ServerObject(1)].stamps;
    assert StampServers(o, [secret], 1) == o;
    assert ServerDeployment(Setting(1).service, secret, 1) != ServerDeployment(Setting(0).service, secret, 1);
  }
}
