/** What applying the ZooKeeper component does to each object, and to the set of active servers
    (operator/controllers/zookeeper_reconciler.go). */
module Scaling {
  import opened Bytes
  import opened Claims
  import opened Cluster
  import opened Cycle

  function ServerDeployment(svc: Service, secret: Secret, id: int): Deployment {
    Deployment(1, ZooKeeperPod(svc.global, Steady(svc.zooKeeper), id), Stamp(map[], [secret]))
  }

  function ServerEndpoint(svc: Service, name: ObjectName): Endpoint {
    ZooKeeperEndpoint(svc.global, Steady(svc.zooKeeper), name)
  }

  predicate IsServer(x: ObjectName, lo: int, hi: int) {
    x.ServerObject? && lo <= x.id <= hi
  }

  function At<K, V>(m: map<K, V>, x: K): Option<V> {
    if x in m then Some(m[x]) else None
  }

  // ---------- scaling down ----------

  ghost function Stopped(d: Option<Deployment>): Option<Deployment> {
    if d.None? then None else Some(d.value.(replicas := 0))
  }

  /** Only excess servers change, and only their replicas; a missing one is an error. */
  lemma {:induction false} ScaleDownAt(o: Objects, lo: int, hi: int)
    ensures ScaleDown(o, lo, hi).Some? <==> forall i :: lo <= i <= hi ==> ServerObject(i) in o.deployments
    ensures ScaleDown(o, lo, hi).Some? ==> ScaledDown(o, ScaleDown(o, lo, hi).value, lo, hi)
    decreases hi - lo
  {
    if lo <= hi {
      ScaleDownAt(o, lo, hi - 1);
      var most := ScaleDown(o, lo, hi - 1);
      if most.Some? {
        assert At(most.value.deployments, ServerObject(hi)) == At(o.deployments, ServerObject(hi));
      }
    }
  }

  ghost predicate ScaledDown(o: Objects, p: Objects, lo: int, hi: int) {
    && p == o.(deployments := p.deployments, writes := p.writes)
    && forall x :: At(p.deployments, x) ==
                   if IsServer(x, lo, hi) then Stopped(At(o.deployments, x)) else At(o.deployments, x)
  }

  // ---------- the servers ----------

  ghost predicate ServersPut(o: Objects, p: Objects, svc: Service, secret: Secret, n: nat) {
    && p.recorded == o.recorded
    && (forall x :: At(p.deployments, x) ==
                    if IsServer(x, 1, n) then Some(ServerDeployment(svc, secret, x.id)) else At(o.deployments, x))
    && (forall x :: At(p.services, x) ==
                    if IsServer(x, 1, n) then Some(ServerEndpoint(svc, x)) else At(o.services, x))
    && (forall c :: c in o.claims ==> c in p.claims)
    && (forall i :: 1 <= i <= n && i in svc.zooKeeper.storage ==> ServerClaim(i) in p.claims)
  }

  lemma PutServerAt(o: Objects, svc: Service, secret: Secret, id: int)
    ensures var r, name := PutServer(o, svc, secret, id), ServerObject(id);
            r.Some? ==>
              && r.value.recorded == o.recorded
              && r.value.deployments == o.deployments[name := ServerDeployment(svc, secret, id)]
              && r.value.services == o.services[name := ServerEndpoint(svc, name)]
              && (forall c :: c in o.claims ==> c in r.value.claims)
              && (id in svc.zooKeeper.storage ==> ServerClaim(id) in r.value.claims)
    ensures id !in svc.zooKeeper.storage ==> PutServer(o, svc, secret, id).Some?
  {
    hide Stamp, Merge;
  }

  lemma {:induction false} PutServersAt(o: Objects, svc: Service, secret: Secret, n: nat)
    ensures var r := PutServers(o, svc, secret, n);
            r.Some? ==> ServersPut(o, r.value, svc, secret, n)
    ensures svc.zooKeeper.storage == {} ==> PutServers(o, svc, secret, n).Some?
  {
    hide PutServer, ServerDeployment, ServerEndpoint;
    if n > 0 {
      PutServersAt(o, svc, secret, n - 1);
      var most := PutServers(o, svc, secret, n - 1);
      if most.Some? {
        PutServerAt(most.value, svc, secret, n);
      }
    }
  }

  lemma VolumeAt(o: Objects, v: Volume, g: GlobalSpec)
    ensures var r := VisitVolume(o, v, g);
            r.Some? ==> r.value == o.(claims := r.value.claims) &&
                        (forall c :: c in o.claims ==> c in r.value.claims) &&
                        InPlace(v, r.value.claims)
  {
    hide Merge;
  }

  lemma StaysInPlace(v: Volume, before: ClaimMap, after: ClaimMap)
    requires InPlace(v, before) && forall c :: c in before ==> c in after
    ensures InPlace(v, after)
  {}

  // ---------- the whole component ----------

  /** Every object after the component was applied with n > 0 servers. */
  ghost predicate Applied(o: Objects, p: Objects, svc: Service, secret: Secret) {
    var n := Replicas(svc);
    var count := |ActiveIds(o.deployments)|;
    && p.recorded == o.recorded
    && (forall x :: At(p.deployments, x) ==
                    if IsServer(x, 1, n) then Some(ServerDeployment(svc, secret, x.id))
                    else if IsServer(x, n + 1, count) then Stopped(At(o.deployments, x))
                    else At(o.deployments, x))
    && (forall x :: At(p.services, x) ==
                    if IsServer(x, 1, n) || x == ClientObject || x == DomainObject then Some(ServerEndpoint(svc, x))
                    else At(o.services, x))
    && (forall c :: c in o.claims ==> c in p.claims)
    && (forall i :: 1 <= i <= n && i in svc.zooKeeper.storage ==> ServerClaim(i) in p.claims)
    && InPlace(SnapshotVolume(svc), p.claims)
  }

  lemma ApplyAt(o: Objects, svc: Service, secret: Secret)
    requires Replicas(svc) > 0
    ensures var r := ApplyZooKeeper(o, svc, secret);
            r.Some? ==> Applied(o, r.value, svc, secret)
  {
    hide ActiveIds, VisitVolume, ScaleDown, PutServers, ServerDeployment, InPlace;
    var r := ApplyZooKeeper(o, svc, secret);
    if r.Some? {
      var n := Replicas(svc);
      VolumeAt(o, SnapshotVolume(svc), svc.global);
      var p := PutServices(VisitVolume(o, SnapshotVolume(svc), svc.global).value, svc);
      var count := |ActiveIds(o.deployments)|;
      ScaleDownAt(p, n + 1, count);
      var q := ScaleDown(p, n + 1, count).value;
      PutServersAt(q, svc, secret, n);
      assert p.deployments == o.deployments;
      assert forall x :: At(q.deployments, x) == if IsServer(x, n + 1, count) then Stopped(At(o.deployments, x))
                                                 else At(o.deployments, x);
      StaysInPlace(SnapshotVolume(svc), p.claims, r.value.claims);
    }
  }

  /** Without claims to merge, only a missing excess server can stop the component. */
  lemma ApplySucceeds(o: Objects, svc: Service, secret: Secret)
    requires Replicas(svc) > 0 && svc.zooKeeper.storage == {} && svc.zooKeeper.snapshots.NoVolume?
    ensures ApplyZooKeeper(o, svc, secret).Some? <==>
            forall i :: Replicas(svc) < i <= |ActiveIds(o.deployments)| ==> ServerObject(i) in o.deployments
  {
    hide ScaleDown, PutServers, ActiveIds;
    var n := Replicas(svc);
    var p := PutServices(o, svc);
    var count := |ActiveIds(o.deployments)|;
    ScaleDownAt(p, n + 1, count);
    if ScaleDown(p, n + 1, count).Some? {
      PutServersAt(ScaleDown(p, n + 1, count).value, svc, secret, n);
    }
  }

  lemma ActiveAt(d: Deployments, i: int)
    ensures i in ActiveIds(d) <==> At(d, ServerObject(i)).Some? && At(d, ServerObject(i)).value.replicas > 0
  {}

  /** The active servers after applying the component are exactly 1..n exactly when every
      server active before had a number from 1 up to n or up to how many were active. */
  lemma ActiveIff(o: Objects, svc: Service, secret: Secret)
    requires Replicas(svc) > 0
    ensures var r, n, active := ApplyZooKeeper(o, svc, secret), Replicas(svc), ActiveIds(o.deployments);
            r.Some? ==> (ActiveIds(r.value.deployments) == FirstIds(n) <==>
                         forall i :: i in active ==> 1 <= i && (i <= n || i <= |active|))
  {
    hide ApplyZooKeeper;
    var r := ApplyZooKeeper(o, svc, secret);
    if r.Some? {
      ApplyAt(o, svc, secret);
      var n, active, after := Replicas(svc), ActiveIds(o.deployments), ActiveIds(r.value.deployments);
      forall i
        ensures i in after <==> 1 <= i <= n || (i in active && !(n + 1 <= i <= |active|))
      {
        ActiveAt(o.deployments, i);
        ActiveAt(r.value.deployments, i);
        assert IsServer(ServerObject(i), 1, n) <==> 1 <= i <= n;
        assert IsServer(ServerObject(i), n + 1, |active|) <==> n + 1 <= i <= |active|;
      }
      hide ActiveIds, FirstIds, Applied;
      if forall i :: i in active ==> 1 <= i && (i <= n || i <= |active|) {
        SameSet(after, FirstIds(n));
      }
      if after == FirstIds(n) {
        forall i | i in active ensures 1 <= i && (i <= n || i <= |active|) {
          assert i in after ==> i in FirstIds(n);
        }
      }
    }
  }

  /** Active servers 1..k for some k. */
  ghost predicate Shaped(o: Objects) {
    exists k: nat :: ActiveIds(o.deployments) == FirstIds(k)
  }

  lemma ShapedCount(o: Objects)
    requires Shaped(o)
    ensures ActiveIds(o.deployments) == FirstIds(|ActiveIds(o.deployments)|)
  {}

  /** From 1..k every change of the number of servers gives 1..n. */
  lemma ApplyShapes(o: Objects, svc: Service, secret: Secret)
    requires Replicas(svc) > 0 && Shaped(o)
    ensures var r := ApplyZooKeeper(o, svc, secret);
            r.Some? ==> ActiveIds(r.value.deployments) == FirstIds(Replicas(svc)) && Shaped(r.value)
  {
    hide ApplyZooKeeper;
    ShapedCount(o);
    ActiveIff(o, svc, secret);
  }

  /** Servers 1, 2 and 4 active, 3 stopped: what a downscale that failed partway can leave. */
  function Gap(d: Deployment): Deployments {
    map[ServerObject(1) := d, ServerObject(2) := d, ServerObject(3) := d.(replicas := 0), ServerObject(4) := d]
  }

  lemma GapActive(d: Deployment)
    requires d.replicas == 1
    ensures ActiveIds(Gap(d)) == {1, 2, 4} && |ActiveIds(Gap(d))| == 3
  {
    forall i ensures i in ActiveIds(Gap(d)) <==> i in {1, 2, 4} {
      ActiveAt(Gap(d), i);
    }
    SameSet(ActiveIds(Gap(d)), {1, 2, 4});
  }

  /** With such a gap, going to 2 servers leaves server 4 active. */
  lemma GapSurvives(d: Deployment, svc: Service, secret: Secret)
    requires d.replicas == 1 && svc.zooKeeper.replicas == 2 && svc.zooKeeper.storage == {}
    requires svc.zooKeeper.snapshots == NoVolume
    ensures var r := ApplyZooKeeper(Objects(map[], map[], Gap(d), map[], 0), svc, secret);
            r.Some? && 4 in ActiveIds(r.value.deployments) && 4 !in FirstIds(2)
  {
    hide ApplyZooKeeper, ActiveIds, FirstIds, ServerDeployment, ServerEndpoint;
    var o := Objects(map[], map[], Gap(d), map[], 0);
    GapActive(d);
    ApplySucceeds(o, svc, secret);
    var r := ApplyZooKeeper(o, svc, secret);
    ApplyAt(o, svc, secret);
    var four := ServerObject(4);
    assert !IsServer(four, 1, 2) && !IsServer(four, 3, 3);
    assert At(r.value.deployments, four) == At(o.deployments, four);
    ActiveAt(r.value.deployments, 4);
  }
}
