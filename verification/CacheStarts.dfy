/** From which clusters the change-detection cache is sound: exactly from those whose active
    servers are 1..k. */
module CacheStarts {
  import opened Bytes
  import Quorum
  import opened Cluster
  import opened Cycle
  import opened Scaling
  import opened RestartDelivery
  import opened CacheSoundness

  /** From these objects every run of the gated operator without a failed cycle gives what the
      operator without a gate gives. */
  ghost predicate AlwaysSound(o: Objects) {
    forall events :: ValidRun(events) && Exec(World(o, EMPTY_CACHES), events, false).Some? ==>
      SameWorlds(Exec(World(o, EMPTY_CACHES), events, false), Exec(World(o, EMPTY_CACHES), events, true))
  }

  /** A spec with n servers and no volumes, Monitoring or Backup Daemon. */
  function Plain(n: nat): Input {
    Input(Service(GlobalSpec(map[], 0), ZooKeeperSpec(n, "s", {}, NoVolume, false, 0), None, None),
          map["s" := Secret("s", "1", false)], None)
  }

  /** Going to n servers leaves another one active, and the next downscale will not find
      number n + 1 stopped. */
  ghost predicate Exposes(o: Objects, n: nat) {
    var active := ActiveIds(o.deployments);
    && 1 <= n && |active| <= n
    && (exists x :: x in active && !(1 <= x <= n))
    && (n + 1 in active || ServerObject(n + 1) !in o.deployments)
  }

  lemma {:induction false} UpperBound(s: set<int>) returns (b: nat)
    ensures forall x :: x in s ==> x <= b
    decreases |s|
  {
    if s == {} {
      b := 0;
    } else {
      var x := Quorum.Pick(s);
      var c := UpperBound(s - {x});
      b := if x > c then x else c;
      assert forall y :: y in s ==> y == x || y in s - {x};
    }
  }

  lemma AllOfThem<T>(s: set<T>, all: set<T>)
    requires s <= all && |s| == |all|
    ensures s == all
  {
    assert all == s + (all - s);
  }

  lemma ServersInside(s: set<int>)
    requires forall x :: x in s ==> 1 <= x <= |s|
    ensures s == FirstIds(|s|)
  {
    AllOfThem(s, FirstIds(|s|));
  }

  /** Every other start exposes the gate for some number of servers. */
  lemma SomeExposes(o: Objects) returns (n: nat)
    requires !Shaped(o)
    ensures Exposes(o, n)
  {
    var active := ActiveIds(o.deployments);
    var k := |active|;
    if m :| m in active && m > k {
      n := m - 1;
    } else {
      if forall x :: x in active ==> 1 <= x {
        ServersInside(active);
        assert false;
      }
      var ids := set x | x in o.deployments && x.ServerObject? :: x.id;
      var b := UpperBound(ids);
      n := if b > k then b + 1 else k + 1;
      assert ServerObject(n + 1) in o.deployments ==> n + 1 in ids;
      assert n + 1 !in active;
    }
  }

  /** One cycle with a plain spec, gated or not. */
  lemma PlainCycle(w: World, n: nat, always: bool)
    ensures var i := Plain(n);
            var secret := i.secrets["s"];
            var open := always || ZooKeeperChanged(w.caches, i.service, secret);
            var r := RunCycle(w, i, always);
            var p := ApplyZooKeeper(w.objects, i.service, secret);
            open ==> r.Some? == p.Some? &&
                     (r.Some? ==> r.value.objects.deployments == p.value.deployments)
  {
    hide ApplyZooKeeper, RecordVersions;
    var i := Plain(n);
    var p := ApplyZooKeeper(w.objects, i.service, i.secrets["s"]);
    if p.Some? {
      NoStamps(p.value, [i.secrets["s"]], Replicas(i.service));
    }
  }

  lemma {:induction false} NoStamps(o: Objects, secrets: seq<Secret>, n: nat)
    requires |secrets| == 1 && !secrets[0].autoRestart
    ensures StampServers(o, secrets, n) == o
  {
    if n > 0 {
      NoStamps(o, secrets, n - 1);
      assert forall stamps :: Stamp(stamps, secrets) == stamps;
    }
  }

  /** The active servers once a number of servers that stops nobody has been applied. */
  lemma ActiveAfter(o: Objects, p: Objects, n: nat, i: int)
    requires n >= 1 && |ActiveIds(o.deployments)| <= n
    requires Applied(o, p, Plain(n).service, Plain(n).secrets["s"])
    ensures i in ActiveIds(p.deployments) <==> 1 <= i <= n || i in ActiveIds(o.deployments)
  {
    ActiveAt(o.deployments, i);
    ActiveAt(p.deployments, i);
    hide ActiveIds;
    assert IsServer(ServerObject(i), 1, n) <==> 1 <= i <= n;
    assert !IsServer(ServerObject(i), n + 1, |ActiveIds(o.deployments)|);
  }

  lemma OneMore<T>(first: set<T>, all: set<T>, x: T)
    requires first <= all && x in all && x !in first
    ensures |all| > |first|
  {
    assert x in all - first;
    assert all == first + (all - first);
  }

  lemma AppliedExposed(o: Objects, n: nat)
    requires Exposes(o, n)
    ensures var r := ApplyZooKeeper(o, Plain(n).service, Plain(n).secrets["s"]);
            && r.Some? && |ActiveIds(r.value.deployments)| > n
            && (n + 1 in ActiveIds(r.value.deployments) || ServerObject(n + 1) !in r.value.deployments)
  {
    hide ApplyZooKeeper, ActiveIds, FirstIds;
    var svc, secret := Plain(n).service, Plain(n).secrets["s"];
    ApplySucceeds(o, svc, secret);
    ApplyAt(o, svc, secret);
    var p := ApplyZooKeeper(o, svc, secret).value;
    assert At(p.deployments, ServerObject(n + 1)) == At(o.deployments, ServerObject(n + 1));
    var active, after := ActiveIds(o.deployments), ActiveIds(p.deployments);
    forall i ensures i in after <==> 1 <= i <= n || i in active {
      ActiveAfter(o, p, n, i);
    }
    hide Applied;
    var x :| x in active && !(1 <= x <= n);
    OneMore(FirstIds(n), after, x);
  }

  /** Applying the same spec once more stops server n + 1, or fails because it is missing. */
  lemma AppliedAgain(p: Objects, n: nat)
    requires n >= 1 && |ActiveIds(p.deployments)| > n
    requires n + 1 in ActiveIds(p.deployments) || ServerObject(n + 1) !in p.deployments
    ensures var r := ApplyZooKeeper(p, Plain(n).service, Plain(n).secrets["s"]);
            r.Some? ==> r.value.deployments != p.deployments
  {
    var svc, secret := Plain(n).service, Plain(n).secrets["s"];
    ApplySucceeds(p, svc, secret);
    ApplyAt(p, svc, secret);
    hide ApplyZooKeeper;
    var r := ApplyZooKeeper(p, svc, secret);
    if r.Some? {
      ActiveAt(p.deployments, n + 1);
      assert ServerObject(n + 1) in p.deployments;
      assert IsServer(ServerObject(n + 1), n + 1, |ActiveIds(p.deployments)|);
      assert At(r.value.deployments, ServerObject(n + 1)) == Stopped(At(p.deployments, ServerObject(n + 1)));
    }
  }

  /** The first cycle, and what an operator without a gate makes of the second. */
  lemma SecondCycleDiffers(o: Objects, n: nat)
    requires Exposes(o, n)
    ensures var r := RunCycle(World(o, EMPTY_CACHES), Plain(n), false);
            r.Some? && !SameWorlds(r, RunCycle(r.value, Plain(n), true))
  {
    hide RunCycle, ApplyZooKeeper, ActiveIds;
    AppliedExposed(o, n);
    PlainCycle(World(o, EMPTY_CACHES), n, false);
    var u := RunCycle(World(o, EMPTY_CACHES), Plain(n), false).value;
    AppliedAgain(u.objects, n);
    PlainCycle(u, n, true);
  }

  /** Asking twice for an exposing number of servers: the gated operator does nothing the second
      time, the other one stops a server or fails. */
  lemma Unsound(o: Objects, n: nat)
    requires Exposes(o, n)
    ensures !AlwaysSound(o)
  {
    var w, i := World(o, EMPTY_CACHES), Plain(n);
    var two := [Cycles(i), Cycles(i)];
    assert ValidRun(two);
    hide RunCycle, Exposes, Plain, ValidRun, SameWorlds;
    SecondCycleDiffers(o, n);
    QuietCycle(w, n);
    FirstCycles(w, i);
    TwoCycles(w, i, false);
    TwoCycles(w, i, true);
  }

  lemma QuietCycle(w: World, n: nat)
    ensures var r := RunCycle(w, Plain(n), false);
            r.Some? ==> RunCycle(r.value, Plain(n), false) == r
  {
    assert ValidInput(Plain(n));
    hide RunCycle, ValidInput, Plain;
    CycleIsQuiet(w, Plain(n), false);
  }

  /** With empty memory the gate is open. */
  lemma FirstCycles(w: World, i: Input)
    requires w.caches == EMPTY_CACHES
    ensures RunCycle(w, i, true) == RunCycle(w, i, false)
  {
    hide ApplyZooKeeper, StampServers, ReconcileMonitoring, ReconcileBackup, RecordVersions;
  }

  lemma TwoCycles(w: World, i: Input, always: bool)
    ensures Exec(w, [Cycles(i), Cycles(i)], always) ==
            var r := RunCycle(w, i, always);
            if r.None? then None else RunCycle(r.value, i, always)
  {
    hide RunCycle;
    var two := [Cycles(i), Cycles(i)];
    var one := two[..1];
    assert one == [Cycles(i)] && one[..0] == [];
    assert Exec(w, one[..0], always) == Some(w);
    assert Exec(w, one, always) == RunCycle(w, i, always);
  }

  /** The cache is sound over all runs from exactly the clusters with active servers 1..k. */
  lemma CacheSoundIff(o: Objects)
    ensures AlwaysSound(o) <==> Shaped(o)
  {
    if Shaped(o) {
      forall events | ValidRun(events) && Exec(World(o, EMPTY_CACHES), events, false).Some?
        ensures SameWorlds(Exec(World(o, EMPTY_CACHES), events, false), Exec(World(o, EMPTY_CACHES), events, true))
      {
        CacheSound(World(o, EMPTY_CACHES), events);
      }
    } else {
      var n := SomeExposes(o);
      Unsound(o, n);
    }
  }

  /** Servers 4, 5 and 6 active, 2 and 3 stopped. */
  function Late(d: Deployment): Objects {
    Objects(map[], map[], map[ServerObject(2) := d.(replicas := 0), ServerObject(3) := d.(replicas := 0),
                              ServerObject(4) := d, ServerObject(5) := d, ServerObject(6) := d], map[], 0)
  }

  lemma LateIsUnsound(d: Deployment)
    requires d.replicas == 1
    ensures ActiveIds(Late(d).deployments) == {4, 5, 6} && !AlwaysSound(Late(d))
  {
    var active := ActiveIds(Late(d).deployments);
    forall i ensures i in active <==> i in {4, 5, 6} {
      ActiveAt(Late(d).deployments, i);
    }
    SameSet(active, {4, 5, 6});
    assert 5 in active && |active| == 3;
    Unsound(Late(d), 3);
  }
}
