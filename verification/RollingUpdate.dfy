/** The rolling update of the ZooKeeper servers, step by step: what is up at every moment of a
    cycle and of its retries (operator/controllers/zookeeper_reconciler.go, lines 138-245). */
module RollingUpdate {
  import opened Cluster
  import opened Cycle
  import opened RestartDelivery
  import opened Scaling

  /** A server's deployment and its status. Servers are numbered from 0 here. */
  datatype Server = Server(deployment: Deployment, readyReplicas: int, updatedReplicas: int)

  function Min(a: int, b: int): int { if a < b then a else b }

  /** isDeploymentReady */
  predicate Ready(s: Server) {
    s.deployment.replicas == Min(s.readyReplicas, s.updatedReplicas)
  }

  /** What a cycle wants: the built and stamped deployments, the secrets they are stamped for,
      and the rollingUpdate switch. */
  datatype Plan = Plan(desired: seq<Deployment>, secrets: seq<Secret>, rollingUpdate: bool)

  ghost predicate ValidPlan(plan: Plan) {
    && |plan.desired| >= 3 && plan.rollingUpdate
    && forall i :: 0 <= i < |plan.desired| ==>
         plan.desired[i].replicas == 1 && Carries(plan.desired[i].stamps, plan.secrets)
  }

  /** The deployments that the ZooKeeper component builds from a spec and a secret. */
  function PlanOf(svc: Service, secret: Secret): (plan: Plan)
    ensures |plan.desired| == Replicas(svc)
    ensures forall i :: 0 <= i < |plan.desired| ==> plan.desired[i] == ServerDeployment(svc, secret, i + 1)
  {
    Plan(seq(Replicas(svc), i => ServerDeployment(svc, secret, i + 1)), [secret], svc.zooKeeper.rollingUpdate)
  }

  /** Every spec with at least three servers and rollingUpdate gives a plan as assumed below. */
  lemma PlanIsValid(svc: Service, secret: Secret)
    requires svc.zooKeeper.replicas >= 3 && svc.zooKeeper.rollingUpdate
    ensures ValidPlan(PlanOf(svc, secret))
  {
    var plan := PlanOf(svc, secret);
    StampCarries(map[], [secret]);
    forall i | 0 <= i < |plan.desired|
      ensures plan.desired[i].replicas == 1 && Carries(plan.desired[i].stamps, plan.secrets)
    {
      assert plan.desired[i] == ServerDeployment(svc, secret, i + 1);
    }
  }

  /** Where a cycle is: between cycles, about to update a server, waiting for its pod to run,
      waiting for it to be ready, or stamping servers at the end. */
  datatype Phase = Idle | Updating(id: nat) | Starting(id: nat) | Waiting(id: nat) | Stamping(id: nat)

  datatype State = State(servers: seq<Server>, phase: Phase, rolling: bool)

  // ---------- the steps ----------

  /** Writing a deployment: pods restart when it differs, otherwise nothing happens. */
  function Write(s: Server, d: Deployment): Server {
    if s.deployment == d then s else Server(d, 0, 0)
  }

  /** The deployments as the cluster lists them, where servers are numbered from 1. */
  function DeploymentsOf(servers: seq<Server>): (d: Deployments)
    ensures forall x :: x in d ==> IsServer(x, 1, |servers|)
    ensures forall x :: IsServer(x, 1, |servers|) ==> x in d && d[x] == servers[x.id - 1].deployment
  {
    if servers == [] then map[]
    else
      var last := |servers| - 1;
      DeploymentsOf(servers[..last])[ServerObject(last + 1) := servers[last].deployment]
  }

  function ActiveCount(servers: seq<Server>): nat {
    |ActiveIds(DeploymentsOf(servers))|
  }

  /** One server more counts if it is active. */
  lemma CountNext(servers: seq<Server>, k: nat)
    requires k < |servers|
    ensures ActiveCount(servers[..k + 1]) ==
            ActiveCount(servers[..k]) + if servers[k].deployment.replicas > 0 then 1 else 0
  {
    hide DeploymentsOf;
    var most, more := DeploymentsOf(servers[..k]), DeploymentsOf(servers[..k + 1]);
    forall i ensures i in ActiveIds(more) <==>
                     i in ActiveIds(most) || (i == k + 1 && servers[k].deployment.replicas > 0)
    {
      assert IsServer(ServerObject(i), 1, k + 1) <==> IsServer(ServerObject(i), 1, k) || i == k + 1;
    }
    assert k + 1 !in ActiveIds(most) by { assert !IsServer(ServerObject(k + 1), 1, k); }
    if servers[k].deployment.replicas > 0 {
      SameSet(ActiveIds(more), ActiveIds(most) + {k + 1});
    } else {
      SameSet(ActiveIds(more), ActiveIds(most));
    }
  }

  predicate RollingInEffect(servers: seq<Server>, plan: Plan) {
    plan.rollingUpdate && !(ActiveCount(servers) <= 2 || ActiveCount(servers) != |plan.desired|)
  }

  function AfterServer(id: nat, n: nat): Phase {
    if id + 1 < n then Updating(id + 1) else Stamping(0)
  }

  /** The cluster moves on: statuses change, but a ready server stays ready. */
  ghost predicate Moves(a: seq<Server>, b: seq<Server>) {
    |a| == |b| && forall i :: 0 <= i < |a| ==>
                    a[i].deployment == b[i].deployment && (Ready(a[i]) ==> Ready(b[i]))
  }

  ghost predicate Step(s: State, t: State, plan: Plan) {
    var n := |plan.desired|;
    || (t == s.(servers := t.servers) && Moves(s.servers, t.servers))
    || t == s.(phase := Idle)
    || (match s.phase
        case Idle =>
          t == s.(phase := Updating(0), rolling := RollingInEffect(s.servers, plan))
        case Updating(id) =>
          id < |s.servers| && id < n &&
          t == s.(servers := s.servers[id := Write(s.servers[id], plan.desired[id])], phase := Starting(id))
        case Starting(id) =>
          t == s.(phase := if s.rolling then Waiting(id) else AfterServer(id, n))
        case Waiting(id) =>
          id < |s.servers| && Ready(s.servers[id]) && t == s.(phase := AfterServer(id, n))
        case Stamping(id) =>
          id < |s.servers| && id < n &&
          t == s.(servers := s.servers[id := Stamped(s.servers[id], plan.secrets)],
                  phase := if id + 1 < n then Stamping(id + 1) else Idle))
  }

  /** The last pass: an update only when a stamp is missing. */
  function Stamped(s: Server, secrets: seq<Secret>): Server {
    Write(s, s.deployment.(stamps := Stamp(s.deployment.stamps, secrets)))
  }

  ghost predicate Run(states: seq<State>, plan: Plan) {
    states != [] && forall i :: 0 <= i < |states| - 1 ==> Step(states[i], states[i + 1], plan)
  }

  // ---------- safety ----------

  /** At most one server is not ready. */
  ghost predicate Safe(servers: seq<Server>) {
    forall i, j :: 0 <= i < |servers| && 0 <= j < |servers| && !Ready(servers[i]) && !Ready(servers[j]) ==> i == j
  }

  /** Servers before one that is not ready already have the wanted deployment. */
  ghost predicate Startable(servers: seq<Server>, plan: Plan) {
    && |servers| == |plan.desired|
    && (forall i :: 0 <= i < |servers| ==> servers[i].deployment.replicas == 1)
    && Safe(servers)
    && forall u, j :: 0 <= j < u < |servers| && !Ready(servers[u]) ==> servers[j].deployment == plan.desired[j]
  }

  ghost predicate DoneBefore(servers: seq<Server>, plan: Plan, k: nat) {
    k <= |servers| && k <= |plan.desired| &&
    forall j :: 0 <= j < k ==> servers[j].deployment == plan.desired[j] && Ready(servers[j])
  }

  ghost predicate Invariant(s: State, plan: Plan) {
    && Startable(s.servers, plan)
    && (s.phase.Idle? || s.rolling)
    && (s.phase.Stamping? ==> s.phase.id < |plan.desired| && DoneBefore(s.servers, plan, |plan.desired|))
    && (s.phase.Updating? || s.phase.Starting? || s.phase.Waiting? ==>
          s.phase.id < |plan.desired| && DoneBefore(s.servers, plan, s.phase.id))
    && (s.phase.Starting? || s.phase.Waiting? ==>
          s.servers[s.phase.id].deployment == plan.desired[s.phase.id])
  }

  lemma AllActive(servers: seq<Server>)
    requires forall i :: 0 <= i < |servers| ==> servers[i].deployment.replicas == 1
    ensures ActiveCount(servers) == |servers|
  {
    hide DeploymentsOf;
    var active := ActiveIds(DeploymentsOf(servers));
    forall i ensures i in active <==> 1 <= i <= |servers| {
      assert IsServer(ServerObject(i), 1, |servers|) <==> 1 <= i <= |servers|;
    }
    SameSet(active, FirstIds(|servers|));
  }

  lemma MovesKeeps(s: State, t: State, plan: Plan)
    requires Invariant(s, plan) && t == s.(servers := t.servers) && Moves(s.servers, t.servers)
    ensures Invariant(t, plan)
  {
    assert forall i :: 0 <= i < |t.servers| ==> t.servers[i].deployment == s.servers[i].deployment;
    assert forall i :: 0 <= i < |t.servers| && !Ready(t.servers[i]) ==> !Ready(s.servers[i]);
  }

  /** The heart of it: whoever is written while someone is down is that someone. */
  lemma WriteKeeps(s: State, plan: Plan)
    requires ValidPlan(plan) && Invariant(s, plan) && s.phase.Updating?
    ensures var id := s.phase.id;
            var servers := s.servers[id := Write(s.servers[id], plan.desired[id])];
            Invariant(s.(servers := servers, phase := Starting(id)), plan)
  {
    var id := s.phase.id;
    var servers := s.servers[id := Write(s.servers[id], plan.desired[id])];
    if s.servers[id].deployment == plan.desired[id] {
      assert servers == s.servers;
    } else {
      forall i | 0 <= i < |servers| && i != id ensures Ready(servers[i]) && servers[i] == s.servers[i] {}
    }
  }

  lemma StampKeeps(s: State, plan: Plan)
    requires ValidPlan(plan) && Invariant(s, plan) && s.phase.Stamping?
    ensures Stamped(s.servers[s.phase.id], plan.secrets) == s.servers[s.phase.id]
  {
    var id := s.phase.id;
    assert s.servers[id].deployment == plan.desired[id];
    CarriedStampIsSame(plan.desired[id].stamps, plan.secrets);
  }

  lemma StepKeeps(s: State, t: State, plan: Plan)
    requires ValidPlan(plan) && Invariant(s, plan) && Step(s, t, plan)
    ensures Invariant(t, plan)
    ensures s.phase.Stamping? && t.phase != s.phase ==> t.servers == s.servers
  {
    if t == s.(servers := t.servers) && Moves(s.servers, t.servers) {
      MovesKeeps(s, t, plan);
    } else if t != s.(phase := Idle) {
      match s.phase {
        case Idle =>
          AllActive(s.servers);
        case Updating(id) =>
          WriteKeeps(s, plan);
        case Stamping(id) =>
          StampKeeps(s, plan);
          assert s.servers[id := s.servers[id]] == s.servers;
        case _ =>
      }
    }
  }

  function ReadyCount(servers: seq<Server>): nat {
    if servers == [] then 0
    else ReadyCount(servers[..|servers| - 1]) + if Ready(servers[|servers| - 1]) then 1 else 0
  }

  lemma {:induction false} AllReadyCount(servers: seq<Server>)
    requires forall i :: 0 <= i < |servers| ==> Ready(servers[i])
    ensures ReadyCount(servers) == |servers|
  {
    if servers != [] {
      AllReadyCount(servers[..|servers| - 1]);
    }
  }

  lemma {:induction false} SafeCount(servers: seq<Server>)
    requires Safe(servers)
    ensures ReadyCount(servers) >= |servers| - 1
  {
    if servers != [] {
      var last := |servers| - 1;
      if Ready(servers[last]) {
        SafeCount(servers[..last]);
      } else {
        forall i | 0 <= i < last ensures Ready(servers[i]) {}
        AllReadyCount(servers[..last]);
      }
    }
  }

  lemma {:induction false} RunKeeps(states: seq<State>, plan: Plan)
    requires ValidPlan(plan) && Run(states, plan) && Invariant(states[0], plan)
    ensures forall i :: 0 <= i < |states| ==> Invariant(states[i], plan)
  {
    hide Invariant, Step;
    if |states| > 1 {
      var most := states[..|states| - 1];
      assert Run(most, plan) by {
        forall i | 0 <= i < |most| - 1 ensures Step(most[i], most[i + 1], plan) {
          assert Step(states[i], states[i + 1], plan);
        }
      }
      RunKeeps(most, plan);
      assert Invariant(most[|most| - 1], plan);
      StepKeeps(states[|states| - 2], states[|states| - 1], plan);
    }
  }

  /** Rolling safety: from servers that are all ready, at every step of a cycle and of any
      number of retries at most one server is not ready, so a majority is up, and the last
      pass restarts nobody. */
  lemma RollingSafety(states: seq<State>, plan: Plan)
    requires ValidPlan(plan) && Run(states, plan) && states[0].phase.Idle?
    requires |states[0].servers| == |plan.desired|
    requires forall i :: 0 <= i < |plan.desired| ==>
               Ready(states[0].servers[i]) && states[0].servers[i].deployment.replicas == 1
    ensures forall k :: 0 <= k < |states| ==>
              Safe(states[k].servers) && ReadyCount(states[k].servers) >= |plan.desired| / 2 + 1
    ensures forall k :: 0 <= k < |states| - 1 && states[k].phase.Stamping? && states[k + 1].phase != states[k].phase ==>
              states[k + 1].servers == states[k].servers
  {
    RunKeeps(states, plan);
    forall k | 0 <= k < |states|
      ensures Safe(states[k].servers) && ReadyCount(states[k].servers) >= |plan.desired| / 2 + 1
    {
      SafeCount(states[k].servers);
    }
    forall k | 0 <= k < |states| - 1 && states[k].phase.Stamping? && states[k + 1].phase != states[k].phase
      ensures states[k + 1].servers == states[k].servers
    {
      StepKeeps(states[k], states[k + 1], plan);
    }
  }

  /** Of a server that counts as ready, the wanted pod is both ready and of the wanted template. */
  lemma ReadyMeans(s: Server)
    requires s.deployment.replicas == 1
    ensures Ready(s) <==> s.readyReplicas >= 1 && s.updatedReplicas >= 1 &&
                          (s.readyReplicas == 1 || s.updatedReplicas == 1)
  {}

  // ---------- when servers are waited for ----------

  /** A cycle waits for servers one by one exactly when it is asked to, at least three servers are
      active, and their number does not change. */
  lemma WaitsIff(s: State, t: State, plan: Plan)
    requires s.phase.Idle? && t.phase == Updating(0) && Step(s, t, plan)
    ensures t.rolling <==>
            && plan.rollingUpdate && |ActiveIds(DeploymentsOf(s.servers))| >= 3
            && |ActiveIds(DeploymentsOf(s.servers))| == |plan.desired|
  {}

  /** With fewer than three servers, or without the switch, no cycle ever waits for readiness. */
  lemma {:induction false} NeverWaits(states: seq<State>, plan: Plan)
    requires Run(states, plan) && states[0].phase.Idle? && (|plan.desired| <= 2 || !plan.rollingUpdate)
    ensures forall k :: 0 <= k < |states| ==> !states[k].phase.Waiting? && (states[k].phase.Idle? || !states[k].rolling)
  {
    if |states| > 1 {
      var most := states[..|states| - 1];
      assert Run(most, plan) by {
        forall i | 0 <= i < |most| - 1 ensures Step(most[i], most[i + 1], plan) {
          assert Step(states[i], states[i + 1], plan);
        }
      }
      NeverWaits(most, plan);
      var s, t := states[|states| - 2], states[|states| - 1];
      assert s == most[|most| - 1] && Step(s, t, plan);
      hide ActiveCount;
    }
  }

  // ---------- exactly when it is safe ----------

  /** Every run that starts between cycles with these servers is safe. */
  ghost predicate AlwaysSafe(servers: seq<Server>, plan: Plan) {
    forall states: seq<State> :: Run(states, plan) && states[0] == State(servers, Idle, false) ==>
      forall k :: 0 <= k < |states| ==> Safe(states[k].servers)
  }

  /** A run up to the point where server k is about to be updated, all servers before it being
      as wanted and ready. */
  lemma {:induction false} RunTo(servers: seq<Server>, plan: Plan, k: nat) returns (states: seq<State>)
    requires ValidPlan(plan) && |servers| == |plan.desired| && k < |servers|
    requires forall i :: 0 <= i < |servers| ==> servers[i].deployment.replicas == 1
    requires DoneBefore(servers, plan, k)
    ensures Run(states, plan) && states[0] == State(servers, Idle, false)
    ensures states[|states| - 1] == State(servers, Updating(k), true)
    decreases k
  {
    if k == 0 {
      AllActive(servers);
      states := [State(servers, Idle, false), State(servers, Updating(0), true)];
    } else {
      var before := RunTo(servers, plan, k - 1);
      var a, b := State(servers, Starting(k - 1), true), State(servers, Waiting(k - 1), true);
      var c := State(servers, Updating(k), true);
      assert servers[k - 1 := Write(servers[k - 1], plan.desired[k - 1])] == servers;
      Extend(before, a, plan);
      Extend(before + [a], b, plan);
      Extend(before + [a] + [b], c, plan);
      states := before + [a] + [b] + [c];
    }
  }

  lemma Extend(states: seq<State>, t: State, plan: Plan)
    requires Run(states, plan) && Step(states[|states| - 1], t, plan)
    ensures Run(states + [t], plan)
  {
    hide Step;
    var all := states + [t];
    forall i | 0 <= i < |all| - 1 ensures Step(all[i], all[i + 1], plan) {
      if i < |states| - 1 {
        assert Step(states[i], states[i + 1], plan);
      }
    }
  }

  /** A rolling update towards given deployments is safe exactly when at most one server is
      down and every server before it already has the wanted deployment: so wanting other
      templates for those after a cycle that timed out is what can take a second one down. */
  lemma SafeIff(servers: seq<Server>, plan: Plan)
    requires ValidPlan(plan) && |servers| == |plan.desired|
    requires forall i :: 0 <= i < |servers| ==> servers[i].deployment.replicas == 1
    ensures AlwaysSafe(servers, plan) <==> Startable(servers, plan)
  {
    if Startable(servers, plan) {
      forall states: seq<State> | Run(states, plan) && states[0] == State(servers, Idle, false)
        ensures forall k :: 0 <= k < |states| ==> Safe(states[k].servers)
      {
        RunKeeps(states, plan);
        assert forall k :: 0 <= k < |states| ==> Invariant(states[k], plan);
      }
    } else {
      UnsafeRun(servers, plan);
    }
  }

  lemma UnsafeRun(servers: seq<Server>, plan: Plan)
    requires ValidPlan(plan) && |servers| == |plan.desired| && !Startable(servers, plan)
    requires forall i :: 0 <= i < |servers| ==> servers[i].deployment.replicas == 1
    ensures !AlwaysSafe(servers, plan)
  {
    var start := State(servers, Idle, false);
    if !Safe(servers) {
      assert Run([start], plan);
      assert [start][0] == start && !Safe([start][0].servers);
    } else {
      var u, j :| 0 <= j < u < |servers| && !Ready(servers[u]) && servers[j].deployment != plan.desired[j];
      var k := FirstDifferent(servers, plan, j);
      forall i | 0 <= i < k ensures Ready(servers[i]) {
        assert !Ready(servers[i]) ==> i == u;
      }
      var states := RunTo(servers, plan, k);
      var t := State(servers[k := Write(servers[k], plan.desired[k])], Starting(k), true);
      Extend(states, t, plan);
      var all := states + [t];
      assert !Ready(t.servers[k]) && !Ready(t.servers[u]);
      assert all[0] == start && all[|states|] == t && !Safe(t.servers);
    }
  }

  lemma FirstDifferent(servers: seq<Server>, plan: Plan, j: nat) returns (k: nat)
    requires |servers| == |plan.desired| && j < |servers| && servers[j].deployment != plan.desired[j]
    ensures k <= j && servers[k].deployment != plan.desired[k]
    ensures forall i :: 0 <= i < k ==> servers[i].deployment == plan.desired[i]
  {
    k := 0;
    while servers[k].deployment == plan.desired[k]
      invariant k <= j
      invariant forall i :: 0 <= i < k ==> servers[i].deployment == plan.desired[i]
      decreases j - k
    {
      k := k + 1;
    }
  }

  // ---------- how an unsafe start comes about ----------

  /** The servers once the first k have been updated and are ready. */
  function Rolled(servers: seq<Server>, plan: Plan, k: nat): (r: seq<Server>)
    requires |servers| == |plan.desired| && k <= |servers|
    ensures |r| == |servers|
    ensures forall i :: 0 <= i < k ==>
              r[i] == if servers[i].deployment == plan.desired[i] then servers[i] else Server(plan.desired[i], 1, 1)
    ensures forall i :: k <= i < |servers| ==> r[i] == servers[i]
  {
    if k == 0 then servers
    else
      var before := Rolled(servers, plan, k - 1);
      if servers[k - 1].deployment == plan.desired[k - 1] then before
      else before[k - 1 := Server(plan.desired[k - 1], 1, 1)]
  }

  ghost predicate AllReady(servers: seq<Server>) {
    forall i :: 0 <= i < |servers| ==> Ready(servers[i]) && servers[i].deployment.replicas == 1
  }

  lemma RolledIsReady(servers: seq<Server>, plan: Plan, k: nat)
    requires ValidPlan(plan) && |servers| == |plan.desired| && k <= |servers| && AllReady(servers)
    ensures AllReady(Rolled(servers, plan, k))
  {
    hide Rolled;
  }

  /** The steps for one server: write it, see its pod run, see it become ready, and go on. */
  lemma RollSteps(servers: seq<Server>, plan: Plan, k: nat)
    requires ValidPlan(plan) && |servers| == |plan.desired| && 0 < k < |servers| && AllReady(servers)
    ensures var a, c := Rolled(servers, plan, k - 1), Rolled(servers, plan, k);
            var b := a[k - 1 := Write(a[k - 1], plan.desired[k - 1])];
            && Step(State(a, Updating(k - 1), true), State(b, Starting(k - 1), true), plan)
            && Step(State(b, Starting(k - 1), true), State(b, Waiting(k - 1), true), plan)
            && Step(State(b, Waiting(k - 1), true), State(c, Waiting(k - 1), true), plan)
            && Step(State(c, Waiting(k - 1), true), State(c, Updating(k), true), plan)
  {
    var a, c := Rolled(servers, plan, k - 1), Rolled(servers, plan, k);
    RolledIsReady(servers, plan, k);
    hide Rolled;
    assert Moves(a[k - 1 := Write(a[k - 1], plan.desired[k - 1])], c);
  }

  /** From servers that are all ready a cycle gets to any server. */
  lemma {:induction false} RollTo(servers: seq<Server>, plan: Plan, k: nat) returns (states: seq<State>)
    requires ValidPlan(plan) && |servers| == |plan.desired| && k < |servers| && AllReady(servers)
    ensures Run(states, plan) && states[0] == State(servers, Idle, false)
    ensures states[|states| - 1] == State(Rolled(servers, plan, k), Updating(k), true)
    decreases k
  {
    if k == 0 {
      AllActive(servers);
      states := [State(servers, Idle, false), State(servers, Updating(0), true)];
    } else {
      var before := RollTo(servers, plan, k - 1);
      var a := Rolled(servers, plan, k - 1);
      var b, c := a[k - 1 := Write(a[k - 1], plan.desired[k - 1])], Rolled(servers, plan, k);
      RollSteps(servers, plan, k);
      hide Rolled, Step, Run, Write;
      Extend(before, State(b, Starting(k - 1), true), plan);
      var s1 := before + [State(b, Starting(k - 1), true)];
      Extend(s1, State(b, Waiting(k - 1), true), plan);
      var s2 := s1 + [State(b, Waiting(k - 1), true)];
      Extend(s2, State(c, Waiting(k - 1), true), plan);
      var s3 := s2 + [State(c, Waiting(k - 1), true)];
      Extend(s3, State(c, Updating(k), true), plan);
      states := s3 + [State(c, Updating(k), true)];
    }
  }

  /** From servers that are all ready: a cycle towards plan a times out on server k, and then a
      plan b that differs from a for a server before k has a run with two servers down. */
  lemma ReplacedPlanIsUnsafe(servers: seq<Server>, a: Plan, b: Plan, j: nat, k: nat) returns (states: seq<State>)
    requires ValidPlan(a) && ValidPlan(b) && |servers| == |a.desired| == |b.desired| && AllReady(servers)
    requires j < k < |servers| && servers[k].deployment != a.desired[k] && a.desired[j] != b.desired[j]
    ensures Run(states, a) && states[0] == State(servers, Idle, false) && states[|states| - 1].phase.Idle?
    ensures Safe(states[|states| - 1].servers) && !AlwaysSafe(states[|states| - 1].servers, b)
  {
    var run := RollTo(servers, a, k);
    RolledIsReady(servers, a, k);
    var up := Rolled(servers, a, k);
    hide Rolled;
    var down := up[k := Write(up[k], a.desired[k])];
    Extend(run, State(down, Starting(k), true), a);
    var s1 := run + [State(down, Starting(k), true)];
    Extend(s1, State(down, Idle, true), a);
    states := s1 + [State(down, Idle, true)];
    assert !Ready(down[k]) && down[j].deployment == a.desired[j];
    assert forall i :: 0 <= i < |down| && i != k ==> Ready(down[i]);
    UnsafeRun(down, b);
  }

  // ---------- the cycle as it runs ----------

  /** The servers, and everything that has happened to them. */
  class ServerCluster {
    var servers: seq<Server>
    ghost var trace: seq<State>

    ghost predicate Valid(plan: Plan, phase: Phase, rolling: bool)
      reads this
    {
      trace != [] && Run(trace, plan) && trace[|trace| - 1] == State(servers, phase, rolling)
    }

    constructor (initial: seq<Server>)
      ensures servers == initial && trace == [State(initial, Idle, false)]
    {
      servers := initial;
      trace := [State(initial, Idle, false)];
    }

    /** Time passes: the status of a server that is not ready may change. */
    method Wait(plan: Plan, ghost phase: Phase, ghost rolling: bool)
      requires Valid(plan, phase, rolling)
      modifies this
      ensures Valid(plan, phase, rolling) && old(trace) <= trace
      ensures Moves(old(servers), servers)
    {
      var id: int, ready: int, updated: int := *, *, *;
      if 0 <= id < |servers| && !Ready(servers[id]) {
        servers := servers[id := Server(servers[id].deployment, ready, updated)];
      }
      Extend(trace, State(servers, phase, rolling), plan);
      trace := trace + [State(servers, phase, rolling)];
    }

    /** The operator goes on to the next phase with the servers as they are now. */
    ghost method Advance(plan: Plan, phase: Phase, rolling: bool)
      requires Run(trace, plan) && Step(trace[|trace| - 1], State(servers, phase, rolling), plan)
      modifies this`trace
      ensures Valid(plan, phase, rolling) && trace == old(trace) + [State(servers, phase, rolling)]
    {
      Extend(trace, State(servers, phase, rolling), plan);
      trace := trace + [State(servers, phase, rolling)];
    }

    method CountActive() returns (count: nat)
      ensures count == ActiveCount(servers)
    {
      count := 0;
      for k := 0 to |servers|
        invariant count == ActiveCount(servers[..k])
      {
        CountNext(servers, k);
        if servers[k].deployment.replicas > 0 {
          count := count + 1;
        }
      }
      assert servers[..|servers|] == servers;
    }

    /** One cycle: update, wait, and go on; any call or wait may fail, which ends the cycle. */
    method Reconcile(plan: Plan) returns (ok: bool)
      requires trace != [] && Valid(plan, Idle, trace[|trace| - 1].rolling) && |servers| == |plan.desired| > 0
      modifies this
      ensures Run(trace, plan) && trace != [] && old(trace) <= trace && |servers| == |plan.desired|
      ensures trace[|trace| - 1] == State(servers, Idle, trace[|trace| - 1].rolling)
      ensures ok ==> |trace| >= 2 && trace[|trace| - 2].phase == Stamping(|plan.desired| - 1)
    {
      hide Run, Step, ActiveCount;
      var count := CountActive();
      var rolling := plan.rollingUpdate;
      if count <= 2 || count != |plan.desired| {
        rolling := false;
      }
      StepToUpdating(trace[|trace| - 1], plan);
      Advance(plan, Updating(0), rolling);
      var id := 0;
      while id < |plan.desired|
        invariant 0 <= id <= |plan.desired| == |servers|
        invariant Valid(plan, if id < |plan.desired| then Updating(id) else Stamping(0), rolling)
        invariant old(trace) <= trace
      {
        ok := UpdateServer(plan, id, rolling);
        if !ok {
          return;
        }
        id := id + 1;
      }
      ok := StampServers(plan, rolling);
    }

    /** One pass of the loop over servers. */
    method UpdateServer(plan: Plan, id: nat, rolling: bool) returns (ok: bool)
      requires Valid(plan, Updating(id), rolling) && id < |plan.desired| == |servers|
      modifies this
      ensures Valid(plan, if ok then AfterServer(id, |plan.desired|) else Idle, rolling)
      ensures old(trace) <= trace && |servers| == |plan.desired|
    {
      ok := *;
      if !ok {
        Advance(plan, Idle, rolling);
        return;
      }
      servers := servers[id := Write(servers[id], plan.desired[id])];
      Advance(plan, Starting(id), rolling);
      Wait(plan, Starting(id), rolling);
      ok := *;
      if !ok {
        Advance(plan, Idle, rolling);
        return;
      }
      if !rolling {
        Advance(plan, AfterServer(id, |plan.desired|), rolling);
        return;
      }
      Advance(plan, Waiting(id), rolling);
      Wait(plan, Waiting(id), rolling);
      ok := Ready(servers[id]);
      if !ok {
        Advance(plan, Idle, rolling);
        return;
      }
      Advance(plan, AfterServer(id, |plan.desired|), rolling);
    }

    /** The last pass over the servers. */
    method StampServers(plan: Plan, rolling: bool) returns (ok: bool)
      requires Valid(plan, Stamping(0), rolling) && 0 < |plan.desired| == |servers|
      modifies this
      ensures Valid(plan, Idle, rolling) && old(trace) <= trace && |servers| == |plan.desired|
      ensures ok ==> |trace| >= 2 && trace[|trace| - 2].phase == Stamping(|plan.desired| - 1)
    {
      hide Run, Stamped, Moves, RollingInEffect;
      var id := 0;
      while id < |plan.desired|
        invariant 0 <= id <= |plan.desired| == |servers|
        invariant Valid(plan, if id < |plan.desired| then Stamping(id) else Idle, rolling)
        invariant old(trace) <= trace
        invariant id == |plan.desired| ==> |trace| >= 2 && trace[|trace| - 2].phase == Stamping(id - 1)
      {
        ok := *;
        if !ok {
          Advance(plan, Idle, rolling);
          return;
        }
        servers := servers[id := Stamped(servers[id], plan.secrets)];
        Advance(plan, if id + 1 < |plan.desired| then Stamping(id + 1) else Idle, rolling);
        id := id + 1;
      }
      ok := true;
    }
  }

  lemma StepToUpdating(s: State, plan: Plan)
    requires s.phase.Idle?
    ensures Step(s, State(s.servers, Updating(0), RollingInEffect(s.servers, plan)), plan)
  {}

  /** A cycle and all its retries, from servers that are all ready. */
  method ReconcileUntilDone(cluster: ServerCluster, plan: Plan, retries: nat) returns (ok: bool)
    requires ValidPlan(plan) && |cluster.servers| == |plan.desired|
    requires cluster.trace == [State(cluster.servers, Idle, false)]
    requires forall i :: 0 <= i < |plan.desired| ==>
               Ready(cluster.servers[i]) && cluster.servers[i].deployment.replicas == 1
    modifies cluster
    ensures forall k :: 0 <= k < |cluster.trace| ==>
              Safe(cluster.trace[k].servers) && ReadyCount(cluster.trace[k].servers) >= |plan.desired| / 2 + 1
    ensures |cluster.servers| == |plan.desired|
    ensures ok ==> forall i :: 0 <= i < |plan.desired| ==>
                     cluster.servers[i].deployment == plan.desired[i] && Ready(cluster.servers[i])
  {
    ok := false;
    ghost var start := cluster.trace[0];
    for attempt := 0 to retries
      invariant Run(cluster.trace, plan) && cluster.trace[0] == start && |cluster.servers| == |plan.desired|
      invariant cluster.trace[|cluster.trace| - 1] ==
                State(cluster.servers, Idle, cluster.trace[|cluster.trace| - 1].rolling)
      invariant ok ==> |cluster.trace| >= 2 &&
                       cluster.trace[|cluster.trace| - 2].phase == Stamping(|plan.desired| - 1)
    {
      if !ok {
        ok := cluster.Reconcile(plan);
      }
    }
    RollingSafety(cluster.trace, plan);
    if ok {
      StampedLast(cluster.trace, plan);
    }
  }

  /** A cycle that gets to its end leaves every server as wanted and ready. */
  lemma StampedLast(states: seq<State>, plan: Plan)
    requires ValidPlan(plan) && Run(states, plan) && states[0].phase.Idle? && |states| >= 2
    requires |states[0].servers| == |plan.desired|
    requires forall i :: 0 <= i < |plan.desired| ==>
               Ready(states[0].servers[i]) && states[0].servers[i].deployment.replicas == 1
    requires states[|states| - 2].phase == Stamping(|plan.desired| - 1) && states[|states| - 1].phase.Idle?
    ensures var servers := states[|states| - 1].servers;
            |servers| == |plan.desired| && forall i :: 0 <= i < |plan.desired| ==>
              servers[i].deployment == plan.desired[i] && Ready(servers[i])
  {
    RunKeeps(states, plan);
    var s, t := states[|states| - 2], states[|states| - 1];
    assert Invariant(s, plan) && Step(s, t, plan);
    StepKeeps(s, t, plan);
  }
}
