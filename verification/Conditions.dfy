/** The status conditions of a ZooKeeperService (operator/controllers/condition.go) and what a
    cycle reports with them (zookeeperservice_controller.go). */
module Conditions {
  import opened Bytes

  datatype Kind = InProgress | Failed | Ready | Successful

  datatype Reason = CycleStatus | ZooKeeperStatus | MonitoringStatus | BackupStatus | TestsStatus

  datatype Message =
    | CycleStarted
    | CycleFailed(error: string)
    | CheckingReadiness
    | CheckFailed
    | CheckSuccessful
    | HealthCheck
    | PodsReady
    | PodsNotReady

  datatype Condition = Condition(kind: Kind, status: bool, reason: Reason, message: Message, time: nat)

  // ---------- the list ----------

  ghost predicate Distinct(list: seq<Condition>) {
    forall i, j :: 0 <= i < j < |list| ==> list[i].reason != list[j].reason
  }

  /** All but the time of two conditions with one reason. */
  predicate Differs(a: Condition, b: Condition) {
    a.kind != b.kind || a.status != b.status || a.message != b.message
  }

  /** The first condition with this reason, or the length of the list. */
  function Find(list: seq<Condition>, reason: Reason): (k: nat)
    ensures k <= |list|
    ensures forall i :: 0 <= i < k ==> list[i].reason != reason
    ensures k < |list| ==> list[k].reason == reason
  {
    if list == [] then 0
    else if list[0].reason == reason then 0
    else 1 + Find(list[1..], reason)
  }

  /** addCondition: one that says the same keeps its transition time. */
  method AddCondition(list: seq<Condition>, c: Condition) returns (out: seq<Condition>)
    ensures out == Add(list, c)
  {
    var i := 0;
    while i < |list|
      invariant 0 <= i <= |list|
      invariant forall j :: 0 <= j < i ==> list[j].reason != c.reason
    {
      if c.reason == list[i].reason {
        if Differs(c, list[i]) {
          return list[i := c];
        }
        return list;
      }
      i := i + 1;
    }
    return list + [c];
  }

  function Add(list: seq<Condition>, c: Condition): seq<Condition> {
    var k := Find(list, c.reason);
    if k == |list| then list + [c]
    else if Differs(c, list[k]) then list[k := c]
    else list
  }

  /** What is said about a reason. */
  function Said(list: seq<Condition>, reason: Reason): Option<Kind> {
    var k := Find(list, reason);
    if k < |list| then Some(list[k].kind) else None
  }

  /** Adding a condition keeps reasons distinct, says what it should, and changes what is said
      about no other reason. */
  lemma AddSays(list: seq<Condition>, c: Condition)
    requires Distinct(list)
    ensures Distinct(Add(list, c))
    ensures Said(Add(list, c), c.reason) == Some(c.kind)
    ensures forall r :: r != c.reason ==> Said(Add(list, c), r) == Said(list, r)
  {
    hide Find;
    var out, k := Add(list, c), Find(list, c.reason);
    assert forall i :: 0 <= i < |list| && i != k ==> out[i] == list[i] && list[i].reason != c.reason;
    FindIs(out, c.reason, k);
    forall r | r != c.reason ensures Said(out, r) == Said(list, r) {
      var m := Find(list, r);
      if m < |list| {
        FindIs(out, r, m);
      } else {
        FindIs(out, r, |out|);
      }
    }
  }

  lemma FindIs(list: seq<Condition>, reason: Reason, k: nat)
    requires k <= |list| && forall i :: 0 <= i < k ==> list[i].reason != reason
    requires k < |list| ==> list[k].reason == reason
    ensures Find(list, reason) == k
  {}

  /** A condition that says the same keeps the time since when it does; one that says something
      else has the new time. */
  lemma AddKeepsTime(list: seq<Condition>, c: Condition)
    requires Distinct(list)
    ensures forall d :: d in list && d.reason == c.reason && !Differs(c, d) ==> Add(list, c) == list
    ensures (forall d :: d in list && d.reason == c.reason ==> Differs(c, d)) ==> c in Add(list, c)
    ensures forall d :: d in list && d.reason != c.reason ==> d in Add(list, c)
    ensures forall d :: d in Add(list, c) ==> d == c || d in list
  {
    hide Find;
    var k := Find(list, c.reason);
    var out := Add(list, c);
    forall d | d in list && d.reason != c.reason ensures d in out {
      var i :| 0 <= i < |list| && list[i] == d;
      assert out[i] == d;
    }
    if k < |list| && Differs(c, list[k]) {
      assert out[k] == c;
    } else if k == |list| {
      assert out[|list|] == c;
    }
    forall d | d in list && d.reason == c.reason ensures k < |list| && d == list[k] {
      var i :| 0 <= i < |list| && list[i] == d;
      assert k <= i;
    }
    if k < |list| {
      assert list[k] in list;
    }
  }

  lemma DiffersIff(a: Condition, b: Condition)
    requires a.reason == b.reason
    ensures Differs(a, b) <==> a.(time := 0) != b.(time := 0)
  {}

  /** The status flag is true for what is good and for nothing else. */
  ghost predicate Truthful(list: seq<Condition>) {
    forall c :: c in list ==> (c.status <==> c.kind == Ready || c.kind == Successful)
  }

  predicate HasFailed(list: seq<Condition>) {
    exists i :: 0 <= i < |list| && list[i].kind == Failed
  }

  lemma HasFailedIff(list: seq<Condition>)
    requires Distinct(list)
    ensures HasFailed(list) <==> exists r :: Said(list, r) == Some(Failed)
  {
    if HasFailed(list) {
      var i :| 0 <= i < |list| && list[i].kind == Failed;
      assert Find(list, list[i].reason) == i;
      assert Said(list, list[i].reason) == Some(Failed);
    }
    forall r | Said(list, r) == Some(Failed) ensures HasFailed(list) {
      assert list[Find(list, r)].kind == Failed;
    }
  }

  // ---------- a cycle's report ----------

  ghost predicate Components(components: seq<Reason>) {
    (forall i :: 0 <= i < |components| ==> components[i] != CycleStatus) &&
    forall i, j :: 0 <= i < j < |components| ==> components[i] != components[j]
  }

  /** What has been said once the first k components have been checked. */
  ghost predicate Checked(list: seq<Condition>, components: seq<Reason>, ready: seq<bool>, k: nat)
    requires k <= |components| == |ready|
  {
    && Distinct(list)
    && Said(list, CycleStatus) == Some(InProgress)
    && (forall i :: 0 <= i < k ==> Said(list, components[i]) == Some(if ready[i] then Ready else Failed))
    && (forall r :: r != CycleStatus && r !in components[..k] ==> Said(list, r).None?)
  }

  /** After the checks something has failed exactly when a component is not ready. */
  lemma FailedIffNotReady(list: seq<Condition>, components: seq<Reason>, ready: seq<bool>)
    requires |components| == |ready| && Checked(list, components, ready, |components|)
    ensures HasFailed(list) <==> exists i :: 0 <= i < |ready| && !ready[i]
  {
    HasFailedIff(list);
    assert components[..|components|] == components;
    if HasFailed(list) {
      var r :| Said(list, r) == Some(Failed);
      assert r in components;
    }
    if exists i :: 0 <= i < |ready| && !ready[i] {
      var i :| 0 <= i < |ready| && !ready[i];
      assert Said(list, components[i]) == Some(Failed);
    }
  }

  // ---------- what is reported over many cycles ----------

  /** What matters for the report between cycles: the spec of the last cycle that succeeded in
      this process, and what the stored status says about the cycle. */
  datatype Report = Report(hashed: Option<string>, said: Option<Kind>)

  /** A restart of the operator, a cycle that succeeded, with the verdict of its readiness checks
      (true without them), or one that failed, with the last thing it got written. */
  datatype Event = Restarted | Done(spec: string, ready: bool) | Broken(spec: string, wrote: Option<Kind>)

  /** isCustomResourceChanged */
  predicate Changed(r: Report, spec: string) {
    r.hashed != Some(spec)
  }

  function Verdict(ready: bool): Kind {
    if ready then Successful else Failed
  }

  function After(r: Report, e: Event): Report {
    match e
    case Restarted => r.(hashed := None)
    case Done(spec, ready) => Report(Some(spec), if Changed(r, spec) then Some(Verdict(ready)) else r.said)
    case Broken(_, wrote) => if wrote.Some? then r.(said := wrote) else r
  }

  function AfterAll(r: Report, events: seq<Event>): Report {
    if events == [] then r else After(AfterAll(r, events[..|events| - 1]), events[|events| - 1])
  }

  /** Event k says something: a cycle with a changed spec that succeeds, or a failed one that
      gets its failure written. */
  predicate Speaks(r: Report, events: seq<Event>, k: nat)
    requires k < |events|
  {
    match events[k]
    case Restarted => false
    case Done(spec, _) => Changed(AfterAll(r, events[..k]), spec)
    case Broken(_, wrote) => wrote.Some?
  }

  /** From c on nothing is said. */
  ghost predicate SilentFrom(r: Report, events: seq<Event>, c: nat) {
    forall k :: c <= k < |events| ==> !Speaks(r, events, k)
  }

  /** Cycle c was the last to say anything, and its verdict was good. */
  ghost predicate GoodSince(r: Report, events: seq<Event>, c: nat) {
    c < |events| && Speaks(r, events, c) && events[c].Done? && events[c].ready && SilentFrom(r, events, c + 1)
  }

  lemma SpeaksPrefix(r: Report, events: seq<Event>, k: nat)
    requires k < |events| - 1
    ensures Speaks(r, events[..|events| - 1], k) == Speaks(r, events, k)
  {
    assert events[..|events| - 1][..k] == events[..k];
  }

  lemma SilentPrefix(r: Report, events: seq<Event>, c: nat)
    requires events != [] && c < |events| && !Speaks(r, events, |events| - 1)
    ensures SilentFrom(r, events[..|events| - 1], c) <==> SilentFrom(r, events, c)
  {
    var most := events[..|events| - 1];
    forall k | 0 <= k < |most| ensures Speaks(r, most, k) == Speaks(r, events, k) {
      SpeaksPrefix(r, events, k);
    }
  }

  /** When the status says that all is well, for every run of restarts and of failed and
      successful cycles: exactly when the last event that said anything is a successful cycle
      with a changed spec and a good verdict (or nothing was said since a good start). So a
      failure that was written stays until a cycle with a changed spec succeeds. */
  lemma {:induction false} ReportIff(r: Report, events: seq<Event>)
    requires forall k :: 0 <= k < |events| && events[k].Broken? ==> events[k].wrote != Some(Successful)
    ensures AfterAll(r, events).said == Some(Successful) <==>
            || (exists c :: GoodSince(r, events, c))
            || (SilentFrom(r, events, 0) && r.said == Some(Successful))
    decreases |events|
  {
    if events != [] {
      var last := |events| - 1;
      var most := events[..last];
      if Speaks(r, events, last) {
        assert GoodSince(r, events, last) <==> events[last].Done? && events[last].ready;
        forall c: nat | c < last ensures !GoodSince(r, events, c) {}
      } else {
        ReportIff(r, most);
        SilentPrefix(r, events, 0);
        forall c: nat | c < last ensures GoodSince(r, most, c) <==> GoodSince(r, events, c) {
          SpeaksPrefix(r, events, c);
          if c + 1 < last {
            SilentPrefix(r, events, c + 1);
          }
        }
        assert forall c :: GoodSince(r, most, c) <==> GoodSince(r, events, c);
      }
    }
  }

  /** The spec is applied, a later cycle for the same spec fails, and the next one succeeds: the
      status still says Failed. A restart in between helps. */
  lemma FailureSticks()
    ensures var start := Report(None, None);
            && AfterAll(start, [Done("a", true), Broken("a", Some(Failed)), Done("a", true)]).said == Some(Failed)
            && AfterAll(start, [Done("a", true), Broken("a", Some(Failed)), Restarted, Done("a", true)]).said ==
               Some(Successful)
  {
    var start := Report(None, None);
    var done, broken, restart := Done("a", true), Broken("a", Some(Failed)), Restarted;
    var one := [done];
    assert one[..0] == [];
    assert AfterAll(start, one) == Report(Some("a"), Some(Successful));
    var two := [done, broken];
    assert two[..1] == one;
    assert AfterAll(start, two) == Report(Some("a"), Some(Failed));
    var three := [done, broken, done];
    assert three[..2] == two;
    var other := [done, broken, restart];
    assert other[..2] == two;
    assert AfterAll(start, other) == Report(None, Some(Failed));
    var four := [done, broken, restart, done];
    assert four[..3] == other;
  }

  // ---------- the cycle as it runs ----------

  /** The stored status, the copy a cycle works on, and the spec it remembers. */
  class Status {
    var stored: seq<Condition>
    var conditions: seq<Condition>
    var hashed: Option<string>
    ghost var history: seq<seq<Condition>>

    /** Reasons are distinct and status flags truthful, now and in every state there has been. */
    ghost predicate Valid()
      reads this
    {
      && Distinct(stored) && Distinct(conditions) && Truthful(stored) && Truthful(conditions)
      && forall i :: 0 <= i < |history| ==> Distinct(history[i]) && Truthful(history[i])
    }

    ghost function Reported(): Report
      reads this
    {
      Report(hashed, Said(stored, CycleStatus))
    }

    constructor ()
      ensures Valid() && stored == [] && conditions == [] && hashed == None
    {
      stored, conditions, hashed, history := [], [], None, [];
    }

    /** updateConditions: `time` is the clock, and writing the status may fail. */
    method Update(kind: Kind, status: bool, reason: Reason, message: Message, time: nat) returns (ok: bool)
      requires Valid() && (status <==> kind == Ready || kind == Successful)
      modifies this`stored, this`conditions, this`history
      ensures Valid() && old(history) <= history
      ensures Said(conditions, reason) == Some(kind)
      ensures forall r :: r != reason ==> Said(conditions, r) == Said(old(conditions), r)
      ensures stored == if ok then conditions else old(stored)
    {
      var c := Condition(kind, status, reason, message, time);
      AddSays(conditions, c);
      AddKeepsTime(conditions, c);
      history := history + [conditions];
      conditions := AddCondition(conditions, c);
      ok := *;
      if ok {
        stored := conditions;
      }
    }

    /** The condition part of a reconcile cycle. `failed` says that reconciling failed, `ready`
        what the wait for each component came to. */
    method Cycle(spec: string, failed: bool, error: string, wait: bool, components: seq<Reason>, ready: seq<bool>,
                 time: nat) returns (ok: bool)
      requires Valid() && Components(components) && |ready| == |components|
      modifies this
      ensures Valid() && old(history) <= history
      ensures ok && Changed(old(Reported()), spec) && wait ==>
                (Said(stored, CycleStatus) == Some(Successful) <==>
                 forall i :: 0 <= i < |components| ==> Said(stored, components[i]) == Some(Ready))
      ensures ok && Changed(old(Reported()), spec) && wait ==>
                forall i :: 0 <= i < |components| ==>
                  Said(stored, components[i]) == Some(if ready[i] then Ready else Failed)
      ensures ok && !Changed(old(Reported()), spec) ==> stored == old(stored)
      ensures ok ==> Reported() == After(old(Reported()),
                                         Done(spec, !wait || forall i :: 0 <= i < |ready| ==> ready[i]))
      ensures !ok ==> exists wrote :: wrote in {None, Some(InProgress), Some(Failed)} &&
                                      Reported() == After(old(Reported()), Broken(spec, wrote))
    {
      hide Find;
      ghost var was := Reported();
      conditions := stored;
      var changed := hashed != Some(spec);
      ok := Apply(changed, failed, error, wait, components, ready, time);
      if ok {
        hashed := Some(spec);
      } else {
        ghost var wrote := if Said(stored, CycleStatus) == was.said then None else Said(stored, CycleStatus);
        assert Reported() == After(was, Broken(spec, wrote));
      }
    }

    /** The same, up to recording the spec. */
    method Apply(changed: bool, failed: bool, error: string, wait: bool, components: seq<Reason>, ready: seq<bool>,
                 time: nat) returns (ok: bool)
      requires Valid() && Components(components) && |ready| == |components| && conditions == stored
      modifies this`stored, this`conditions, this`history
      ensures Valid() && old(history) <= history
      ensures ok && changed ==>
                Said(stored, CycleStatus) == Some(Verdict(!wait || forall i :: 0 <= i < |ready| ==> ready[i]))
      ensures ok && changed && wait ==>
                forall i :: 0 <= i < |components| ==>
                  Said(stored, components[i]) == Some(if ready[i] then Ready else Failed)
      ensures ok && !changed ==> stored == old(stored)
      ensures !ok ==> Said(stored, CycleStatus) in {Said(old(stored), CycleStatus), Some(InProgress), Some(Failed)}
    {
      hide Find, Said, Distinct;
      if changed {
        ok := Start(time);
        if !ok { return; }
      }
      if failed {
        var written := Update(Failed, false, CycleStatus, CycleFailed(error), time);
        return false;
      }
      if !changed {
        return true;
      }
      if wait {
        ok := Update(InProgress, false, CycleStatus, CheckingReadiness, time);
        if !ok { return; }
        ok := CheckAll(components, ready, time);
        if !ok {
          var written := Update(Failed, false, CycleStatus, CycleFailed(error), time);
          return false;
        }
        FailedIffNotReady(conditions, components, ready);
      } else {
        NothingFailed(conditions);
      }
      ok := Judge(time);
    }

    /** A changed spec starts a new list. */
    method Start(time: nat) returns (ok: bool)
      requires Valid()
      modifies this`stored, this`conditions, this`history
      ensures Valid() && old(history) <= history
      ensures Said(conditions, CycleStatus) == Some(InProgress)
      ensures forall r :: r != CycleStatus ==> Said(conditions, r).None?
      ensures stored == if ok then conditions else old(stored)
    {
      history := history + [conditions];
      conditions := [];
      ok := Update(InProgress, false, CycleStatus, CycleStarted, time);
    }

    /** What the cycle reports in the end. */
    method Judge(time: nat) returns (ok: bool)
      requires Valid()
      modifies this`stored, this`conditions, this`history
      ensures Valid() && old(history) <= history
      ensures Said(conditions, CycleStatus) == Some(Verdict(!HasFailed(old(conditions))))
      ensures forall r :: r != CycleStatus ==> Said(conditions, r) == Said(old(conditions), r)
      ensures stored == if ok then conditions else old(stored)
    {
      hide Said, Distinct;
      if HasFailed(conditions) {
        ok := Update(Failed, false, CycleStatus, CheckFailed, time);
      } else {
        ok := Update(Successful, true, CycleStatus, CheckSuccessful, time);
      }
    }

    /** Status() of every component. */
    method CheckAll(components: seq<Reason>, ready: seq<bool>, time: nat) returns (ok: bool)
      requires Valid() && Components(components) && |ready| == |components|
      requires Checked(conditions, components, ready, 0) && Said(stored, CycleStatus) == Some(InProgress)
      modifies this`stored, this`conditions, this`history
      ensures Valid() && old(history) <= history
      ensures Said(stored, CycleStatus) == Some(InProgress)
      ensures ok ==> Checked(conditions, components, ready, |components|)
    {
      hide Checked, Components, Said, Distinct;
      ok := true;
      for k := 0 to |components|
        invariant Valid() && old(history) <= history
        invariant Checked(conditions, components, ready, k) && Said(stored, CycleStatus) == Some(InProgress)
      {
        ok := CheckOne(components, ready, k, time);
        if !ok { return; }
      }
      ok := true;
    }

    method CheckOne(components: seq<Reason>, ready: seq<bool>, k: nat, time: nat) returns (ok: bool)
      requires Valid() && Components(components) && k < |components| == |ready|
      requires Checked(conditions, components, ready, k) && Said(stored, CycleStatus) == Some(InProgress)
      modifies this`stored, this`conditions, this`history
      ensures Valid() && old(history) <= history
      ensures Said(stored, CycleStatus) == Some(InProgress)
      ensures ok ==> Checked(conditions, components, ready, k + 1)
    {
      hide Said, Distinct;
      var r := components[k];
      ghost var before := conditions;
      ok := Update(InProgress, false, r, HealthCheck, time);
      if !ok { return; }
      if ready[k] {
        ok := Update(Ready, true, r, PodsReady, time);
      } else {
        ok := Update(Failed, false, r, PodsNotReady, time);
      }
      if ok {
        CheckedNext(before, conditions, components, ready, k);
      }
    }
  }

  lemma CheckedNext(list: seq<Condition>, out: seq<Condition>, components: seq<Reason>, ready: seq<bool>, k: nat)
    requires Components(components) && k < |components| == |ready| && Checked(list, components, ready, k)
    requires Distinct(out) && Said(out, components[k]) == Some(if ready[k] then Ready else Failed)
    requires forall r :: r != components[k] ==> Said(out, r) == Said(list, r)
    ensures Checked(out, components, ready, k + 1)
  {
    hide Said, Distinct;
    assert components[..k + 1] == components[..k] + [components[k]];
  }

  lemma NothingFailed(list: seq<Condition>)
    requires Distinct(list) && Said(list, CycleStatus) == Some(InProgress)
    requires forall r :: r != CycleStatus ==> Said(list, r).None?
    ensures !HasFailed(list)
  {
    HasFailedIff(list);
  }
}
