/** The annotations of persistent volume claims: the three-way merge of
    operator/controllers/zookeeperservice_reconciler.go and what is left of it over whole runs
    of reconcile cycles, failed ones included. */
module Claims {
  import opened Bytes

  type Annotations = map<string, string>

  /** The claims of the servers, and those known by a name of their own. */
  datatype ClaimName = ServerClaim(id: int) | NamedClaim(name: string)

  type ClaimMap = map<ClaimName, Annotations>

  // ---------- one claim ----------

  /** The annotations of an existing claim after updatePersistentVolumeClaim. A claim without
      annotations is read back with a nil map, and copying into that panics. */
  function Merge(found: Annotations, wanted: Annotations, recorded: Annotations): Option<Annotations> {
    if wanted == recorded then Some(found)
    else if found == map[] && wanted != map[] then None
    else Some((found + wanted) - (recorded.Keys - wanted.Keys))
  }

  /** maps.Copy, then the deletion of recorded keys that are not wanted any more. */
  method MergeClaim(found: Annotations, wanted: Annotations, recorded: Annotations)
    returns (r: Option<Annotations>)
    ensures r == Merge(found, wanted, recorded)
  {
    if wanted == recorded {
      return Some(found);
    }
    if found == map[] && wanted != map[] {
      return None;
    }
    var out, todo := found, wanted.Keys;
    while todo != {}
      invariant todo <= wanted.Keys
      invariant out == found + map k | k in wanted.Keys - todo :: wanted[k]
      decreases todo
    {
      var k :| k in todo;
      out := out[k := wanted[k]];
      todo := todo - {k};
    }
    assert out == found + wanted;
    todo := recorded.Keys;
    while todo != {}
      invariant todo <= recorded.Keys
      invariant out == (found + wanted) - ((recorded.Keys - todo) - wanted.Keys)
      decreases todo
    {
      var k :| k in todo;
      if k !in wanted {
        out := out - {k};
      }
      todo := todo - {k};
    }
    assert recorded.Keys - {} == recorded.Keys;
    return Some(out);
  }

  /** createPersistentVolumeClaim: a missing claim is created with the wanted set. */
  function Visit(claims: ClaimMap, c: ClaimName, wanted: Annotations, recorded: Annotations): Option<ClaimMap> {
    if c !in claims then Some(claims[c := wanted])
    else
      var merged := Merge(claims[c], wanted, recorded);
      if merged.None? then None else Some(claims[c := merged.value])
  }

  // ---------- whose keys are whose ----------

  /** What the operator holds in a claim, `keys` being all keys it ever uses. */
  function Own(a: Annotations, keys: set<string>): Annotations {
    map k | k in a && k in keys :: a[k]
  }

  function Foreign(a: Annotations, keys: set<string>): Annotations {
    map k | k in a && k !in keys :: a[k]
  }

  /** A merge never touches a foreign annotation. */
  lemma MergeKeepsForeign(found: Annotations, wanted: Annotations, recorded: Annotations, keys: set<string>)
    requires wanted.Keys <= keys && recorded.Keys <= keys
    ensures var r := Merge(found, wanted, recorded);
            r.Some? ==> Foreign(r.value, keys) == Foreign(found, keys)
  {}

  /** A merge leaves exactly the wanted set exactly when every operator key it finds is either
      wanted or recorded; when the wanted set is the recorded one it must already be there. */
  lemma MergeExactIff(found: Annotations, wanted: Annotations, recorded: Annotations, keys: set<string>)
    requires wanted.Keys <= keys && recorded.Keys <= keys
    ensures var r := Merge(found, wanted, recorded);
            r.Some? ==>
              (Own(r.value, keys) == wanted <==>
               if wanted == recorded then Own(found, keys) == wanted
               else Own(found, keys).Keys <= wanted.Keys + recorded.Keys)
  {
    var r := Merge(found, wanted, recorded);
    if r.Some? && wanted != recorded {
      var out := r.value;
      forall k | k in keys
        ensures k in out <==> k in wanted || (k in found && k !in recorded)
        ensures k in wanted ==> k in out && out[k] == wanted[k]
      {}
      if Own(found, keys).Keys <= wanted.Keys + recorded.Keys {
        forall k ensures k in Own(out, keys) <==> k in wanted {
          assert k in found && k in keys ==> k in Own(found, keys).Keys;
        }
        assert Own(out, keys) == wanted;
      }
      if Own(out, keys) == wanted {
        forall k | k in Own(found, keys) ensures k in wanted.Keys + recorded.Keys {
          assert k in Own(out, keys) || k in recorded;
        }
      }
    }
  }

  lemma MergeTwice(found: Annotations, wanted: Annotations, recorded: Annotations)
    requires Merge(found, wanted, recorded).Some?
    ensures var once := Merge(found, wanted, recorded).value;
            Merge(once, wanted, recorded) == Some(once)
  {
    var once := Merge(found, wanted, recorded).value;
    if wanted != recorded {
      assert forall k :: k in wanted ==> k in once;
      assert once == map[] ==> wanted == map[];
      assert (once + wanted) - (recorded.Keys - wanted.Keys) == once;
    }
  }

  lemma MergeWanted(wanted: Annotations, recorded: Annotations)
    ensures Merge(wanted, wanted, recorded) == Some(wanted)
  {
    assert (wanted + wanted) - (recorded.Keys - wanted.Keys) == wanted;
  }

  // ---------- one cycle ----------

  /** One claim during a cycle, finished or not: untouched, merged, or new. */
  ghost predicate ClaimProgress(before: ClaimMap, after: ClaimMap, c: ClaimName,
                                wanted: Annotations, recorded: Annotations)
  {
    if c in before then
      c in after && (after[c] == before[c] || Merge(before[c], wanted, recorded) == Some(after[c]))
    else c in after ==> after[c] == wanted
  }

  /** Any part of a cycle, a failed one included. */
  ghost predicate Progress(before: ClaimMap, after: ClaimMap, wanted: Annotations, recorded: Annotations) {
    forall c :: ClaimProgress(before, after, c, wanted, recorded)
  }

  lemma ProgressSame(claims: ClaimMap, wanted: Annotations, recorded: Annotations)
    ensures Progress(claims, claims, wanted, recorded)
  {}

  lemma VisitProgress(claims: ClaimMap, c: ClaimName, wanted: Annotations, recorded: Annotations)
    requires Visit(claims, c, wanted, recorded).Some?
    ensures Progress(claims, Visit(claims, c, wanted, recorded).value, wanted, recorded)
  {}

  lemma ProgressTrans(a: ClaimMap, b: ClaimMap, d: ClaimMap, wanted: Annotations, recorded: Annotations)
    requires Progress(a, b, wanted, recorded) && Progress(b, d, wanted, recorded)
    ensures Progress(a, d, wanted, recorded)
  {
    forall c ensures ClaimProgress(a, d, c, wanted, recorded) {
      assert ClaimProgress(a, b, c, wanted, recorded) && ClaimProgress(b, d, c, wanted, recorded);
      MergeWanted(wanted, recorded);
      if c in a && Merge(a[c], wanted, recorded) == Some(b[c]) {
        MergeTwice(a[c], wanted, recorded);
      }
    }
  }

  /** A cycle that reached the end visited each of these claims. */
  ghost predicate Visited(after: ClaimMap, visited: set<ClaimName>, wanted: Annotations, recorded: Annotations) {
    forall c :: c in visited ==> c in after && Merge(after[c], wanted, recorded) == Some(after[c])
  }

  // ---------- whole runs ----------

  /** What happens to the claims and to the set recorded in the status: others change their own
      annotations or delete claims, a cycle fails somewhere (perhaps after recording what it
      wanted), or a cycle succeeds. */
  datatype Event = Others | Failed(wanted: Annotations) | Succeeded(wanted: Annotations)

  datatype State = State(claims: ClaimMap, recorded: Annotations)

  ghost predicate Step(s: State, e: Event, s': State, visited: set<ClaimName>, keys: set<string>) {
    match e
    case Others =>
      s'.recorded == s.recorded && forall c :: c in s'.claims ==>
        c in s.claims && Own(s'.claims[c], keys) == Own(s.claims[c], keys)
    case Failed(wanted) =>
      wanted.Keys <= keys && Progress(s.claims, s'.claims, wanted, s.recorded) &&
      (s'.recorded == s.recorded ||
       (s'.recorded == wanted && Visited(s'.claims, visited, wanted, s.recorded)))
    case Succeeded(wanted) =>
      wanted.Keys <= keys && s'.recorded == wanted && Progress(s.claims, s'.claims, wanted, s.recorded) &&
      Visited(s'.claims, visited, wanted, s.recorded)
  }

  /** A run: states, and the event between each two. */
  ghost predicate Run(states: seq<State>, events: seq<Event>, visited: set<ClaimName>, keys: set<string>) {
    |states| == |events| + 1 &&
    forall i :: 0 <= i < |events| ==> Step(states[i], events[i], states[i + 1], visited, keys)
  }

  /** Each wanted set is retried until a cycle with it succeeds: after a failed cycle the next
      one wants the same. */
  ghost predicate Retried(events: seq<Event>) {
    forall i, j ::
      0 <= i < j < |events| && events[i].Failed? && NoCycleBetween(events, i, j) && !events[j].Others?
      ==> events[j].wanted == events[i].wanted
  }

  ghost predicate NoCycleBetween(events: seq<Event>, i: int, j: int)
    requires 0 <= i < j < |events|
  {
    forall k :: i < k < j ==> events[k].Others?
  }

  /** The set a failed cycle left behind, if it has not succeeded yet. */
  ghost function Pending(events: seq<Event>): Option<Annotations> {
    if events == [] then None
    else
      match events[|events| - 1]
      case Others => Pending(events[..|events| - 1])
      case Failed(wanted) => Some(wanted)
      case Succeeded(_) => None
  }

  /** Between cycles a claim holds what was recorded or, after a failed cycle, what is pending. */
  ghost predicate Holds(s: State, pending: Option<Annotations>, c: ClaimName, keys: set<string>) {
    c in s.claims ==>
    (Own(s.claims[c], keys) == s.recorded || (pending.Some? && Own(s.claims[c], keys) == pending.value))
  }

  lemma OwnOfOwn(a: Annotations, keys: set<string>)
    requires a.Keys <= keys
    ensures Own(a, keys) == a
  {}

  /** One cycle keeps Holds, and ends exact when it succeeds. */
  lemma CycleKeeps(s: State, s': State, wanted: Annotations, pending: Option<Annotations>,
                   c: ClaimName, keys: set<string>)
    requires wanted.Keys <= keys && s.recorded.Keys <= keys
    requires Holds(s, pending, c, keys) && (pending.Some? ==> pending.value == wanted)
    requires ClaimProgress(s.claims, s'.claims, c, wanted, s.recorded)
    ensures c in s'.claims ==> Own(s'.claims[c], keys) in {s.recorded, wanted}
    ensures c in s'.claims && Merge(s'.claims[c], wanted, s.recorded) == Some(s'.claims[c]) ==>
              Own(s'.claims[c], keys) == wanted
  {
    OwnOfOwn(wanted, keys);
    if c in s.claims {
      MergeExactIff(s.claims[c], wanted, s.recorded, keys);
    }
    if c in s'.claims {
      MergeExactIff(s'.claims[c], wanted, s.recorded, keys);
    }
  }

  lemma RetriedPrefix(events: seq<Event>)
    requires events != [] && Retried(events)
    ensures Retried(events[..|events| - 1])
  {
    var most := events[..|events| - 1];
    forall i, j | 0 <= i < j < |most| && most[i].Failed? && NoCycleBetween(most, i, j) && !most[j].Others?
      ensures most[j].wanted == most[i].wanted
    {
      assert NoCycleBetween(events, i, j) by {
        forall k | i < k < j ensures events[k].Others? {
          assert most[k].Others?;
        }
      }
    }
  }

  /** A cycle wants what is pending. */
  lemma {:induction false} PendingIsNext(events: seq<Event>, k: nat)
    requires k < |events| && Retried(events) && !events[k].Others?
    requires Pending(events[..k]).Some?
    ensures Pending(events[..k]).value == events[k].wanted
  {
    var i := PendingAt(events[..k]);
    assert NoCycleBetween(events, i, k) by {
      forall j | i < j < k ensures events[j].Others? {
        assert events[..k][j].Others?;
      }
    }
  }

  lemma {:induction false} PendingAt(events: seq<Event>) returns (i: nat)
    requires Pending(events).Some?
    ensures i < |events| && events[i].Failed? && events[i].wanted == Pending(events).value
    ensures forall j :: i < j < |events| ==> events[j].Others?
  {
    var last := |events| - 1;
    if events[last].Others? {
      i := PendingAt(events[..last]);
      forall j | i < j < |events| ensures events[j].Others? {
        if j < last { assert events[..last][j].Others?; }
      }
    } else {
      i := last;
    }
  }

  /** The invariant of every run in which wanted sets are retried. */
  lemma {:induction false} RunHolds(states: seq<State>, events: seq<Event>, visited: set<ClaimName>,
                                    keys: set<string>, c: ClaimName)
    requires Run(states, events, visited, keys) && Retried(events)
    requires c in visited && states[0].recorded.Keys <= keys && Holds(states[0], None, c, keys)
    ensures var s := states[|events|];
            s.recorded.Keys <= keys && Holds(s, Pending(events), c, keys)
    ensures events != [] && events[|events| - 1].Succeeded? ==>
              c in states[|events|].claims &&
              Own(states[|events|].claims[c], keys) == events[|events| - 1].wanted
    decreases |events|
  {
    if events != [] {
      var last := |events| - 1;
      var most, before := events[..last], states[..last + 1];
      assert Run(before, most, visited, keys) by {
        forall i | 0 <= i < |most| ensures Step(before[i], most[i], before[i + 1], visited, keys) {
          assert Step(states[i], events[i], states[i + 1], visited, keys);
        }
      }
      RetriedPrefix(events);
      RunHolds(before, most, visited, keys, c);
      var s, s' := states[last], states[last + 1];
      assert Step(s, events[last], s', visited, keys);
      if !events[last].Others? {
        if Pending(most).Some? {
          PendingIsNext(events, last);
        }
        assert ClaimProgress(s.claims, s'.claims, c, events[last].wanted, s.recorded);
        CycleKeeps(s, s', events[last].wanted, Pending(most), c, keys);
      }
    }
  }

  /** Over every run in which each wanted set is retried until it succeeds, a claim that the
      cycles visit ends each successful cycle with exactly the wanted set beside what others
      put there, which no cycle changes: no stale operator key survives. */
  lemma ExactAfterSuccess(states: seq<State>, events: seq<Event>, visited: set<ClaimName>,
                          keys: set<string>, c: ClaimName)
    requires Run(states, events, visited, keys) && Retried(events) && events != []
    requires c in visited && states[0].recorded.Keys <= keys && Holds(states[0], None, c, keys)
    requires events[|events| - 1].Succeeded?
    ensures var s, s', wanted := states[|events| - 1], states[|events|], events[|events| - 1].wanted;
            var others := if c in s.claims then Foreign(s.claims[c], keys) else map[];
            c in s'.claims && s'.claims[c] == others + wanted
  {
    var last := |events| - 1;
    RunHolds(states, events, visited, keys, c);
    var s, s', wanted := states[last], states[last + 1], events[last].wanted;
    assert s.recorded.Keys <= keys by {
      var most, before := events[..last], states[..last + 1];
      assert Run(before, most, visited, keys) by {
        forall i | 0 <= i < |most| ensures Step(before[i], most[i], before[i + 1], visited, keys) {
          assert Step(states[i], events[i], states[i + 1], visited, keys);
        }
      }
      RetriedPrefix(events);
      RunHolds(before, most, visited, keys, c);
    }
    assert Step(s, events[last], s', visited, keys);
    assert ClaimProgress(s.claims, s'.claims, c, wanted, s.recorded);
    if c in s.claims {
      MergeKeepsForeign(s.claims[c], wanted, s.recorded, keys);
    }
    OwnAndForeign(s'.claims[c], keys);
    assert c !in s.claims ==> Foreign(s'.claims[c], keys) == map[];
  }

  lemma OwnAndForeign(a: Annotations, keys: set<string>)
    ensures a == Foreign(a, keys) + Own(a, keys)
  {}

  /** A set applied in a failed cycle and then replaced leaves its keys behind. */
  lemma AbandonedSetStays()
    ensures var start: Annotations, first: Annotations, second: Annotations :=
              map["bound" := "yes"], map["a" := "1"], map["b" := "2"];
            && Merge(start, first, map[]) == Some(start + first)
            && Merge(start + first, second, map[]) == Some(start + first + second)
            && Own(start + first + second, {"a", "b"}) != second
  {
    var start: Annotations, first: Annotations, second: Annotations :=
      map["bound" := "yes"], map["a" := "1"], map["b" := "2"];
    var none: Annotations := map[];
    assert "a" in first && "b" in second && "bound" in start;
    assert "a" !in none && "b" !in none && "bound" !in none;
    assert "bound" in start + first;
    assert start + first + second - (none.Keys - second.Keys) == start + first + second;
    assert start + first - (none.Keys - first.Keys) == start + first;
    var own := Own(start + first + second, {"a", "b"});
    assert "a" != "b";
    assert "a" in own && "a" !in second;
  }
}
