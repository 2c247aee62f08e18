/** Hierarchical quorums as the Apache ZooKeeper documentation defines them ("Introduction to
    hierarchical quorums"): a quorum has more than half of the weight in more than half of the
    groups of non-zero weight. */
module Quorum {

  /** The group and the weight of each server. */
  datatype Config = Config(groupOf: map<int, int>, weightOf: map<int, nat>)

  function WeightOf(c: Config, id: int): nat {
    if id in c.weightOf then c.weightOf[id] else 1
  }

  ghost function Pick<T>(s: set<T>): (x: T)
    requires s != {}
    ensures x in s
  {
    var x :| x in s; x
  }

  lemma Apart<T>(a: set<T>, b: set<T>)
    requires a * b == {}
    ensures a !! b
  {
    forall x | x in a ensures x !in b {
      assert x !in a * b;
    }
  }

  ghost function Weight(c: Config, s: set<int>): nat {
    if s == {} then 0
    else
      var x := Pick(s);
      WeightOf(c, x) + Weight(c, s - {x})
  }

  function Members(c: Config, g: int): set<int> {
    set id | id in c.groupOf && c.groupOf[id] == g
  }

  function Groups(c: Config): set<int> {
    set id | id in c.groupOf :: c.groupOf[id]
  }

  ghost predicate Carries(c: Config, q: set<int>, g: int) {
    Weight(c, q * Members(c, g)) > Weight(c, Members(c, g)) / 2
  }

  ghost function Counted(c: Config): set<int> {
    set g | g in Groups(c) && Weight(c, Members(c, g)) > 0
  }

  ghost function Carried(c: Config, q: set<int>): set<int> {
    set g | g in Counted(c) && Carries(c, q, g)
  }

  ghost predicate IsQuorum(c: Config, q: set<int>) {
    |Carried(c, q)| > |Counted(c)| / 2
  }

  // ---------- weights of sets ----------

  lemma {:induction false} WeightRemove(c: Config, s: set<int>, x: int)
    requires x in s
    ensures Weight(c, s) == WeightOf(c, x) + Weight(c, s - {x})
    decreases |s|
  {
    var y := Pick(s);
    if y != x {
      WeightRemove(c, s - {y}, x);
      WeightRemove(c, s - {x}, y);
      assert s - {y} - {x} == s - {x} - {y};
    }
  }

  lemma {:induction false} WeightUnion(c: Config, a: set<int>, b: set<int>)
    requires a !! b
    ensures Weight(c, a + b) == Weight(c, a) + Weight(c, b)
    decreases |a|
  {
    if a == {} {
      assert a + b == b;
    } else {
      var x := Pick(a);
      WeightRemove(c, a, x);
      WeightRemove(c, a + b, x);
      WeightUnion(c, a - {x}, b);
      assert a + b - {x} == (a - {x}) + b;
    }
  }

  lemma WeightSubset(c: Config, a: set<int>, b: set<int>)
    requires a <= b
    ensures Weight(c, a) <= Weight(c, b)
  {
    WeightUnion(c, a, b - a);
    assert a + (b - a) == b;
  }

  lemma {:induction false} WeightUniform(c: Config, s: set<int>, w: nat)
    requires forall x :: x in s ==> WeightOf(c, x) == w
    ensures Weight(c, s) == w * |s|
    decreases |s|
  {
    if s != {} {
      var x := Pick(s);
      WeightRemove(c, s, x);
      WeightUniform(c, s - {x}, w);
    }
  }

  // ---------- any two quorums meet ----------

  lemma MajoritiesMeet(all: set<int>, a: set<int>, b: set<int>)
    requires a <= all && b <= all && |a| > |all| / 2 && |b| > |all| / 2
    ensures exists g :: g in a && g in b
  {
    if a * b == {} {
      Apart(a, b);
      Cardinality(a, b);
      SubsetCardinality(a + b, all);
    } else {
      var g := Pick(a * b);
    }
  }

  lemma Cardinality(a: set<int>, b: set<int>)
    ensures a !! b ==> |a + b| == |a| + |b|
  {}

  lemma {:induction false} SubsetCardinality(a: set<int>, b: set<int>)
    requires a <= b
    ensures |a| <= |b|
  {
    if a != {} {
      var x := Pick(a);
      SubsetCardinality(a - {x}, b - {x});
    }
  }

  lemma CarriersMeet(c: Config, p: set<int>, q: set<int>, g: int)
    requires Carries(c, p, g) && Carries(c, q, g)
    ensures exists id :: id in p && id in q && id in Members(c, g)
  {
    var m := Members(c, g);
    var a, b := p * m, q * m;
    if a * b == {} {
      Apart(a, b);
      WeightUnion(c, a, b);
      WeightSubset(c, a + b, m);
    } else {
      var id := Pick(a * b);
    }
  }

  /** For every configuration whatsoever, two quorums share a server. */
  lemma QuorumsIntersect(c: Config, p: set<int>, q: set<int>)
    requires IsQuorum(c, p) && IsQuorum(c, q)
    ensures exists id :: id in p && id in q
  {
    MajoritiesMeet(Counted(c), Carried(c, p), Carried(c, q));
    var g :| g in Carried(c, p) && g in Carried(c, q);
    CarriersMeet(c, p, q, g);
  }
}
