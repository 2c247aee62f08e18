/** The dynamic configuration that docker-zookeeper/docker/dr_reconfig.sh writes for a cluster
    stretched over a left and a right side, and the quorums it allows. */
module DrConfig {
  import opened Bytes
  import opened Text
  import opened Quorum

  /** The address of a server: side-suffix-order, the side's domain (.side-suffix-server) when
      the script runs with one, and the namespace. Ports and role are the same for all. */
  datatype Address = Address(side: string, suffix: string, order: nat, inDomain: bool, namespace: string)

  datatype Line =
    | Comment
    | Server(id: nat, address: Address)
    | Group(id: nat, members: string)
    | ServerWeight(id: nat, weight: nat)

  /** The script's environment: the suffix of both sides' names, and the domain and namespace
      parts of an address ("" when unset). */
  datatype Env = Env(suffix: string, domain: string, namespace: string)

  // ---------- the file ----------

  function AddressOf(env: Env, side: string, order: nat): Address {
    Address(side, env.suffix, order, env.domain != "", env.namespace)
  }

  /** The servers of one side, numbered from `offset + 1`. */
  function ServerLines(env: Env, side: string, offset: nat, count: nat): seq<Line> {
    if count == 0 then []
    else ServerLines(env, side, offset, count - 1) + [Server(offset + count, AddressOf(env, side, count))]
  }

  function IdTexts(offset: nat, count: nat): seq<string> {
    if count == 0 then [] else IdTexts(offset, count - 1) + [Decimal(offset + count)]
  }

  function WeightLines(offset: nat, count: nat, weight: nat): seq<Line> {
    if count == 0 then []
    else WeightLines(offset, count - 1, weight) + [ServerWeight(offset + count, weight)]
  }

  function LeftWeight(side: string): nat { if side == "right" then 0 else 1 }

  function RightWeight(side: string): nat { if side == "left" then 0 else 1 }

  function ConfigFile(env: Env, n: nat, side: string): seq<Line> {
    [Comment] + ServerLines(env, "left", 0, n) + ServerLines(env, "right", n, n) +
    [Group(1, Join(IdTexts(0, n), ':'))] + [Group(2, Join(IdTexts(n, n), ':'))] +
    WeightLines(0, n, LeftWeight(side)) + WeightLines(n, n, RightWeight(side))
  }

  lemma {:induction false} JoinNext(parts: seq<string>, next: string)
    ensures Join(parts + [next], ':') ==
            if parts == [] then next else Join(parts, ':') + ":" + next
  {
    if parts == [] {
      assert parts + [next] == [next];
    } else {
      JoinNext(parts[1..], next);
      assert (parts + [next])[1..] == parts[1..] + [next];
      if |parts| > 1 {
        assert parts[0] + ":" + (Join(parts[1..], ':') + ":" + next) ==
               (parts[0] + ":" + Join(parts[1..], ':')) + ":" + next;
      } else {
        assert parts[1..] == [];
      }
    }
  }

  lemma {:induction false} JoinIsText(offset: nat, count: nat)
    ensures |IdTexts(offset, count)| == count
    ensures Join(IdTexts(offset, count), ':') == "" <==> count == 0
  {
    if count > 0 {
      JoinIsText(offset, count - 1);
      JoinNext(IdTexts(offset, count - 1), Decimal(offset + count));
    }
  }

  /** One more id for a group: the separator goes in front unless the group is still empty. */
  lemma GroupNext(offset: nat, k: nat)
    ensures var group := Join(IdTexts(offset, k), ':');
            Join(IdTexts(offset, k + 1), ':') ==
            (if group != "" then group + ":" else group) + Decimal(offset + k + 1)
  {
    JoinNext(IdTexts(offset, k), Decimal(offset + k + 1));
    JoinIsText(offset, k);
    assert "" + Decimal(offset + k + 1) == Decimal(offset + k + 1);
  }

  /** One of the two loops over servers: lines and the group's text grow together. */
  method AppendServers(env: Env, side: string, offset: nat, count: int, file: seq<Line>)
    returns (out: seq<Line>, group: string)
    ensures var n := if count > 0 then count else 0;
            out == file + ServerLines(env, side, offset, n) && group == Join(IdTexts(offset, n), ':')
  {
    out, group := file, "";
    var order := 1;
    while order <= count
      invariant 1 <= order && (count > 0 ==> order <= count + 1) && (count <= 0 ==> order == 1)
      invariant out == file + ServerLines(env, side, offset, order - 1)
      invariant group == Join(IdTexts(offset, order - 1), ':')
    {
      GroupNext(offset, order - 1);
      out := out + [Server(offset + order, AddressOf(env, side, order))];
      if group != "" {
        group := group + ":";
      }
      group := group + Decimal(offset + order);
      order := order + 1;
    }
  }

  method AppendWeights(from: int, to: int, weight: nat, file: seq<Line>) returns (out: seq<Line>)
    requires from >= 1
    ensures out == file + WeightLines(from - 1, if to >= from then to - from + 1 else 0, weight)
  {
    out := file;
    var order := from;
    while order <= to
      invariant from <= order && (to >= from ==> order <= to + 1) && (to < from ==> order == from)
      invariant out == file + WeightLines(from - 1, order - from, weight)
    {
      out := out + [ServerWeight(order, weight)];
      order := order + 1;
    }
  }

  /** The script, up to the reconfig call. */
  method Generate(env: Env, serverCount: int, activeSide: string) returns (file: seq<Line>)
    ensures file == ConfigFile(env, if serverCount > 0 then serverCount else 0, activeSide)
  {
    var n := if serverCount > 0 then serverCount else 0;
    file := [Comment];
    var leftGroup, rightGroup;
    file, leftGroup := AppendServers(env, "left", 0, serverCount, file);
    file, rightGroup := AppendServers(env, "right", n, serverCount, file);
    file := file + [Group(1, leftGroup)];
    file := file + [Group(2, rightGroup)];
    var leftWeight, rightWeight := 1, 1;
    if activeSide == "left" {
      rightWeight := 0;
    }
    if activeSide == "right" {
      leftWeight := 0;
    }
    file := AppendWeights(1, n, leftWeight, file);
    file := AppendWeights(n + 1, n + n, rightWeight, file);
  }

  /** The ids offset + 1 .. offset + n. */
  ghost function Side(offset: nat, n: nat): (s: set<int>)
    ensures forall id :: id in s <==> offset < id <= offset + n
    ensures |s| == n
  {
    if n == 0 then {} else Side(offset, n - 1) + {offset + n}
  }

  // ---------- reading it back ----------

  predicate IsNumber(s: string) {
    s != "" && forall i :: 0 <= i < |s| ==> '0' <= s[i] <= '9'
  }

  /** A group's members join it one by one; a server in two groups is an error. */
  function JoinGroup(groupOf: map<int, int>, g: int, texts: seq<string>): Option<map<int, int>> {
    if texts == [] then Some(groupOf)
    else
      var most := JoinGroup(groupOf, g, texts[..|texts| - 1]);
      var last := texts[|texts| - 1];
      if most.None? || !IsNumber(last) || ParseDecimal(last) in most.value then None
      else Some(most.value[ParseDecimal(last) := g])
  }

  /** What the file defines. */
  datatype Dynamic = Dynamic(servers: map<int, Address>, quorum: Config)

  /** Read strictly: an id with two servers, two groups or two weights is an error. */
  function ReadLine(c: Dynamic, line: Line): Option<Dynamic> {
    match line
    case Comment => Some(c)
    case Server(id, address) =>
      if id in c.servers then None else Some(c.(servers := c.servers[id := address]))
    case Group(g, members) =>
      var joined := JoinGroup(c.quorum.groupOf, g, Split(members, ':'));
      if joined.None? then None else Some(c.(quorum := c.quorum.(groupOf := joined.value)))
    case ServerWeight(id, weight) =>
      if id in c.quorum.weightOf then None
      else Some(c.(quorum := c.quorum.(weightOf := c.quorum.weightOf[id := weight])))
  }

  function ReadFrom(c: Dynamic, file: seq<Line>): Option<Dynamic> {
    if file == [] then Some(c)
    else
      var most := ReadFrom(c, file[..|file| - 1]);
      if most.None? then None else ReadLine(most.value, file[|file| - 1])
  }

  const EMPTY := Dynamic(map[], Config(map[], map[]))

  function Read(file: seq<Line>): Option<Dynamic> { ReadFrom(EMPTY, file) }

  lemma {:induction false} ReadAppend(c: Dynamic, a: seq<Line>, b: seq<Line>)
    ensures ReadFrom(c, a + b) ==
            if ReadFrom(c, a).None? then None else ReadFrom(ReadFrom(c, a).value, b)
  {
    if b == [] {
      assert a + b == a;
    } else {
      ReadAppend(c, a, b[..|b| - 1]);
      assert (a + b)[..|a + b| - 1] == a + b[..|b| - 1];
    }
  }

  /** `base` with the ids offset + 1 .. offset + n set to `v`. */
  ghost function Fill<V>(base: map<int, V>, offset: nat, n: nat, v: V): (m: map<int, V>)
    ensures forall id :: id in m <==> id in base || offset < id <= offset + n
    ensures forall id :: id in m ==> m[id] == if offset < id <= offset + n then v else base[id]
  {
    if n == 0 then base else Fill(base, offset, n - 1, v)[offset + n := v]
  }

  ghost function Addresses(base: map<int, Address>, env: Env, side: string, offset: nat, n: nat): (m: map<int, Address>)
    ensures forall id :: id in m <==> id in base || offset < id <= offset + n
    ensures forall id :: id in m ==>
              m[id] == if offset < id <= offset + n then AddressOf(env, side, id - offset) else base[id]
  {
    if n == 0 then base
    else Addresses(base, env, side, offset, n - 1)[offset + n := AddressOf(env, side, n)]
  }

  lemma {:induction false} ReadServers(c: Dynamic, env: Env, side: string, offset: nat, n: nat)
    requires forall id :: id in c.servers ==> id <= offset
    ensures ReadFrom(c, ServerLines(env, side, offset, n)) ==
            Some(c.(servers := Addresses(c.servers, env, side, offset, n)))
  {
    if n > 0 {
      ReadServers(c, env, side, offset, n - 1);
      var all := ServerLines(env, side, offset, n);
      assert all[..|all| - 1] == ServerLines(env, side, offset, n - 1);
    }
  }

  lemma {:induction false} ReadWeights(c: Dynamic, offset: nat, n: nat, weight: nat)
    requires forall id :: id in c.quorum.weightOf ==> id <= offset
    ensures ReadFrom(c, WeightLines(offset, n, weight)) ==
            Some(c.(quorum := c.quorum.(weightOf := Fill(c.quorum.weightOf, offset, n, weight))))
  {
    if n > 0 {
      ReadWeights(c, offset, n - 1, weight);
      var all := WeightLines(offset, n, weight);
      assert all[..|all| - 1] == WeightLines(offset, n - 1, weight);
    }
  }

  lemma {:induction false} JoinIds(groupOf: map<int, int>, g: int, offset: nat, n: nat)
    requires forall id :: id in groupOf ==> id <= offset
    ensures JoinGroup(groupOf, g, IdTexts(offset, n)) == Some(Fill(groupOf, offset, n, g))
  {
    hide ParseDecimal, Decimal;
    if n > 0 {
      JoinIds(groupOf, g, offset, n - 1);
      var all := IdTexts(offset, n);
      assert all[..|all| - 1] == IdTexts(offset, n - 1);
      ParseOfDecimal(offset + n);
    }
  }

  lemma {:induction false} NoColon(offset: nat, n: nat)
    ensures forall i :: 0 <= i < |IdTexts(offset, n)| ==> ':' !in IdTexts(offset, n)[i]
  {
    if n > 0 {
      NoColon(offset, n - 1);
    }
  }

  lemma ReadGroup(c: Dynamic, g: nat, offset: nat, n: nat)
    requires n > 0 && forall id :: id in c.quorum.groupOf ==> id <= offset
    ensures ReadFrom(c, [Group(g, Join(IdTexts(offset, n), ':'))]) ==
            Some(c.(quorum := c.quorum.(groupOf := Fill(c.quorum.groupOf, offset, n, g))))
  {
    NoColon(offset, n);
    JoinIsText(offset, n);
    SplitJoin(IdTexts(offset, n), ':');
    JoinIds(c.quorum.groupOf, g, offset, n);
    assert [Group(g, Join(IdTexts(offset, n), ':'))][..0] == [];
  }

  /** What the file says: servers, groups and weights of 1..2n. */
  ghost function Expected(env: Env, n: nat, side: string): Dynamic {
    Dynamic(Addresses(Addresses(map[], env, "left", 0, n), env, "right", n, n),
            Config(Fill(Fill(map[], 0, n, 1), n, n, 2),
                   Fill(Fill(map[], 0, n, LeftWeight(side)), n, n, RightWeight(side))))
  }

  /** Ids 1..n are the left side, n+1..2n the right, and there are no others. */
  lemma ExpectedIs(env: Env, n: nat, side: string, id: int)
    ensures var c := Expected(env, n, side);
            && (id in c.servers <==> 1 <= id <= 2 * n)
            && (id in c.quorum.groupOf <==> 1 <= id <= 2 * n)
            && (id in c.quorum.weightOf <==> 1 <= id <= 2 * n)
            && (1 <= id <= n ==>
                  c.servers[id] == AddressOf(env, "left", id) && c.quorum.groupOf[id] == 1 &&
                  c.quorum.weightOf[id] == LeftWeight(side))
            && (n < id <= 2 * n ==>
                  c.servers[id] == AddressOf(env, "right", id - n) && c.quorum.groupOf[id] == 2 &&
                  c.quorum.weightOf[id] == RightWeight(side))
  {
  }

  lemma ReadThen(a: seq<Line>, c: Dynamic, b: seq<Line>, d: Dynamic)
    requires Read(a) == Some(c) && ReadFrom(c, b) == Some(d)
    ensures Read(a + b) == Some(d)
  {
    ReadAppend(EMPTY, a, b);
  }

  /** For every n >= 1 the file reads without an error, so ids 1..2n are each defined once, in
      one group and with one weight. */
  lemma FileReadsBack(env: Env, n: nat, side: string)
    requires n >= 1
    ensures Read(ConfigFile(env, n, side)) == Some(Expected(env, n, side))
  {
    assert Read([Comment]) == Some(EMPTY) by { assert [Comment][..0] == []; }
    hide Read, ReadFrom, ReadLine, ServerLines, WeightLines, IdTexts, Join;
    var e := Expected(env, n, side);
    var left, right := ServerLines(env, "left", 0, n), ServerLines(env, "right", n, n);
    var c2 := EMPTY.(servers := Addresses(map[], env, "left", 0, n));
    ReadServers(EMPTY, env, "left", 0, n);
    ReadThen([Comment], EMPTY, left, c2);
    var c3 := c2.(servers := e.servers);
    ReadServers(c2, env, "right", n, n);
    ReadThen([Comment] + left, c2, right, c3);
    ReadGroups([Comment] + left + right, c3, env, n, side);
  }

  lemma ReadGroups(file: seq<Line>, c3: Dynamic, env: Env, n: nat, side: string)
    requires n >= 1 && Read(file) == Some(c3) && c3.quorum == Config(map[], map[])
    requires c3.servers == Expected(env, n, side).servers
    ensures Read(file + [Group(1, Join(IdTexts(0, n), ':'))] + [Group(2, Join(IdTexts(n, n), ':'))] +
                 WeightLines(0, n, LeftWeight(side)) + WeightLines(n, n, RightWeight(side))) ==
            Some(Expected(env, n, side))
  {
    hide Read, ReadFrom, ReadLine, WeightLines, IdTexts, Join;
    var e := Expected(env, n, side);
    var g1, g2 := [Group(1, Join(IdTexts(0, n), ':'))], [Group(2, Join(IdTexts(n, n), ':'))];
    var c4 := c3.(quorum := c3.quorum.(groupOf := Fill(map[], 0, n, 1)));
    ReadGroup(c3, 1, 0, n);
    ReadThen(file, c3, g1, c4);
    var c5 := c4.(quorum := c4.quorum.(groupOf := e.quorum.groupOf));
    ReadGroup(c4, 2, n, n);
    ReadThen(file + g1, c4, g2, c5);
    var c6 := c5.(quorum := c5.quorum.(weightOf := Fill(map[], 0, n, LeftWeight(side))));
    ReadWeights(c5, 0, n, LeftWeight(side));
    ReadThen(file + g1 + g2, c5, WeightLines(0, n, LeftWeight(side)), c6);
    ReadWeights(c6, n, n, RightWeight(side));
    ReadThen(file + g1 + g2 + WeightLines(0, n, LeftWeight(side)), c6,
             WeightLines(n, n, RightWeight(side)), e);
  }

  // ---------- the hosts ----------

  /** The host part of a server line. */
  function HostText(a: Address): string {
    a.side + "-" + a.suffix + "-" + Decimal(a.order) +
    ((if a.inDomain then "." + a.side + "-" + a.suffix + "-server" else "") +
     (if a.namespace == "" then "" else "." + a.namespace))
  }

  /** What the file says of each server: its side, its number on that side, and for the rest the
      environment; groups are the sides, and only the passive side weighs nothing. */
  lemma ServersAre(env: Env, n: nat, side: string, id: int)
    requires n >= 1
    ensures var read := Read(ConfigFile(env, n, side));
            && read.Some?
            && (id in read.value.servers <==> 1 <= id <= 2 * n)
            && (id in read.value.quorum.groupOf <==> 1 <= id <= 2 * n)
            && (id in read.value.quorum.weightOf <==> 1 <= id <= 2 * n)
            && (1 <= id <= 2 * n ==>
                  var a, left := read.value.servers[id], id <= n;
                  && a.side == (if left then "left" else "right")
                  && a.order == (if left then id else id - n)
                  && a.suffix == env.suffix && a.inDomain == (env.domain != "") && a.namespace == env.namespace
                  && read.value.quorum.groupOf[id] == (if left then 1 else 2)
                  && read.value.quorum.weightOf[id] ==
                     (if (left && side == "right") || (!left && side == "left") then 0 else 1))
  {
    FileReadsBack(env, n, side);
    hide ConfigFile, Read, Expected;
    ExpectedIs(env, n, side, id);
  }

  lemma SameDecimal(i: nat, j: nat)
    requires Decimal(i) == Decimal(j)
    ensures i == j
  {
    ParseOfDecimal(i);
    ParseOfDecimal(j);
  }

  lemma MiddleIsSame(a: string, x: string, y: string, c: string)
    requires a + x + c == a + y + c
    ensures x == y
  {
    assert |x| == |y|;
    assert (a + x + c)[|a|..|a| + |x|] == x && (a + y + c)[|a|..|a| + |y|] == y;
  }

  lemma HostStarts(a: Address)
    requires a.side in {"left", "right"}
    ensures HostText(a) != "" && (HostText(a)[0] == 'l' <==> a.side == "left")
  {
    hide Decimal;
    assert HostText(a)[0] == a.side[0];
  }

  /** Side and number can be told from the host. */
  lemma HostTells(a: Address, b: Address)
    requires a.side in {"left", "right"} && b.side in {"left", "right"}
    requires a.suffix == b.suffix && a.inDomain == b.inDomain && a.namespace == b.namespace
    requires HostText(a) == HostText(b)
    ensures a == b
  {
    hide Decimal;
    HostStarts(a);
    HostStarts(b);
    var rest := (if a.inDomain then "." + a.side + "-" + a.suffix + "-server" else "") +
                (if a.namespace == "" then "" else "." + a.namespace);
    MiddleIsSame(a.side + "-" + a.suffix + "-", Decimal(a.order), Decimal(b.order), rest);
    SameDecimal(a.order, b.order);
  }

  /** No two servers have the same host. */
  lemma HostsDiffer(env: Env, n: nat, side: string, i: int, j: int)
    requires 1 <= i < j <= 2 * n
    ensures var read := Read(ConfigFile(env, n, side));
            && read.Some? && i in read.value.servers && j in read.value.servers
            && HostText(read.value.servers[i]) != HostText(read.value.servers[j])
  {
    ServersAre(env, n, side, i);
    ServersAre(env, n, side, j);
    hide ConfigFile, Read, HostText;
    var servers := Read(ConfigFile(env, n, side)).value.servers;
    if HostText(servers[i]) == HostText(servers[j]) {
      HostTells(servers[i], servers[j]);
    }
  }

  // ---------- the quorums ----------

  lemma SideMembers(env: Env, n: nat, side: string)
    requires n >= 1
    ensures var c := Expected(env, n, side).quorum;
            Members(c, 1) == Side(0, n) && Members(c, 2) == Side(n, n) && Groups(c) == {1, 2}
  {
    hide Expected, Side;
    var c := Expected(env, n, side).quorum;
    forall id ensures id in Members(c, 1) <==> id in Side(0, n)
              ensures id in Members(c, 2) <==> id in Side(n, n)
              ensures id in c.groupOf ==> c.groupOf[id] in {1, 2}
    {
      ExpectedIs(env, n, side, id);
    }
    ExpectedIs(env, n, side, 1);
    ExpectedIs(env, n, side, n + 1);
    assert c.groupOf[1] == 1 && c.groupOf[n + 1] == 2;
  }

  /** A part of a side weighs the side's weight times its size. */
  lemma SideWeight(env: Env, n: nat, side: string, s: set<int>)
    ensures s <= Side(0, n) ==> Weight(Expected(env, n, side).quorum, s) == LeftWeight(side) * |s|
    ensures s <= Side(n, n) ==> Weight(Expected(env, n, side).quorum, s) == RightWeight(side) * |s|
  {
    hide Weight;
    var c := Expected(env, n, side).quorum;
    if s <= Side(0, n) {
      WeightUniform(c, s, LeftWeight(side));
    }
    if s <= Side(n, n) {
      WeightUniform(c, s, RightWeight(side));
    }
  }

  lemma CarriesIff(env: Env, n: nat, side: string, q: set<int>)
    requires n >= 1
    ensures var c := Expected(env, n, side).quorum;
            && (Weight(c, Members(c, 1)) > 0 <==> LeftWeight(side) == 1)
            && (Weight(c, Members(c, 2)) > 0 <==> RightWeight(side) == 1)
            && (Carries(c, q, 1) <==> LeftWeight(side) == 1 && |q * Side(0, n)| > n / 2)
            && (Carries(c, q, 2) <==> RightWeight(side) == 1 && |q * Side(n, n)| > n / 2)
  {
    hide Expected, Weight, Members, LeftWeight, RightWeight;
    SideMembers(env, n, side);
    OneSide(LeftWeight(side), n, |q * Side(0, n)|);
    OneSide(RightWeight(side), n, |q * Side(n, n)|);
    SideWeight(env, n, side, Side(0, n));
    SideWeight(env, n, side, Side(n, n));
    SideWeight(env, n, side, q * Side(0, n));
    SideWeight(env, n, side, q * Side(n, n));
    WeightIsBit(side);
  }

  lemma WeightIsBit(side: string)
    ensures LeftWeight(side) in {0, 1} && RightWeight(side) in {0, 1}
  {}

  lemma OneSide(w: nat, n: nat, k: nat)
    requires n >= 1
    ensures w in {0, 1} ==> (w * n > 0 <==> w == 1) && (w * k > w * n / 2 <==> w == 1 && k > n / 2)
  {}

  /** Exactly which sets of servers are quorums: a majority of the active side, or of both
      when no side is active. */
  lemma QuorumIff(env: Env, n: nat, side: string, q: set<int>)
    requires n >= 1
    ensures var left, right := |q * Side(0, n)| > n / 2, |q * Side(n, n)| > n / 2;
            IsQuorum(Expected(env, n, side).quorum, q) <==>
            if side == "left" then left else if side == "right" then right else left && right
  {
    hide Expected, Weight, Carries, Members, Groups, Side;
    var c := Expected(env, n, side).quorum;
    SideMembers(env, n, side);
    CarriesIff(env, n, side, q);
    var left, right := |q * Side(0, n)| > n / 2, |q * Side(n, n)| > n / 2;
    if side == "left" {
      assert Counted(c) == {1};
      assert Carried(c, q) == if left then {1} else {};
    } else if side == "right" {
      assert Counted(c) == {2};
      assert Carried(c, q) == if right then {2} else {};
    } else {
      assert Counted(c) == {1, 2};
      assert Carried(c, q) == (if left then {1} else {}) + (if right then {2} else {});
    }
  }

  /** The passive side alone is never a quorum. */
  lemma PassiveSideAlone(env: Env, n: nat, side: string, p: set<int>)
    requires n >= 1
    requires (side == "left" && p <= Side(n, n)) || (side == "right" && p <= Side(0, n))
    ensures !IsQuorum(Expected(env, n, side).quorum, p)
  {
    hide Expected, IsQuorum;
    QuorumIff(env, n, side, p);
    if side == "left" {
      assert p * Side(0, n) == {};
    } else {
      assert p * Side(n, n) == {};
    }
  }

  lemma EveryoneIsQuorum(env: Env, n: nat, side: string)
    requires n >= 1
    ensures IsQuorum(Expected(env, n, side).quorum, Side(0, n) + Side(n, n))
  {
    hide Expected, IsQuorum;
    var all := Side(0, n) + Side(n, n);
    assert all * Side(0, n) == Side(0, n) && all * Side(n, n) == Side(n, n);
    QuorumIff(env, n, side, all);
  }

  /** The disaster-recovery guarantee of the written file: two quorums always share a server,
      the passive side alone is never a quorum, and all servers together always are one. */
  lemma DrQuorums(env: Env, n: nat, side: string, p: set<int>, q: set<int>)
    requires n >= 1
    ensures var read := Read(ConfigFile(env, n, side));
            && read.Some?
            && (IsQuorum(read.value.quorum, p) && IsQuorum(read.value.quorum, q) ==>
                  exists id :: id in p && id in q)
            && (side == "left" && p <= Side(n, n) ==> !IsQuorum(read.value.quorum, p))
            && (side == "right" && p <= Side(0, n) ==> !IsQuorum(read.value.quorum, p))
            && IsQuorum(read.value.quorum, Side(0, n) + Side(n, n))
  {
    hide Expected, Read, ConfigFile, IsQuorum;
    FileReadsBack(env, n, side);
    var c := Expected(env, n, side).quorum;
    if IsQuorum(c, p) && IsQuorum(c, q) {
      QuorumsIntersect(c, p, q);
    }
    if (side == "left" && p <= Side(n, n)) || (side == "right" && p <= Side(0, n)) {
      PassiveSideAlone(env, n, side, p);
    }
    EveryoneIsQuorum(env, n, side);
  }
}
