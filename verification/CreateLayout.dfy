/** The layout ZooKeeper itself writes for the fields of a transaction (jute, its record
    format), said without the readers of TxnEntries, and what those readers make of it. */
module CreateLayout {
  import opened Bytes
  import opened TxnEntries

  predicate Fits(n: int) {
    -0x8000_0000 <= n < 0x8000_0000
  }

  // ---------- fields ----------

  /** A big-endian two's complement 32-bit field. */
  function Int32(n: int): (b: seq<Byte>)
    requires Fits(n)
    ensures |b| == 4
  {
    var u := if n >= 0 then n else n + 0x1_0000_0000;
    var u1 := u / 0x100;
    var u2 := u1 / 0x100;
    [u2 / 0x100, u2 % 0x100, u1 % 0x100, u % 0x100]
  }

  lemma LastDigit(q: nat, d: Byte)
    ensures (0x100 * q + d) / 0x100 == q && (0x100 * q + d) % 0x100 == d
  {}

  lemma WritesSigned32(b: seq<Byte>)
    requires |b| == 4
    ensures Int32(Signed32(b)) == b
  {
    var u2: int := 0x100 * (b[0] as int) + b[1];
    var u1: int := 0x100 * u2 + b[2];
    LastDigit(b[0], b[1]);
    LastDigit(u2, b[2]);
    LastDigit(u1, b[3]);
  }

  lemma ReadsInt32(n: int)
    requires Fits(n)
    ensures Signed32(Int32(n)) == n
  {
    var u := if n >= 0 then n else n + 0x1_0000_0000;
    var u1 := u / 0x100;
    var u2 := u1 / 0x100;
    var b := Int32(n);
    assert b[0] == u2 / 0x100 && b[1] == u2 % 0x100 && b[2] == u1 % 0x100 && b[3] == u % 0x100;
    assert u == 0x100 * u1 + b[3] && u1 == 0x100 * u2 + b[2] && u2 == 0x100 * (b[0] as int) + b[1];
    hide Int32;
  }

  /** Reading a field is the inverse of writing it, both ways. */
  lemma Int32IsSigned32(n: int, b: seq<Byte>)
    ensures Fits(n) ==> Signed32(Int32(n)) == n
    ensures |b| == 4 ==> Fits(Signed32(b)) && Int32(Signed32(b)) == b
  {
    if Fits(n) {
      ReadsInt32(n);
    }
    if |b| == 4 {
      WritesSigned32(b);
    }
  }

  /** A buffer or string with its length; a missing one has the length -1. */
  function Buffer(data: Option<seq<Byte>>): seq<Byte>
    requires data.Some? ==> Fits(|data.value|)
  {
    if data.None? then Int32(-1) else Int32(|data.value|) + data.value
  }

  predicate AclFits(a: Acl) {
    Fits(a.perms) && Fits(|a.scheme|) && Fits(|a.id|)
  }

  function AclBytes(a: Acl): seq<Byte>
    requires AclFits(a)
  {
    Int32(a.perms) + Buffer(Some(a.scheme)) + Buffer(Some(a.id))
  }

  function AclsBytes(acls: seq<Acl>): seq<Byte>
    requires forall a :: a in acls ==> AclFits(a)
  {
    if acls == [] then [] else AclBytes(acls[0]) + AclsBytes(acls[1..])
  }

  /** A create transaction: path, data, ACLs and the ephemeral flag; whatever later versions
      append comes after it. */
  datatype CreateTxn = CreateTxn(path: seq<Byte>, data: Option<seq<Byte>>, acls: seq<Acl>, flag: Byte)

  ghost predicate Writable(c: CreateTxn) {
    && Fits(|c.path|) && Fits(|c.acls|)
    && (c.data.Some? ==> Fits(|c.data.value|))
    && (forall a :: a in c.acls ==> AclFits(a))
  }

  ghost function CreateBytes(c: CreateTxn, more: seq<Byte>): seq<Byte>
    requires Writable(c)
  {
    Buffer(Some(c.path)) + (Buffer(c.data) + (Int32(|c.acls|) + (AclsBytes(c.acls) + ([c.flag] + more))))
  }

  // ---------- what the readers make of it ----------

  lemma ReadsInt(n: int, more: seq<Byte>)
    requires Fits(n)
    ensures IntAt(Int32(n) + more) == Got(n, more)
  {
    ReadsInt32(n);
    hide Int32, Signed32;
    assert (Int32(n) + more)[..4] == Int32(n) && (Int32(n) + more)[4..] == more;
  }

  lemma ReadsString(s: seq<Byte>, more: seq<Byte>)
    requires Fits(|s|)
    ensures StringAt(Buffer(Some(s)) + more) == Got(s, more)
    ensures DataAt(Buffer(Some(s)) + more) == Got(s, more)
  {
    hide Int32, IntAt;
    assert Buffer(Some(s)) + more == Int32(|s|) + (s + more);
    ReadsInt(|s|, s + more);
    assert (s + more)[..|s|] == s && (s + more)[|s|..] == more;
  }

  lemma ReadsAcl(a: Acl, more: seq<Byte>)
    requires AclFits(a)
    ensures AclAt(AclBytes(a) + more) == Got(a, more)
  {
    hide Int32, IntAt, StringAt, Buffer;
    var r2 := Buffer(Some(a.id)) + more;
    var r1 := Buffer(Some(a.scheme)) + r2;
    assert AclBytes(a) + more == Int32(a.perms) + r1;
    ReadsInt(a.perms, r1);
    ReadsString(a.scheme, r2);
    ReadsString(a.id, more);
  }

  lemma {:induction false} ReadsAcls(acls: seq<Acl>, more: seq<Byte>)
    requires forall a :: a in acls ==> AclFits(a)
    ensures AclsAt(AclsBytes(acls) + more, |acls|) == Got(acls, more)
  {
    hide AclAt, AclBytes, AclFits;
    if acls == [] {
      assert AclsBytes(acls) + more == more;
    } else {
      var rest := AclsBytes(acls[1..]) + more;
      assert AclsBytes(acls) + more == AclBytes(acls[0]) + rest;
      ReadsAcl(acls[0], rest);
      ReadsAcls(acls[1..], more);
      assert [acls[0]] + acls[1..] == acls;
    }
  }

  /** Behind the data: the ACLs, the flag, and what follows. */
  ghost function Behind(c: CreateTxn, more: seq<Byte>): seq<Byte>
    requires Writable(c)
  {
    Int32(|c.acls|) + (AclsBytes(c.acls) + ([c.flag] + more))
  }

  lemma ReadsBehind(c: CreateTxn, more: seq<Byte>)
    requires Writable(c)
    ensures AclListAt(Behind(c, more)) == Got(c.acls, [c.flag] + more)
    ensures FlagAt([c.flag] + more) == Got(c.flag, more)
  {
    hide Int32, IntAt, AclsAt, AclsBytes;
    ReadsInt(|c.acls|, AclsBytes(c.acls) + ([c.flag] + more));
    ReadsAcls(c.acls, [c.flag] + more);
    assert ([c.flag] + more)[1..] == more;
  }

  /** With data the second layout of the reader is ZooKeeper's. */
  lemma ReadsWithData(c: CreateTxn, more: seq<Byte>)
    requires Writable(c) && c.data.Some?
    ensures CreateWithData(CreateBytes(c, more)) ==
            Got(Create(c.path, c.data.value, c.acls, c.flag, false), more)
  {
    hide StringAt, DataAt, AclListAt, FlagAt, Buffer, Int32, AclsBytes;
    ReadsString(c.path, Buffer(c.data) + Behind(c, more));
    ReadsString(c.data.value, Behind(c, more));
    ReadsBehind(c, more);
  }

  lemma TopByte(n: nat)
    ensures n < 0x100_0000 ==> Int32(n)[0] == 0
  {}

  /** Without data the first layout always fits: the data's length is taken for an empty list of
      ACLs, and what is read as the flag is the first byte of the number of ACLs. */
  lemma ReadsWithoutData(c: CreateTxn, more: seq<Byte>)
    requires Writable(c) && (c.data.None? || c.data.value == [])
    ensures var r := CreateAt(CreateBytes(c, more));
            r.Got? && r.value.Create? && r.value.flag == Int32(|c.acls|)[0] &&
            (|c.acls| < 0x100_0000 ==> r.value.flag == 0)
  {
    hide StringAt, Signed32, AclsBytes, IntAt, Int32, CreateWithData;
    TopByte(|c.acls|);
    var length := if c.data.None? then -1 else 0;
    ReadsString(c.path, Buffer(c.data) + Behind(c, more));
    assert Buffer(c.data) + Behind(c, more) == Int32(length) + Behind(c, more);
    ReadsInt(length, Behind(c, more));
    assert AclListAt(Int32(length) + Behind(c, more)) == Got([], Behind(c, more));
    assert Behind(c, more)[0] == Int32(|c.acls|)[0];
  }

  /** Every create that ZooKeeper writes is read without an error. */
  lemma EveryCreateReads(c: CreateTxn, more: seq<Byte>)
    requires Writable(c)
    ensures CreateAt(CreateBytes(c, more)).Got? && CreateAt(CreateBytes(c, more)).value.Create?
  {
    if c.data.None? || c.data.value == [] {
      ReadsWithoutData(c, more);
    } else {
      ReadsWithData(c, more);
      hide CreateBytes, StringAt, DataAt, AclListAt, FlagAt;
    }
  }

  /** One body is one create: no two of them are written the same. */
  lemma LayoutIsUnambiguous(c: CreateTxn, more: seq<Byte>, d: CreateTxn, rest: seq<Byte>)
    requires Writable(c) && Writable(d) && CreateBytes(c, more) == CreateBytes(d, rest)
    ensures c == d && more == rest
  {
    hide StringAt, DataAt, AclListAt, Int32, AclsBytes, IntAt;
    ReadsString(c.path, Buffer(c.data) + Behind(c, more));
    ReadsString(d.path, Buffer(d.data) + Behind(d, rest));
    LengthReads(c, more);
    LengthReads(d, rest);
    if c.data.Some? {
      ReadsString(c.data.value, Behind(c, more));
      ReadsString(d.data.value, Behind(d, rest));
    }
    ReadsBehind(c, more);
    ReadsBehind(d, rest);
  }

  lemma LengthReads(c: CreateTxn, more: seq<Byte>)
    requires Writable(c)
    ensures var r := IntAt(Buffer(c.data) + Behind(c, more));
            r.Got? && (r.value == -1 <==> c.data.None?) && (c.data.None? ==> r.rest == Behind(c, more))
  {
    hide Int32, IntAt, Behind;
    if c.data.None? {
      ReadsInt(-1, Behind(c, more));
    } else {
      assert Buffer(c.data) + Behind(c, more) == Int32(|c.data.value|) + (c.data.value + Behind(c, more));
      ReadsInt(|c.data.value|, c.data.value + Behind(c, more));
    }
  }
}
