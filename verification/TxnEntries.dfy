/** Field readers of a transaction record (backup-daemon/scripts/parse_transaction_logs.py).

    The functions say what each reader takes from the unread bytes; the class and the methods
    below them are the source's own readers, which consume a mutable record, and are proved
    to take exactly that. */
module TxnEntries {
  import opened Bytes

  /** Either a value with the bytes left after it, or an uncaught struct.error. */
  datatype Read<+T> = Got(value: T, rest: seq<Byte>) | StructError
  {
    predicate IsFailure() { StructError? }

    function PropagateFailure<U>(): Read<U>
      requires IsFailure()
    { StructError }

    function Extract(): (T, seq<Byte>)
      requires !IsFailure()
    { (value, rest) }
  }

  datatype Acl = Acl(perms: int, scheme: seq<Byte>, id: seq<Byte>)

  /** `flag` is the byte on disk; `ephemeral` is what the reader makes of it. */
  datatype Entry =
    | Create(path: seq<Byte>, data: seq<Byte>, acls: seq<Acl>, flag: Byte, ephemeral: bool)
    | Delete(path: seq<Byte>)
    | SetData(path: seq<Byte>, data: seq<Byte>, version: int)
    | SetAcl(path: seq<Byte>, acls: seq<Acl>, version: int)
    | SessionCreate(timeout: int)
    | SessionClose
    | Error(err: int)
    | Multi

  // ---------- what the readers take ----------

  /** A big-endian two's complement 32-bit field ('>i'). */
  function Signed32(b: seq<Byte>): (r: int)
    requires |b| == 4
    ensures -0x8000_0000 <= r < 0x8000_0000
  {
    var u: int := 0x100_0000 * (b[0] as int) + 0x1_0000 * (b[1] as int) + 0x100 * (b[2] as int) + b[3];
    if u < 0x8000_0000 then u else u - 0x1_0000_0000
  }

  /** Where a Python slice bound `count` falls in a sequence of `length` elements. */
  function SliceBound(length: nat, count: int): (k: nat)
    ensures k <= length
  {
    if count >= 0 then (if count < length then count else length)
    else if length + count >= 0 then length + count
    else 0
  }

  function IntAt(rest: seq<Byte>): Read<int> {
    if |rest| < 4 then StructError else Got(Signed32(rest[..4]), rest[4..])
  }

  /** A negative length makes an invalid format string, a long one an unpack of too few bytes. */
  function StringAt(rest: seq<Byte>): Read<seq<Byte>> {
    var (length, after) :- IntAt(rest);
    if length < 0 || |after| < length then StructError
    else Got(after[..length], after[length..])
  }

  /** Data is sliced, not unpacked: no length is an error. */
  function DataAt(rest: seq<Byte>): Read<seq<Byte>> {
    var (length, after) :- IntAt(rest);
    var k := SliceBound(|after|, length);
    Got(after[..k], after[k..])
  }

  function AclAt(rest: seq<Byte>): Read<Acl> {
    var (perms, r1) :- IntAt(rest);
    var (scheme, r2) :- StringAt(r1);
    var (id, r3) :- StringAt(r2);
    Got(Acl(perms, scheme, id), r3)
  }

  function AclsAt(rest: seq<Byte>, count: int): Read<seq<Acl>>
    decreases count
  {
    if count <= 0 then Got([], rest)
    else
      var (acl, r1) :- AclAt(rest);
      var (acls, r2) :- AclsAt(r1, count - 1);
      Got([acl] + acls, r2)
  }

  function AclListAt(rest: seq<Byte>): Read<seq<Acl>> {
    var (count, after) :- IntAt(rest);
    AclsAt(after, count)
  }

  function FlagAt(rest: seq<Byte>): Read<Byte> {
    if |rest| < 1 then StructError else Got(rest[0], rest[1..])
  }

  /** The first attempt of the create reader: no data field. */
  function CreateWithoutData(body: seq<Byte>): Read<Entry> {
    var (path, r1) :- StringAt(body);
    var (acls, r2) :- AclListAt(r1);
    var (flag, r3) :- FlagAt(r2);
    Got(Create(path, [], acls, flag, false), r3)
  }

  /** The second attempt, from the start of the body again. */
  function CreateWithData(body: seq<Byte>): Read<Entry> {
    var (path, r1) :- StringAt(body);
    var (data, r2) :- DataAt(r1);
    var (acls, r3) :- AclListAt(r2);
    var (flag, r4) :- FlagAt(r3);
    Got(Create(path, data, acls, flag, false), r4)
  }

  function CreateAt(body: seq<Byte>): Read<Entry> {
    if CreateWithoutData(body).Got? then CreateWithoutData(body) else CreateWithData(body)
  }

  function SetDataAt(body: seq<Byte>): Read<Entry> {
    var (path, r1) :- StringAt(body);
    var (data, r2) :- DataAt(r1);
    var (version, r3) :- IntAt(r2);
    Got(SetData(path, data, version), r3)
  }

  function SetAclAt(body: seq<Byte>): Read<Entry> {
    var (path, r1) :- StringAt(body);
    var (acls, r2) :- AclListAt(r1);
    var (version, r3) :- IntAt(r2);
    Got(SetAcl(path, acls, version), r3)
  }

  // ---------- bounds on what they take ----------

  /** Every reader returns a suffix of what it was given. */
  ghost predicate IsSuffix(s: seq<Byte>, of: seq<Byte>) {
    |s| <= |of| && of[|of| - |s|..] == s
  }

  lemma SuffixTrans(a: seq<Byte>, b: seq<Byte>, c: seq<Byte>)
    requires IsSuffix(a, b) && IsSuffix(b, c)
    ensures IsSuffix(a, c)
  {
    assert c[|c| - |a|..] == c[|c| - |b|..][|b| - |a|..];
  }

  lemma AclTakesTwelve(rest: seq<Byte>)
    ensures AclAt(rest).Got? ==> |AclAt(rest).rest| + 12 <= |rest|
  {}

  /** How many ACLs the loop reads before it is done or a short read stops it. */
  function AclsRead(rest: seq<Byte>, count: int): (n: nat)
    decreases count
  {
    if count <= 0 || AclAt(rest).StructError? then 0
    else 1 + AclsRead(AclAt(rest).rest, count - 1)
  }

  /** Whatever 32-bit count a record claims, its length bounds the ACLs that are read: the
      loop completes exactly when it read as many as claimed. */
  lemma {:induction false} AclBound(rest: seq<Byte>, count: int)
    ensures 12 * AclsRead(rest, count) <= |rest|
    ensures AclsAt(rest, count).Got? <==> (count <= 0 || AclsRead(rest, count) == count)
    ensures AclsAt(rest, count).Got? ==> |AclsAt(rest, count).value| == AclsRead(rest, count)
    ensures 12 * count > |rest| ==> AclsAt(rest, count).StructError?
    decreases count
  {
    AclTakesTwelve(rest);
    hide AclAt;
    if count > 0 && AclAt(rest).Got? {
      AclBound(AclAt(rest).rest, count - 1);
    }
  }

  // ---------- any sequence of reads ----------

  /** What a sequence of reads hands out, one after the other. */
  function HandedOut(rest: seq<Byte>, counts: seq<int>): seq<Byte> {
    if counts == [] then []
    else
      var k := SliceBound(|rest|, counts[0]);
      rest[..k] + HandedOut(rest[k..], counts[1..])
  }

  function LeftOver(rest: seq<Byte>, counts: seq<int>): seq<Byte> {
    if counts == [] then rest else LeftOver(rest[SliceBound(|rest|, counts[0])..], counts[1..])
  }

  /** Whatever the counts, negative ones included, what was handed out followed by the rest is
      the body. */
  lemma {:induction false} ReadsConserve(body: seq<Byte>, counts: seq<int>)
    ensures HandedOut(body, counts) + LeftOver(body, counts) == body
    decreases |counts|
  {
    if counts != [] {
      var k := SliceBound(|body|, counts[0]);
      ReadsConserve(body[k..], counts[1..]);
      var more, rest := HandedOut(body[k..], counts[1..]), LeftOver(body[k..], counts[1..]);
      assert body[..k] + more + rest == body[..k] + (more + rest);
    }
  }

  // ---------- the mutable record ----------

  /** TransactionData: a record whose readers consume `rest`. `taken` is what they have been
      handed since `rest` was last set to `body`. */
  class TransactionData {
    const initial: seq<Byte>
    var body: seq<Byte>
    var rest: seq<Byte>
    ghost var taken: seq<Byte>

    ghost predicate Valid()
      reads this
    {
      taken + rest == body && IsSuffix(body, initial)
    }

    constructor (data: seq<Byte>)
      ensures Valid()
      ensures initial == data && body == data && rest == data && taken == []
    {
      initial, body, rest, taken := data, data, data, [];
    }

    /** Nothing is lost or invented, whatever the count: a negative one takes all but the
        last bytes. */
    method Read(count: int) returns (part: seq<Byte>)
      requires Valid()
      modifies this`rest, this`taken
      ensures Valid()
      ensures part == old(rest)[..SliceBound(|old(rest)|, count)]
      ensures rest == old(rest)[SliceBound(|old(rest)|, count)..]
      ensures part + rest == old(rest) && taken == old(taken) + part
    {
      var k := SliceBound(|rest|, count);
      part := rest[..k];
      assert part + rest[k..] == rest;
      assert taken + part + rest[k..] == taken + (part + rest[k..]);
      rest := rest[k..];
      taken := taken + part;
    }

    /** record.body = record.rest, once the header is read. */
    method StartBody()
      requires Valid()
      modifies this`body, this`taken
      ensures Valid() && body == rest && taken == []
    {
      assert IsSuffix(rest, body) by {
        assert body[|body| - |rest|..] == rest;
      }
      SuffixTrans(rest, body, initial);
      body := rest;
      taken := [];
      assert taken + rest == rest;
    }

    /** record.rest = record.body, before the create reader's second attempt. */
    method Rewind()
      requires Valid()
      modifies this`rest, this`taken
      ensures Valid() && rest == body && taken == []
    {
      rest := body;
      taken := [];
      assert taken + rest == rest;
    }
  }

  /** What a reader leaves behind: on success exactly the bytes its function leaves; on a
      struct.error some bytes may be gone, but never from the body or the record. */
  ghost predicate Consumed<T>(r: Read<T>, rest: seq<Byte>, body: seq<Byte>, oldBody: seq<Byte>) {
    body == oldBody && (r.Got? ==> rest == r.rest)
  }

  ghost function ToOption<T>(r: Read<T>): Option<T> {
    if r.Got? then Some(r.value) else None
  }

  method ReadInt(record: TransactionData) returns (r: Option<int>)
    requires record.Valid()
    modifies record`rest, record`taken
    ensures record.Valid()
    ensures r == ToOption(IntAt(old(record.rest)))
    ensures Consumed(IntAt(old(record.rest)), record.rest, record.body, old(record.body))
  {
    var part := record.Read(4);
    r := if |part| == 4 then Some(Signed32(part)) else None;
  }

  method ReadString(record: TransactionData) returns (r: Option<seq<Byte>>)
    requires record.Valid()
    modifies record`rest, record`taken
    ensures record.Valid()
    ensures r == ToOption(StringAt(old(record.rest)))
    ensures Consumed(StringAt(old(record.rest)), record.rest, record.body, old(record.body))
  {
    var length := ReadInt(record);
    if length.None? || length.value < 0 {
      return None;
    }
    var part := record.Read(length.value);
    r := if |part| == length.value then Some(part) else None;
  }

  method ReadData(record: TransactionData) returns (r: Option<seq<Byte>>)
    requires record.Valid()
    modifies record`rest, record`taken
    ensures record.Valid()
    ensures r == ToOption(DataAt(old(record.rest)))
    ensures Consumed(DataAt(old(record.rest)), record.rest, record.body, old(record.body))
  {
    var length := ReadInt(record);
    if length.None? {
      return None;
    }
    var part := record.Read(length.value);
    r := Some(part);
  }

  method ReadAcl(record: TransactionData) returns (r: Option<Acl>)
    requires record.Valid()
    modifies record`rest, record`taken
    ensures record.Valid()
    ensures r == ToOption(AclAt(old(record.rest)))
    ensures Consumed(AclAt(old(record.rest)), record.rest, record.body, old(record.body))
  {
    var perms := ReadInt(record);
    if perms.None? { return None; }
    var scheme := ReadString(record);
    if scheme.None? { return None; }
    var id := ReadString(record);
    if id.None? { return None; }
    r := Some(Acl(perms.value, scheme.value, id.value));
  }

  /** One more ACL in front of a loop that still has `count` to read. */
  lemma AclsStep(rest: seq<Byte>, count: int, done: seq<Acl>)
    requires count > 0 && AclAt(rest).Got?
    ensures var r, s := AclsAt(rest, count), AclsAt(AclAt(rest).rest, count - 1);
            r.Got? == s.Got? &&
            (r.Got? ==> r.rest == s.rest && done + r.value == done + [AclAt(rest).value] + s.value)
  {
    hide AclAt;
    var s := AclsAt(AclAt(rest).rest, count - 1);
    if s.Got? {
      assert done + ([AclAt(rest).value] + s.value) == done + [AclAt(rest).value] + s.value;
    }
  }

  method ReadAclLoop(record: TransactionData, count: int) returns (r: Option<seq<Acl>>)
    requires record.Valid()
    modifies record`rest, record`taken
    ensures record.Valid()
    ensures r == ToOption(AclsAt(old(record.rest), count))
    ensures Consumed(AclsAt(old(record.rest), count), record.rest, record.body, old(record.body))
  {
    hide AclAt;
    ghost var whole := AclsAt(record.rest, count);
    var acls, left := [], count;
    while left > 0
      invariant record.Valid() && record.body == old(record.body)
      invariant whole.Got? == AclsAt(record.rest, left).Got?
      invariant whole.Got? ==>
                  whole.rest == AclsAt(record.rest, left).rest &&
                  whole.value == acls + AclsAt(record.rest, left).value
    {
      if AclAt(record.rest).Got? {
        AclsStep(record.rest, left, acls);
      }
      var acl := ReadAcl(record);
      if acl.None? { return None; }
      acls := acls + [acl.value];
      left := left - 1;
    }
    assert acls + [] == acls;
    r := Some(acls);
  }

  method ReadAcls(record: TransactionData) returns (r: Option<seq<Acl>>)
    requires record.Valid()
    modifies record`rest, record`taken
    ensures record.Valid()
    ensures r == ToOption(AclListAt(old(record.rest)))
    ensures Consumed(AclListAt(old(record.rest)), record.rest, record.body, old(record.body))
  {
    var count := ReadInt(record);
    if count.None? { return None; }
    r := ReadAclLoop(record, count.value);
  }

  /** read_bool compares the unpacked tuple with 0, so `boolean` is false for every byte. */
  method ReadBool(record: TransactionData) returns (r: Option<Byte>, boolean: bool)
    requires record.Valid()
    modifies record`rest, record`taken
    ensures record.Valid()
    ensures r == ToOption(FlagAt(old(record.rest)))
    ensures Consumed(FlagAt(old(record.rest)), record.rest, record.body, old(record.body))
    ensures boolean == false
  {
    var part := record.Read(1);
    r, boolean := if |part| == 1 then Some(part[0]) else None, false;
  }

  method ReadCreateWithoutData(record: TransactionData) returns (r: Option<Entry>)
    requires record.Valid() && record.rest == record.body
    modifies record`rest, record`taken
    ensures record.Valid() && record.body == old(record.body)
    ensures r == ToOption(CreateWithoutData(record.body))
  {
    var path := ReadString(record);
    if path.None? { return None; }
    var acls := ReadAcls(record);
    if acls.None? { return None; }
    var flag, ephemeral := ReadBool(record);
    if flag.None? { return None; }
    r := Some(Create(path.value, [], acls.value, flag.value, ephemeral));
  }

  method ReadCreateWithData(record: TransactionData) returns (r: Option<Entry>)
    requires record.Valid() && record.rest == record.body
    modifies record`rest, record`taken
    ensures record.Valid() && record.body == old(record.body)
    ensures r == ToOption(CreateWithData(record.body))
  {
    var path := ReadString(record);
    if path.None? { return None; }
    var data := ReadData(record);
    if data.None? { return None; }
    var acls := ReadAcls(record);
    if acls.None? { return None; }
    var flag, ephemeral := ReadBool(record);
    if flag.None? { return None; }
    r := Some(Create(path.value, data.value, acls.value, flag.value, ephemeral));
  }

  /** TxnCreate: the retry starts again from the body, which the first attempt never altered. */
  method ReadCreate(record: TransactionData) returns (r: Option<Entry>)
    requires record.Valid() && record.rest == record.body
    modifies record`rest, record`taken
    ensures record.Valid() && record.body == old(record.body)
    ensures r == ToOption(CreateAt(record.body))
  {
    r := ReadCreateWithoutData(record);
    if r.None? {
      record.Rewind();
      r := ReadCreateWithData(record);
    }
  }

  method ReadSetData(record: TransactionData) returns (r: Option<Entry>)
    requires record.Valid() && record.rest == record.body
    modifies record`rest, record`taken
    ensures record.Valid() && record.body == old(record.body)
    ensures r == ToOption(SetDataAt(record.body))
  {
    var path := ReadString(record);
    if path.None? { return None; }
    var data := ReadData(record);
    if data.None? { return None; }
    var version := ReadInt(record);
    if version.None? { return None; }
    r := Some(SetData(path.value, data.value, version.value));
  }

  method ReadSetAcl(record: TransactionData) returns (r: Option<Entry>)
    requires record.Valid() && record.rest == record.body
    modifies record`rest, record`taken
    ensures record.Valid() && record.body == old(record.body)
    ensures r == ToOption(SetAclAt(record.body))
  {
    var path := ReadString(record);
    if path.None? { return None; }
    var acls := ReadAcls(record);
    if acls.None? { return None; }
    var version := ReadInt(record);
    if version.None? { return None; }
    r := Some(SetAcl(path.value, acls.value, version.value));
  }
}
