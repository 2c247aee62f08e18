/** What the documentation says of the filtered log, and where the code differs
    (docs/public/backup-modes.md: session transactions and ephemeral nodes are both deleted). */
module DocumentedLog {
  import opened Bytes
  import opened TxnEntries
  import opened LogFilter
  import opened CreateLayout
  import opened WrittenLogs

  /** The fields of a create as ZooKeeper wrote them, with what follows. */
  ghost predicate Writes(body: seq<Byte>, c: CreateTxn, more: seq<Byte>) {
    Writable(c) && body == CreateBytes(c, more)
  }

  /** A create transaction that ZooKeeper wrote with its ephemeral flag set. */
  ghost predicate IsEphemeralCreate(r: seq<Byte>)
    requires WholeRecord(r)
  {
    ParseData(DataOf(r)).kind == CREATE &&
    exists c, more :: Writes(DataOf(r)[TXN_HEADER..], c, more) && c.flag != 0
  }

  /** Sessions and ephemeral creations are both deleted. */
  ghost function DocumentedKept(records: seq<seq<Byte>>): seq<seq<Byte>>
    requires forall r :: r in records ==> WholeRecord(r)
  {
    if records == [] then []
    else if IsSession(records[0]) || IsEphemeralCreate(records[0]) then DocumentedKept(records[1..])
    else [records[0]] + DocumentedKept(records[1..])
  }

  lemma {:induction false} DocumentedKeepsLess(records: seq<seq<Byte>>)
    requires forall r :: r in records ==> WholeRecord(r)
    ensures |Concat(DocumentedKept(records))| <= |Concat(Kept(records))|
    ensures (exists r :: r in records && IsEphemeralCreate(r)) ==>
              |Concat(DocumentedKept(records))| < |Concat(Kept(records))|
    ensures (forall r :: r in records ==> !IsEphemeralCreate(r)) ==>
              DocumentedKept(records) == Kept(records)
  {
    if records != [] {
      var r := records[0];
      assert WholeRecord(r);
      DocumentedKeepsLess(records[1..]);
      assert IsEphemeralCreate(r) ==> !IsSession(r) && |r| > 0;
      hide ParseData, IsSession, IsEphemeralCreate;
      if !IsSession(r) {
        assert Kept(records)[1..] == Kept(records[1..]);
        assert !IsEphemeralCreate(r) ==> DocumentedKept(records)[1..] == DocumentedKept(records[1..]);
      }
    }
  }

  /** The code writes the documented log exactly when ZooKeeper wrote no create with the
      ephemeral flag set. */
  lemma DocumentedIff(input: seq<Byte>, header: seq<Byte>, records: seq<seq<Byte>>, tail: seq<Byte>)
    requires IsLog(input, header, records, tail)
    ensures Filter(input) == Some(header + Concat(DocumentedKept(records)) + END_OF_STREAM) <==>
            forall r :: r in records ==> !IsEphemeralCreate(r)
  {
    hide WholeRecord, IsEphemeralCreate, Filter, Stops, Kept, DocumentedKept, Concat, IsSession;
    RunOnLog(input, header, records, tail);
    DocumentedKeepsLess(records);
    var documented := header + Concat(DocumentedKept(records)) + END_OF_STREAM;
    if exists r :: r in records && IsEphemeralCreate(r) {
      assert |documented| < |FilteredLog(header, records)|;
    } else {
      assert DocumentedKept(records) == Kept(records);
    }
  }

  // ---------- the records that make the difference ----------

  /** A create as it is in a log. */
  ghost function CreateRecord(crc: seq<Byte>, header: seq<Byte>, body: seq<Byte>): seq<Byte>
    requires Fits(32 + |body|)
  {
    Framed(crc, header, 1, body)
  }

  lemma RecordParts(crc: seq<Byte>, header: seq<Byte>, body: seq<Byte>)
    requires |crc| == 8 && |header| == 28 && Fits(32 + |body|)
    ensures var r := CreateRecord(crc, header, body);
            && |r| == 12 + 32 + |body| + 1
            && Signed32(r[8..12]) == 32 + |body|
            && DataOf(r)[TXN_HEADER..] == body
            && ParseData(DataOf(r)) == ParseEntry(1, body)
  {
    FrameParts(crc, header, 1, body);
    hide Int32, Signed32, ParseEntry, ParseData;
  }

  /** Every create that ZooKeeper writes is a whole record and stays in the log; with the flag
      set the documentation has it deleted. */
  lemma EveryCreateSurvives(crc: seq<Byte>, header: seq<Byte>, c: CreateTxn, more: seq<Byte>)
    requires |crc| == 8 && |header| == 28 && Writable(c) && Fits(32 + |CreateBytes(c, more)|)
    ensures var r := CreateRecord(crc, header, CreateBytes(c, more));
            && WholeRecord(r) && Kept([r]) == [r]
            && (IsEphemeralCreate(r) <==> c.flag != 0)
            && DocumentedKept([r]) == if c.flag != 0 then [] else [r]
  {
    var body := CreateBytes(c, more);
    var r := CreateRecord(crc, header, body);
    EveryCreateReads(c, more);
    RecordParts(crc, header, body);
    hide CreateBytes, CreateAt, CreateRecord, Signed32;
    assert ParseData(DataOf(r)) == Known(CREATE, CreateAt(body).value);
    assert WholeRecord(r) && !IsSession(r);
    assert IsEphemeralCreate(r) <==> c.flag != 0 by {
      assert Writes(body, c, more);
      forall d, rest | Writes(body, d, rest) ensures d == c {
        LayoutIsUnambiguous(c, more, d, rest);
      }
    }
    hide WholeRecord, IsSession, IsEphemeralCreate;
    var one: seq<seq<Byte>> := [r];
    assert one[1..] == [];
    assert Kept(one[1..]) == [] && DocumentedKept(one[1..]) == [];
  }

  const EVERYONE := Acl(31, [119, 111, 114, 108, 100], [97, 110, 121, 111, 110, 101])

  /** "/e", ephemeral, with all rights for world:anyone: once with the data "x", once without. */
  const WITH_DATA := CreateTxn([47, 101], Some([120]), [EVERYONE], 1)
  const WITHOUT_DATA := CreateTxn([47, 101], Some([]), [EVERYONE], 1)

  /** A log record of `c` that the documentation has deleted and the code keeps. */
  ghost predicate WronglyKept(c: CreateTxn, r: seq<Byte>) {
    && Writable(c) && Fits(32 + |CreateBytes(c, Zeros(4))|)
    && r == CreateRecord(Zeros(8), Zeros(28), CreateBytes(c, Zeros(4)))
    && WholeRecord(r) && IsEphemeralCreate(r) && Kept([r]) == [r]
  }

  /** Both are kept; for the second even the byte that the reader takes for the flag is 0. */
  lemma TwoSurvivors() returns (r: seq<Byte>, s: seq<Byte>)
    ensures WronglyKept(WITH_DATA, r) && WronglyKept(WITHOUT_DATA, s)
    ensures ParseData(DataOf(s)).Known? && ParseData(DataOf(s)).entry.Create? && ParseData(DataOf(s)).entry.flag == 0
  {
    r := Survivor(WITH_DATA);
    s := Survivor(WITHOUT_DATA);
    ReadsWithoutData(WITHOUT_DATA, Zeros(4));
    RecordParts(Zeros(8), Zeros(28), CreateBytes(WITHOUT_DATA, Zeros(4)));
    hide CreateBytes, CreateAt, CreateRecord, Signed32, Int32;
  }

  lemma Survivor(c: CreateTxn) returns (r: seq<Byte>)
    requires c == WITH_DATA || c == WITHOUT_DATA
    ensures WronglyKept(c, r)
  {
    assert Writable(c);
    SmallFits(c, Zeros(4));
    r := CreateRecord(Zeros(8), Zeros(28), CreateBytes(c, Zeros(4)));
    EveryCreateSurvives(Zeros(8), Zeros(28), c, Zeros(4));
  }

  /** A create with one short ACL fits into a record. */
  lemma SmallFits(c: CreateTxn, more: seq<Byte>)
    requires Writable(c) && |c.acls| == 1 && c.data.Some?
    requires |c.path| + |c.data.value| + |c.acls[0].scheme| + |c.acls[0].id| + |more| < 0x100_0000
    ensures Fits(32 + |CreateBytes(c, more)|)
  {
    hide Int32;
    assert c.acls[1..] == [];
    assert AclsBytes(c.acls) == AclBytes(c.acls[0]) + [];
  }
}
