/** Logs as ZooKeeper writes them, with the numbers of its transaction types and the layouts of
    their records, and what the filter makes of them. */
module WrittenLogs {
  import opened Bytes
  import opened TxnEntries
  import opened LogFilter
  import opened CreateLayout

  // ---------- one transaction ----------

  /** The transactions of a log. Of a multi transaction and of a closed session only the bytes are
      given; missing data is None. */
  datatype Written =
    | Created(create: CreateTxn)
    | Deleted(path: seq<Byte>)
    | DataSet(path: seq<Byte>, data: Option<seq<Byte>>, version: int)
    | AclSet(path: seq<Byte>, acls: seq<Acl>, version: int)
    | Errored(err: int)
    | Multiple(bytes: seq<Byte>)
    | SessionCreated(timeout: int)
    | SessionClosed(bytes: seq<Byte>)

  /** ZooKeeper's numbers for them. */
  function TypeNumber(t: Written): int {
    match t
    case Created(_) => 1
    case Deleted(_) => 2
    case DataSet(_, _, _) => 5
    case AclSet(_, _, _) => 7
    case Errored(_) => -1
    case Multiple(_) => 14
    case SessionCreated(_) => -10
    case SessionClosed(_) => -11
  }

  predicate IsSessionTxn(t: Written) {
    t.SessionCreated? || t.SessionClosed?
  }

  ghost predicate AclsFit(acls: seq<Acl>) {
    Fits(|acls|) && forall a :: a in acls ==> AclFits(a)
  }

  ghost predicate FieldsFit(t: Written) {
    match t
    case Created(c) => Writable(c)
    case Deleted(path) => Fits(|path|)
    case DataSet(path, data, version) => Fits(|path|) && Fits(version) && (data.Some? ==> Fits(|data.value|))
    case AclSet(path, acls, version) => Fits(|path|) && Fits(version) && AclsFit(acls)
    case Errored(err) => Fits(err)
    case SessionCreated(timeout) => Fits(timeout)
    case _ => true
  }

  /** The fields in order; `more` is what later versions append. */
  ghost function Fields(t: Written, more: seq<Byte>): seq<Byte>
    requires FieldsFit(t)
  {
    match t
    case Created(c) => CreateBytes(c, more)
    case Deleted(path) => Buffer(Some(path)) + more
    case DataSet(path, data, version) => Buffer(Some(path)) + (Buffer(data) + (Int32(version) + more))
    case AclSet(path, acls, version) =>
      Buffer(Some(path)) + (Int32(|acls|) + (AclsBytes(acls) + (Int32(version) + more)))
    case Errored(err) => Int32(err) + more
    case Multiple(bytes) => bytes
    case SessionCreated(timeout) => Int32(timeout) + more
    case SessionClosed(bytes) => bytes
  }

  // ---------- its record ----------

  /** A transaction as it stands in a log: a checksum of 8 bytes, the header up to the type (28
      bytes), and what follows the fields. */
  datatype Logged = Logged(crc: seq<Byte>, header: seq<Byte>, txn: Written, more: seq<Byte>)

  /** A record with any type number: checksum, length, header, type, fields, and the end marker. */
  ghost function Framed(crc: seq<Byte>, header: seq<Byte>, kind: int, body: seq<Byte>): seq<Byte>
    requires Fits(kind) && Fits(32 + |body|)
  {
    crc + Int32(32 + |body|) + (header + Int32(kind) + body) + [66]
  }

  ghost predicate LoggedFits(l: Logged) {
    |l.crc| == 8 && |l.header| == 28 && FieldsFit(l.txn) && Fits(32 + |Fields(l.txn, l.more)|)
  }

  ghost function RecordOf(l: Logged): seq<Byte>
    requires LoggedFits(l)
  {
    Framed(l.crc, l.header, TypeNumber(l.txn), Fields(l.txn, l.more))
  }

  lemma FrameParts(crc: seq<Byte>, header: seq<Byte>, kind: int, body: seq<Byte>)
    requires |crc| == 8 && |header| == 28 && Fits(kind) && Fits(32 + |body|)
    ensures var r := Framed(crc, header, kind, body);
            && |r| == 12 + 32 + |body| + 1
            && Signed32(r[8..12]) == 32 + |body|
            && DataOf(r) == header + Int32(kind) + body
            && ParseData(DataOf(r)) == ParseEntry(kind, body)
  {
    var r := Framed(crc, header, kind, body);
    ReadsInt32(32 + |body|);
    ReadsInt32(kind);
    hide Int32, Signed32, ParseEntry;
    assert r[8..12] == Int32(32 + |body|);
    assert DataOf(r) == header + Int32(kind) + body;
    assert DataOf(r)[28..32] == Int32(kind);
    assert DataOf(r)[32..] == body;
  }

  // ---------- what the readers make of the fields ----------

  /** A negative length of data is read as all but that many bytes at the end. */
  lemma NegativeData(k: int, rest: seq<Byte>)
    requires 1 <= k && Fits(-k)
    ensures DataAt(Int32(-k) + rest) ==
            if k <= |rest| then Got(rest[..|rest| - k], rest[|rest| - k..]) else Got([], rest)
  {
    hide Int32, IntAt;
    ReadsInt(-k, rest);
  }

  /** So data that is missing is read as all but the last byte behind its length. */
  lemma MissingData(rest: seq<Byte>)
    requires rest != []
    ensures DataAt(Buffer(None) + rest) == Got(rest[..|rest| - 1], rest[|rest| - 1..])
  {
    hide Int32, IntAt, DataAt;
    NegativeData(1, rest);
  }

  lemma ReadsDataSet(t: Written, more: seq<Byte>)
    requires FieldsFit(t) && t.DataSet?
    ensures var r := SetDataAt(Fields(t, more));
            if t.data.None? then r.StructError?
            else r == Got(SetData(t.path, t.data.value, t.version), more)
  {
    hide Int32, IntAt, StringAt, DataAt, Buffer;
    var rest := Int32(t.version) + more;
    ReadsString(t.path, Buffer(t.data) + rest);
    if t.data.None? {
      MissingData(rest);
      ShortInt(rest[|rest| - 1..]);
    } else {
      ReadsString(t.data.value, rest);
      ReadsInt(t.version, more);
    }
  }

  lemma ShortInt(s: seq<Byte>)
    requires |s| == 1
    ensures IntAt(s).StructError?
  {}

  lemma ReadsAclSet(t: Written, more: seq<Byte>)
    requires FieldsFit(t) && t.AclSet?
    ensures SetAclAt(Fields(t, more)) == Got(SetAcl(t.path, t.acls, t.version), more)
  {
    hide Int32, IntAt, StringAt, Buffer, AclsAt, AclsBytes;
    var r2 := Int32(t.version) + more;
    ReadsString(t.path, Int32(|t.acls|) + (AclsBytes(t.acls) + r2));
    ReadsInt(|t.acls|, AclsBytes(t.acls) + r2);
    ReadsAcls(t.acls, r2);
    ReadsInt(t.version, more);
  }

  /** The one transaction that the readers cannot read: a znode was set to missing data. */
  predicate Unreadable(t: Written) {
    t.DataSet? && t.data.None?
  }

  lemma ParsesFields(t: Written, more: seq<Byte>)
    requires FieldsFit(t)
    ensures var p := ParseEntry(TypeNumber(t), Fields(t, more));
            if Unreadable(t) then p.Broken?
            else p.Known? && p.kind == TypeNumber(t) && (p.entry.Create? ==> !p.entry.ephemeral)
  {
    hide IntAt, StringAt, Int32, Buffer, SetDataAt, SetAclAt, CreateAt, CreateBytes;
    match t
    case Created(c) =>
      EveryCreateReads(c, more);
      NeverEphemeral(CreateBytes(c, more));
    case Deleted(path) => ReadsString(path, more);
    case DataSet(_, _, _) => ReadsDataSet(t, more);
    case AclSet(_, _, _) => ReadsAclSet(t, more);
    case Errored(err) => ReadsInt(err, more);
    case SessionCreated(timeout) => ReadsInt(timeout, more);
    case _ =>
  }

  lemma NeverEphemeral(body: seq<Byte>)
    requires CreateAt(body).Got? && CreateAt(body).value.Create?
    ensures !CreateAt(body).value.ephemeral
  {
    hide StringAt, AclListAt, DataAt, FlagAt;
  }

  // ---------- one record in a log ----------

  /** A record and what follows it, cut apart. */
  lemma Followed(r: seq<Byte>, rest: seq<Byte>)
    requires |r| > 12
    ensures var input, k := r + rest, |r| - 13;
            var after := input[12..][k..];
            && input[8..12] == r[8..12] && input[12..][..k] == DataOf(r)
            && |after| == 1 + |rest| && input[..12] + DataOf(r) + after[..1] == r && after[1..] == rest
  {}

  /** One framed record is read as its fields say. */
  lemma ReadsFrame(crc: seq<Byte>, header: seq<Byte>, kind: int, body: seq<Byte>, rest: seq<Byte>)
    requires |crc| == 8 && |header| == 28 && Fits(kind) && Fits(32 + |body|)
    ensures var r := Framed(crc, header, kind, body);
            && NextTxn(r + rest) == (match ParseEntry(kind, body)
                                     case Broken => Aborted
                                     case Unknown(_) => UnknownType
                                     case Known(_, _) => Record(r, Dropped(ParseEntry(kind, body)), rest))
            && (WholeRecord(r) <==> ParseEntry(kind, body).Known?)
  {
    var r := Framed(crc, header, kind, body);
    FrameParts(crc, header, kind, body);
    Followed(r, rest);
    hide ParseEntry, ParseData, Signed32, Int32, Framed, Dropped, DataOf;
    var input, k := r + rest, 32 + |body|;
    assert input[12..][..k] == DataOf(r);
  }

  /** What ZooKeeper wrote is a whole record, and dropped exactly when it is a session's; only a
      znode set to missing data makes the run abort. */
  lemma ReadsRecord(l: Logged, rest: seq<Byte>)
    requires LoggedFits(l)
    ensures var txn := NextTxn(RecordOf(l) + rest);
            if Unreadable(l.txn) then txn.Aborted?
            else txn == Record(RecordOf(l), IsSessionTxn(l.txn), rest)
    ensures WholeRecord(RecordOf(l)) <==> !Unreadable(l.txn)
  {
    hide NextTxn, Fields, FieldsFit, ParseEntry, Framed, WholeRecord;
    ParsesFields(l.txn, l.more);
    ReadsFrame(l.crc, l.header, TypeNumber(l.txn), Fields(l.txn, l.more), rest);
  }

  /** A record of any other type stops the reading, whatever its fields. */
  lemma OtherTypesStop(crc: seq<Byte>, header: seq<Byte>, kind: int, body: seq<Byte>, rest: seq<Byte>)
    requires |crc| == 8 && |header| == 28 && Fits(kind) && Fits(32 + |body|)
    requires kind !in {1, 2, 5, 7, -1, 14, -10, -11}
    ensures NextTxn(Framed(crc, header, kind, body) + rest).UnknownType?
  {
    assert ParseEntry(kind, body).Unknown?;
    hide NextTxn, ParseEntry, Framed;
    ReadsFrame(crc, header, kind, body, rest);
  }

  /** A length of a path that is negative or more than there is makes the run abort, and so does a
      number that is cut short. */
  lemma MalformedAborts(crc: seq<Byte>, header: seq<Byte>, kind: int, body: seq<Byte>, rest: seq<Byte>)
    requires |crc| == 8 && |header| == 28 && Fits(kind) && Fits(32 + |body|)
    ensures var txn := NextTxn(Framed(crc, header, kind, body) + rest);
            && (kind == 2 ==>
                  if |body| >= 4 && 0 <= Signed32(body[..4]) <= |body| - 4 then txn.Record? else txn.Aborted?)
            && (kind in {5, 7} && (|body| < 4 || !(0 <= Signed32(body[..4]) <= |body| - 4)) ==> txn.Aborted?)
            && (kind in {-1, -10} ==> if |body| >= 4 then txn.Record? else txn.Aborted?)
            && (kind in {14, -11} ==> txn.Record?)
  {
    hide NextTxn, Framed, Signed32, DataAt, AclListAt, CreateAt;
    ReadsFrame(crc, header, kind, body, rest);
  }

  /** A record too short for its header makes the run abort, and so does a length below -1. */
  lemma ShortRecordAborts(crc: seq<Byte>, length: int, rest: seq<Byte>)
    requires |crc| == 8 && Fits(length) && length != 0 && (length < -1 || 0 < length < 32 || |rest| < 32)
    ensures NextTxn(crc + Int32(length) + rest).Aborted?
  {
    ReadsInt32(length);
    hide Int32, Signed32, ParseEntry;
    var input := crc + Int32(length) + rest;
    assert input[8..12] == Int32(length);
    assert input[12..] == rest;
  }

  // ---------- whole logs ----------

  ghost predicate AllFit(log: seq<Logged>) {
    forall l :: l in log ==> LoggedFits(l)
  }

  ghost function LogBytes(log: seq<Logged>): seq<Byte>
    requires AllFit(log)
  {
    if log == [] then [] else RecordOf(log[0]) + LogBytes(log[1..])
  }

  function WithoutSessions(log: seq<Logged>): (r: seq<Logged>)
    ensures forall l :: l in r ==> l in log
  {
    if log == [] then []
    else if IsSessionTxn(log[0].txn) then WithoutSessions(log[1..])
    else [log[0]] + WithoutSessions(log[1..])
  }

  /** Twelve zero bytes. */
  const TERMINATOR: seq<Byte> := [0, 0, 0, 0, 0, 0, 0, 0, 0, 0, 0, 0]

  /** Reading stops here: at zeros, or at a record of another type. */
  ghost predicate Ends(tail: seq<Byte>) {
    || TERMINATOR <= tail
    || exists crc, header, kind, body, rest :: Foreign(crc, header, kind, body) &&
                                              tail == Framed(crc, header, kind, body) + rest
  }

  ghost predicate Foreign(crc: seq<Byte>, header: seq<Byte>, kind: int, body: seq<Byte>) {
    |crc| == 8 && |header| == 28 && Fits(kind) && Fits(32 + |body|) && kind !in {1, 2, 5, 7, -1, 14, -10, -11}
  }

  lemma EndsIsStop(tail: seq<Byte>)
    requires Ends(tail)
    ensures Stops(tail)
  {
    if TERMINATOR <= tail {
      assert tail[8..12] == [0, 0, 0, 0];
    } else {
      var crc, header, kind, body, rest :| Foreign(crc, header, kind, body) &&
                                          tail == Framed(crc, header, kind, body) + rest;
      OtherTypesStop(crc, header, kind, body, rest);
      EndsAtStop(tail);
    }
  }

  lemma TerminatorIs()
    ensures END_OF_STREAM == TERMINATOR
  {}

  ghost predicate SomeUnreadable(log: seq<Logged>) {
    exists l :: l in log && Unreadable(l.txn)
  }

  /** The first record and the rest of a log. */
  lemma FirstWritten(log: seq<Logged>, tail: seq<Byte>)
    requires log != [] && AllFit(log)
    ensures AllFit(log[1..]) && LoggedFits(log[0])
    ensures LogBytes(log) + tail == RecordOf(log[0]) + (LogBytes(log[1..]) + tail)
    ensures SomeUnreadable(log) <==> Unreadable(log[0].txn) || SomeUnreadable(log[1..])
  {
    hide LoggedFits, RecordOf, Unreadable;
    assert log == [log[0]] + log[1..];
  }

  lemma {:induction false} FilterWrittenRecords(log: seq<Logged>, tail: seq<Byte>)
    requires AllFit(log) && Ends(tail)
    ensures FilterRecords(LogBytes(log) + tail) ==
            if SomeUnreadable(log) then None else Some(LogBytes(WithoutSessions(log)) + TERMINATOR)
  {
    hide NextTxn, FilterRecords, LoggedFits, RecordOf, Unreadable, Stops, Ends, IsSessionTxn;
    FilterRecordsStep(LogBytes(log) + tail);
    TerminatorIs();
    if log == [] {
      assert LogBytes(log) + tail == tail;
      EndsIsStop(tail);
      EndsAtStop(tail);
      assert LogBytes(WithoutSessions(log)) + TERMINATOR == TERMINATOR;
    } else {
      var rest := log[1..];
      FirstWritten(log, tail);
      ReadsRecord(log[0], LogBytes(rest) + tail);
      FilterWrittenRecords(rest, tail);
      hide SomeUnreadable;
      var kept := WithoutSessions(rest);
      if IsSessionTxn(log[0].txn) {
        assert [] + (LogBytes(kept) + TERMINATOR) == LogBytes(kept) + TERMINATOR;
      } else {
        assert ([log[0]] + kept)[1..] == kept;
        FirstWritten([log[0]] + kept, TERMINATOR);
      }
    }
  }

  /** On every log that ZooKeeper can have written the run ends exactly when no znode was set to
      missing data. It then writes the file header, every record that is not a session's, byte
      for byte and in order, and the terminator. */
  lemma FilterOnWritten(header: seq<Byte>, log: seq<Logged>, tail: seq<Byte>)
    requires |header| == 16 && AllFit(log) && Ends(tail)
    ensures Filter(header + LogBytes(log) + tail) ==
            if SomeUnreadable(log) then None else Some(header + LogBytes(WithoutSessions(log)) + TERMINATOR)
  {
    hide FilterRecords, LogBytes, SomeUnreadable, Ends, LoggedFits, WithoutSessions;
    var input := header + LogBytes(log) + tail;
    assert input[..16] == header && input[16..] == LogBytes(log) + tail;
    FilterWrittenRecords(log, tail);
    if FilterRecords(input[16..]).Some? {
      var kept := LogBytes(WithoutSessions(log));
      assert header + (kept + TERMINATOR) == header + kept + TERMINATOR;
    }
  }

  /** The znode "/e" set to missing data. */
  const MISSING := Logged(Zeros(8), Zeros(28), DataSet([47, 101], None, 1), [])

  /** A log with only that record makes the run abort. */
  lemma MissingDataAborts(header: seq<Byte>)
    requires |header| == 16
    ensures AllFit([MISSING]) && Filter(header + LogBytes([MISSING]) + TERMINATOR) == None
  {
    assert LoggedFits(MISSING) by {
      hide Int32;
      assert |Fields(MISSING.txn, [])| == 14;
    }
    hide LoggedFits, Filter;
    var log := [MISSING];
    assert MISSING in log && SomeUnreadable(log);
    FilterOnWritten(header, log, TERMINATOR);
  }
}
