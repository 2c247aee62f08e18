/** The transaction-log filter: reading one transaction from a log
    (backup-daemon/scripts/parse_transaction_logs.py, class Txn) and rewriting a whole log
    without session transactions (backup-daemon/scripts/process_zookeeper_logs.py).

    An uncaught struct.error or ValueError ends a run without any guarantee: such a run is
    "aborted". */
module LogFilter {
  import opened Bytes
  import opened TxnEntries

  const SESSION_CLOSE := -11
  const SESSION_CREATE := -10
  const ERROR := -1
  const CREATE := 1
  const DELETE := 2
  const SET_DATA := 5
  const SET_ACL := 7
  const MULTI := 14

  const FILE_HEADER := 16
  const TXN_HEAD := 12
  const TXN_HEADER := 32
  const END_OF_STREAM: seq<Byte> := Zeros(12)

  function Zeros(n: nat): (z: seq<Byte>)
    ensures |z| == n && forall i :: 0 <= i < n ==> z[i] == 0
  {
    if n == 0 then [] else [0] + Zeros(n - 1)
  }

  // ---------- one record ----------

  /** The data of one transaction: understood, of an unknown type, or a struct.error. */
  datatype Parsed = Known(kind: int, entry: Entry) | Unknown(kind: int) | Broken

  function FromRead(kind: int, r: Read<Entry>): Parsed {
    if r.Got? then Known(kind, r.value) else Broken
  }

  function ParseEntry(kind: int, body: seq<Byte>): Parsed {
    if kind == CREATE then FromRead(kind, CreateAt(body))
    else if kind == DELETE then
      (if StringAt(body).Got? then Known(kind, Delete(StringAt(body).value)) else Broken)
    else if kind == SET_DATA then FromRead(kind, SetDataAt(body))
    else if kind == SET_ACL then FromRead(kind, SetAclAt(body))
    else if kind == SESSION_CREATE then
      (if IntAt(body).Got? then Known(kind, SessionCreate(IntAt(body).value)) else Broken)
    else if kind == SESSION_CLOSE then Known(kind, SessionClose)
    else if kind == ERROR then
      (if IntAt(body).Got? then Known(kind, Error(IntAt(body).value)) else Broken)
    else if kind == MULTI then Known(kind, Multi)
    else Unknown(kind)
  }

  function ParseData(data: seq<Byte>): Parsed {
    if |data| < TXN_HEADER then Broken
    else ParseEntry(Signed32(data[28..32]), data[TXN_HEADER..])
  }

  /** What is written of a transaction: session transactions and creates whose `ephemeral`
      reads as true are dropped. */
  predicate Dropped(p: Parsed)
    requires p.Known?
  {
    p.kind == SESSION_CREATE || p.kind == SESSION_CLOSE || (p.entry.Create? && p.entry.ephemeral)
  }

  /** One Txn(stream): the record's own bytes, whether they are dropped, and the rest of the
      stream; or the exception it raises. */
  datatype Txn =
    | Record(bytes: seq<Byte>, dropped: bool, rest: seq<Byte>)
    | EndOfStream
    | UnknownType
    | Aborted

  /** stream.read(count) of a file: everything for -1, and a ValueError below that. */
  predicate CanRead(count: int) {
    count >= -1
  }

  function FileBound(length: nat, count: int): (k: nat)
    requires CanRead(count)
    ensures k <= length
  {
    if 0 <= count < length then count else length
  }

  function NextTxn(input: seq<Byte>): Txn {
    if |input| < TXN_HEAD then Aborted
    else
      var length := Signed32(input[8..12]);
      if length == 0 then EndOfStream
      else if !CanRead(length) then Aborted
      else
        var k := FileBound(|input| - TXN_HEAD, length);
        var data, after := input[TXN_HEAD..][..k], input[TXN_HEAD..][k..];
        var parsed := ParseData(data);
        if parsed.Broken? then Aborted
        else if parsed.Unknown? then UnknownType
        else
          var e := FileBound(|after|, 1);
          Record(input[..TXN_HEAD] + data + after[..e], Dropped(parsed), after[e..])
  }

  lemma NextTxnShrinks(input: seq<Byte>)
    ensures NextTxn(input).Record? ==> |NextTxn(input).rest| + TXN_HEAD <= |input|
  {
    hide ParseData, Dropped;
  }

  /** The loop over transactions: what is written after the file header, or None if aborted. */
  function FilterRecords(input: seq<Byte>): (out: Option<seq<Byte>>)
    decreases |input|
  {
    NextTxnShrinks(input);
    var txn := NextTxn(input);
    if txn.Aborted? then None
    else if txn.EndOfStream? || txn.UnknownType? then Some(END_OF_STREAM)
    else
      var more := FilterRecords(txn.rest);
      if more.None? then None
      else Some((if txn.dropped then [] else txn.bytes) + more.value)
  }

  /** The loop, one transaction at a time. */
  lemma FilterRecordsStep(input: seq<Byte>)
    ensures FilterRecords(input) ==
            match NextTxn(input)
            case Aborted => None
            case Record(bytes, dropped, rest) =>
              (if FilterRecords(rest).None? then None
               else Some((if dropped then [] else bytes) + FilterRecords(rest).value))
            case _ => Some(END_OF_STREAM)
    ensures NextTxn(input).Record? ==> |NextTxn(input).rest| < |input|
  {
    NextTxnShrinks(input);
    hide NextTxn;
  }

  function Filter(input: seq<Byte>): (out: Option<seq<Byte>>) {
    if |input| < FILE_HEADER || FilterRecords(input[FILE_HEADER..]).None? then None
    else Some(input[..FILE_HEADER] + FilterRecords(input[FILE_HEADER..]).value)
  }

  // ---------- a log, said without reading it ----------

  /** A whole record: a positive declared length, that many data bytes that parse, and the
      one-byte end marker. */
  ghost predicate WholeRecord(r: seq<Byte>) {
    |r| > TXN_HEAD &&
    var length := Signed32(r[8..12]);
    0 < length && |r| == TXN_HEAD + length + 1 && ParseData(DataOf(r)).Known?
  }

  ghost function DataOf(r: seq<Byte>): seq<Byte>
    requires |r| > TXN_HEAD
  {
    r[TXN_HEAD..|r| - 1]
  }

  /** Reading stops at `tail`: a zero length, or a record of an unknown type that can be read. */
  ghost predicate Stops(tail: seq<Byte>) {
    |tail| >= TXN_HEAD &&
    var length := Signed32(tail[8..12]);
    length == 0 ||
    (CanRead(length) &&
     ParseData(tail[TXN_HEAD..][..FileBound(|tail| - TXN_HEAD, length)]).Unknown?)
  }

  ghost function Concat(records: seq<seq<Byte>>): seq<Byte> {
    if records == [] then [] else records[0] + Concat(records[1..])
  }

  ghost predicate IsLog(input: seq<Byte>, header: seq<Byte>, records: seq<seq<Byte>>, tail: seq<Byte>) {
    && |header| == FILE_HEADER
    && (forall r :: r in records ==> WholeRecord(r))
    && Stops(tail)
    && input == header + Concat(records) + tail
  }

  ghost predicate IsSession(r: seq<Byte>)
    requires WholeRecord(r)
  {
    ParseData(DataOf(r)).kind in {SESSION_CREATE, SESSION_CLOSE}
  }

  /** The records that are not session transactions, in order. */
  ghost function Kept(records: seq<seq<Byte>>): (kept: seq<seq<Byte>>)
    requires forall r :: r in records ==> WholeRecord(r)
    ensures forall r :: r in kept ==> r in records && !IsSession(r)
  {
    if records == [] then []
    else if IsSession(records[0]) then Kept(records[1..])
    else [records[0]] + Kept(records[1..])
  }

  ghost function FilteredLog(header: seq<Byte>, records: seq<seq<Byte>>): seq<Byte>
    requires forall r :: r in records ==> WholeRecord(r)
  {
    header + Concat(Kept(records)) + END_OF_STREAM
  }

  // ---------- the readers meet the declaration ----------

  /** As written, read_bool is false for every byte, so no parsed create is ephemeral. */
  lemma NoCreateReadsEphemeral(data: seq<Byte>)
    ensures ParseData(data).Known? && ParseData(data).entry.Create? ==>
              !ParseData(data).entry.ephemeral && ParseData(data).kind == CREATE
  {
    hide StringAt, AclListAt, DataAt, FlagAt, Signed32, IntAt;
  }

  /** A whole record in front of anything is read back exactly. */
  lemma ReadsWholeRecord(r: seq<Byte>, more: seq<Byte>)
    requires WholeRecord(r)
    ensures NextTxn(r + more) == Record(r, IsSession(r), more)
  {
    hide ParseData, Signed32;
    var input := r + more;
    assert input[8..12] == r[8..12];
    var length := Signed32(r[8..12]);
    var k := FileBound(|input| - TXN_HEAD, length);
    assert k == length;
    assert input[TXN_HEAD..][..k] == DataOf(r);
    var after := input[TXN_HEAD..][k..];
    assert after == r[|r| - 1..] + more;
    assert after[1..] == more;
    assert r == input[..TXN_HEAD] + DataOf(r) + after[..1];
    NoCreateReadsEphemeral(DataOf(r));
  }

  /** A record followed by a readable head is whole: after a short or a negative-length read
      the stream is exhausted, and the next head cannot be read. */
  lemma ReadRecordIsWhole(input: seq<Byte>)
    requires NextTxn(input).Record? && |NextTxn(input).rest| >= TXN_HEAD
    ensures var txn := NextTxn(input);
            WholeRecord(txn.bytes) && txn.dropped == IsSession(txn.bytes) &&
            input == txn.bytes + txn.rest
  {
    hide ParseData, Signed32;
    var length := Signed32(input[8..12]);
    var k := FileBound(|input| - TXN_HEAD, length);
    var data, after := input[TXN_HEAD..][..k], input[TXN_HEAD..][k..];
    assert k == length && |after| > 0;
    var r := NextTxn(input).bytes;
    assert r == input[..TXN_HEAD] + data + after[..1];
    assert r[8..12] == input[8..12];
    assert DataOf(r) == data;
    assert input == r + after[1..];
    NoCreateReadsEphemeral(data);
  }

  /** The first read of a log tells its first record, or that there is none. */
  lemma FirstOfLog(records: seq<seq<Byte>>, tail: seq<Byte>)
    requires forall r :: r in records ==> WholeRecord(r)
    requires Stops(tail)
    ensures var txn := NextTxn(Concat(records) + tail);
            if records == [] then
              (txn.EndOfStream? || txn.UnknownType?) && Concat(records) + tail == tail
            else txn == Record(records[0], IsSession(records[0]), Concat(records[1..]) + tail)
  {
    hide WholeRecord, ParseData;
    if records == [] {
      assert Concat(records) + tail == tail;
    } else {
      assert Concat(records) + tail == records[0] + (Concat(records[1..]) + tail);
      ReadsWholeRecord(records[0], Concat(records[1..]) + tail);
    }
  }

  lemma {:induction false} FilterRecordsComplete(records: seq<seq<Byte>>, tail: seq<Byte>)
    requires forall r :: r in records ==> WholeRecord(r)
    requires Stops(tail)
    ensures FilterRecords(Concat(records) + tail) == Some(Concat(Kept(records)) + END_OF_STREAM)
  {
    hide WholeRecord, IsSession, Stops, NextTxn, FilterRecords;
    FirstOfLog(records, tail);
    FilterRecordsStep(Concat(records) + tail);
    if records == [] {
      assert Concat(Kept(records)) + END_OF_STREAM == END_OF_STREAM;
    } else {
      FilterRecordsComplete(records[1..], tail);
      var kept := Concat(Kept(records[1..])) + END_OF_STREAM;
      if IsSession(records[0]) {
        assert [] + kept == kept;
      } else {
        assert Kept(records)[1..] == Kept(records[1..]);
        assert Concat(Kept(records)) + END_OF_STREAM == records[0] + kept;
      }
    }
  }

  /** Reading ends without an error exactly where the log says so. */
  lemma EndsAtStop(input: seq<Byte>)
    ensures NextTxn(input).EndOfStream? || NextTxn(input).UnknownType? <==> Stops(input)
    ensures |input| < TXN_HEAD || Signed32(input[8..12]) < -1 ==> NextTxn(input).Aborted?
  {
    hide ParseData, Dropped;
  }

  lemma {:induction false} FilterRecordsSound(input: seq<Byte>)
    returns (records: seq<seq<Byte>>, tail: seq<Byte>)
    requires FilterRecords(input).Some?
    ensures forall r :: r in records ==> WholeRecord(r)
    ensures Stops(tail) && input == Concat(records) + tail
    decreases |input|
  {
    hide FilterRecords, NextTxn, WholeRecord, Stops, IsSession;
    FilterRecordsStep(input);
    EndsAtStop(input);
    var txn := NextTxn(input);
    if txn.Record? {
      FilterRecordsStep(txn.rest);
      EndsAtStop(txn.rest);
      ReadRecordIsWhole(input);
      records, tail := FilterRecordsSound(txn.rest);
      assert ([txn.bytes] + records)[1..] == records;
      assert Concat([txn.bytes] + records) + tail == txn.bytes + (Concat(records) + tail);
      records := [txn.bytes] + records;
    } else {
      records, tail := [], input;
      assert Concat([]) + tail == tail;
    }
  }

  // ---------- the theorems ----------

  /** Every run that does not abort saw a log of whole records. */
  lemma LogOfRun(input: seq<Byte>)
    returns (header: seq<Byte>, records: seq<seq<Byte>>, tail: seq<Byte>)
    requires Filter(input).Some?
    ensures IsLog(input, header, records, tail)
  {
    header := input[..FILE_HEADER];
    records, tail := FilterRecordsSound(input[FILE_HEADER..]);
    assert input == header + (Concat(records) + tail);
    assert header + (Concat(records) + tail) == header + Concat(records) + tail;
  }

  /** On a log the filter writes the header, every record that is not a session transaction
      with its exact bytes and in order, and the terminator. */
  lemma RunOnLog(input: seq<Byte>, header: seq<Byte>, records: seq<seq<Byte>>, tail: seq<Byte>)
    requires IsLog(input, header, records, tail)
    ensures Filter(input) == Some(FilteredLog(header, records))
  {
    hide WholeRecord, Stops, FilterRecords, Kept, Concat;
    assert input == header + (Concat(records) + tail);
    assert input[FILE_HEADER..] == Concat(records) + tail;
    FilterRecordsComplete(records, tail);
    assert header + (Concat(Kept(records)) + END_OF_STREAM) == FilteredLog(header, records);
  }

  /** Filter image: the run gives `out` exactly when the input is a log whose kept records
      spell `out`; in particular it aborts exactly on inputs that are no log. */
  lemma FilterImage(input: seq<Byte>, out: seq<Byte>)
    ensures Filter(input) == Some(out) <==>
            exists header, records, tail ::
              IsLog(input, header, records, tail) && out == FilteredLog(header, records)
  {
    if Filter(input) == Some(out) {
      var header, records, tail := LogOfRun(input);
      RunOnLog(input, header, records, tail);
    }
    forall header, records, tail | IsLog(input, header, records, tail) {
      RunOnLog(input, header, records, tail);
    }
  }

  /** Two readings of one byte string as a log agree on every record. */
  lemma {:induction false} LogIsUnambiguous(records: seq<seq<Byte>>, tail: seq<Byte>,
                                            records': seq<seq<Byte>>, tail': seq<Byte>)
    requires forall r :: r in records ==> WholeRecord(r)
    requires forall r :: r in records' ==> WholeRecord(r)
    requires Stops(tail) && Stops(tail')
    requires Concat(records) + tail == Concat(records') + tail'
    ensures records == records' && tail == tail'
  {
    FirstOfLog(records, tail);
    FirstOfLog(records', tail');
    hide WholeRecord, Stops, NextTxn;
    if records != [] {
      LogIsUnambiguous(records[1..], tail, records'[1..], tail');
    }
  }

  lemma {:induction false} KeptIsKept(records: seq<seq<Byte>>)
    requires forall r :: r in records ==> WholeRecord(r)
    ensures Kept(Kept(records)) == Kept(records)
  {
    hide WholeRecord, IsSession;
    if records != [] {
      KeptIsKept(records[1..]);
      if !IsSession(records[0]) {
        assert Kept(records)[1..] == Kept(records[1..]);
      }
    }
  }

  /** Filter round trip: the output of a run that does not abort is itself a log, made of
      exactly the kept records and the terminator, and filtering it again changes no byte. */
  lemma FilterRoundTrip(input: seq<Byte>)
    ensures match Filter(input)
            case None => true
            case Some(out) =>
              && Filter(out) == Some(out)
              && (forall header, records, tail :: IsLog(input, header, records, tail) ==>
                    IsLog(out, header, Kept(records), END_OF_STREAM))
  {
    if Filter(input).Some? {
      var out := Filter(input).value;
      forall header, records, tail | IsLog(input, header, records, tail)
        ensures IsLog(out, header, Kept(records), END_OF_STREAM)
        ensures Filter(out) == Some(out)
      {
        FilteredIsLog(input, header, records, tail);
      }
      var header, records, tail := LogOfRun(input);
      assert IsLog(input, header, records, tail);
    }
  }

  lemma FilteredIsLog(input: seq<Byte>, header: seq<Byte>, records: seq<seq<Byte>>, tail: seq<Byte>)
    requires IsLog(input, header, records, tail)
    ensures var out := FilteredLog(header, records);
            && Filter(input) == Some(out) && Filter(out) == Some(out)
            && IsLog(out, header, Kept(records), END_OF_STREAM)
  {
    RunOnLog(input, header, records, tail);
    var out := FilteredLog(header, records);
    assert Stops(END_OF_STREAM) by {
      assert END_OF_STREAM[8..12] == [0, 0, 0, 0];
    }
    assert IsLog(out, header, Kept(records), END_OF_STREAM);
    RunOnLog(out, header, Kept(records), END_OF_STREAM);
    KeptIsKept(records);
  }
}
