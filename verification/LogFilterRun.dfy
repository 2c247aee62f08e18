/** The filter as it runs: a file that is read forward, one transaction at a time, and an
    output that grows. Both methods are proved to compute the functions of LogFilter. */
module LogFilterRun {
  import opened Bytes
  import opened TxnEntries
  import opened LogFilter

  class InputFile {
    const content: seq<Byte>
    var position: nat

    ghost predicate Valid()
      reads this
    {
      position <= |content|
    }

    ghost function Remaining(): seq<Byte>
      requires Valid()
      reads this
    {
      content[position..]
    }

    constructor (bytes: seq<Byte>)
      ensures Valid() && content == bytes && Remaining() == bytes
    {
      content, position := bytes, 0;
    }

    /** `ok` is false when the count is refused with a ValueError. */
    method Read(count: int) returns (ok: bool, part: seq<Byte>)
      requires Valid()
      modifies this
      ensures Valid()
      ensures ok <==> CanRead(count)
      ensures var was := old(Remaining());
              if ok then part == was[..FileBound(|was|, count)] && Remaining() == was[FileBound(|was|, count)..]
              else part == [] && Remaining() == was
    {
      if count < -1 {
        return false, [];
      }
      var k := FileBound(|content| - position, count);
      ok, part := true, content[position..position + k];
      position := position + k;
    }
  }

  /** The entry readers behind the type field. */
  method ReadEntry(kind: int, record: TransactionData) returns (parsed: Parsed)
    requires record.Valid() && record.rest == record.body
    modifies record`rest, record`taken
    ensures record.Valid()
    ensures parsed == ParseEntry(kind, old(record.body))
  {
    hide CreateAt, SetDataAt, SetAclAt, StringAt, IntAt;
    if kind == CREATE {
      var e := ReadCreate(record);
      parsed := if e.Some? then Known(kind, e.value) else Broken;
    } else if kind == DELETE {
      var path := ReadString(record);
      parsed := if path.Some? then Known(kind, Delete(path.value)) else Broken;
    } else if kind == SET_DATA {
      var e := ReadSetData(record);
      parsed := if e.Some? then Known(kind, e.value) else Broken;
    } else if kind == SET_ACL {
      var e := ReadSetAcl(record);
      parsed := if e.Some? then Known(kind, e.value) else Broken;
    } else if kind == SESSION_CREATE {
      var timeout := ReadInt(record);
      parsed := if timeout.Some? then Known(kind, SessionCreate(timeout.value)) else Broken;
    } else if kind == SESSION_CLOSE {
      parsed := Known(kind, SessionClose);
    } else if kind == ERROR {
      var err := ReadInt(record);
      parsed := if err.Some? then Known(kind, Error(err.value)) else Broken;
    } else if kind == MULTI {
      parsed := Known(kind, Multi);
    } else {
      parsed := Unknown(kind);
    }
  }

  /** Header and entry of one record; the record's own bytes stay as they were read. */
  method ReadRecord(record: TransactionData) returns (parsed: Parsed)
    requires record.Valid() && record.rest == record.body == record.initial
    modifies record
    ensures record.Valid()
    ensures parsed == ParseData(record.initial)
  {
    hide ParseEntry, Signed32;
    var header := record.Read(TXN_HEADER);
    if |header| < TXN_HEADER {
      return Broken;
    }
    record.StartBody();
    assert header[28..32] == record.initial[28..32];
    parsed := ReadEntry(Signed32(header[28..32]), record);
  }

  /** How constructing one Txn ends: with the bytes to write, or with an exception. */
  datatype Outcome = Bytes(bytes: seq<Byte>) | Eos | UnknownOp | Raised

  ghost function ToOutcome(txn: Txn): Outcome {
    match txn
    case Record(bytes, dropped, _) => Bytes(if dropped then [] else bytes)
    case EndOfStream => Eos
    case UnknownType => UnknownOp
    case Aborted => Raised
  }

  method ReadTxn(stream: InputFile) returns (r: Outcome)
    requires stream.Valid()
    modifies stream
    ensures stream.Valid()
    ensures r == ToOutcome(NextTxn(old(stream.Remaining())))
    ensures r.Bytes? ==> stream.Remaining() == NextTxn(old(stream.Remaining())).rest
  {
    hide ParseData, Signed32;
    ghost var input := stream.Remaining();
    var ok, head := stream.Read(TXN_HEAD);
    if |head| < TXN_HEAD {
      return Raised;
    }
    assert head[8..12] == input[8..12];
    var length := Signed32(head[8..12]);
    if length == 0 {
      return Eos;
    }
    assert stream.Remaining() == input[TXN_HEAD..];
    var data;
    ok, data := stream.Read(length);
    if !ok {
      return Raised;
    }
    var record := new TransactionData(data);
    var parsed := ReadRecord(record);
    if parsed.Broken? {
      return Raised;
    }
    if parsed.Unknown? {
      return UnknownOp;
    }
    var eor;
    ok, eor := stream.Read(1);
    r := Bytes(if Dropped(parsed) then [] else head + record.initial + eor);
  }

  /** filter_and_store_transaction_log: `done` is false when an uncaught error ended the run. */
  method FilterAndStore(input: InputFile) returns (done: bool, output: seq<Byte>)
    requires input.Valid()
    modifies input
    ensures done <==> Filter(old(input.Remaining())).Some?
    ensures done ==> output == Filter(old(input.Remaining())).value
  {
    hide NextTxn, FilterRecords;
    ghost var start := input.Remaining();
    var ok;
    ok, output := input.Read(FILE_HEADER);
    if |output| < FILE_HEADER {
      return false, output;
    }
    ghost var header := output;
    ghost var all := FilterRecords(input.Remaining());
    ghost var records: seq<Byte> := [];
    while true
      invariant input.Valid()
      invariant header == start[..FILE_HEADER] && all == FilterRecords(start[FILE_HEADER..])
      invariant output == header + records
      invariant all.Some? == FilterRecords(input.Remaining()).Some?
      invariant all.Some? ==> all.value == records + FilterRecords(input.Remaining()).value
      decreases |input.Remaining()|
    {
      FilterRecordsStep(input.Remaining());
      var txn := ReadTxn(input);
      if txn.Bytes? {
        output, records := output + txn.bytes, records + txn.bytes;
      } else if txn.Raised? {
        return false, output;
      } else {
        return true, output + END_OF_STREAM;
      }
    }
  }
}
