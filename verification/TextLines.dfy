/** Text-mode reading said line by line: which bytes a restored value has, whatever ended its
    lines (process_znode_hierarchy.py opens value files in text mode). */
module TextLines {
  import opened Bytes
  import opened Znodes

  datatype Ending = ByCR | ByLF | ByCRLF

  /** A line with what ends it. */
  datatype Line = Line(text: seq<Byte>, ending: Ending)

  /** The bytes 13, 10, or both. */
  function EndBytes(e: Ending): seq<Byte> {
    match e
    case ByCR => [13]
    case ByLF => [10]
    case ByCRLF => [13, 10]
  }

  function Spelled(lines: seq<Line>): seq<Byte> {
    if lines == [] then [] else lines[0].text + EndBytes(lines[0].ending) + Spelled(lines[1..])
  }

  /** The same lines, each ended by the byte 10. */
  function SpelledWithLF(lines: seq<Line>): seq<Byte> {
    if lines == [] then [] else lines[0].text + [10] + SpelledWithLF(lines[1..])
  }

  predicate IsText(s: seq<Byte>) {
    13 !in s && 10 !in s
  }

  /** A CR directly before an LF ends its line together with it. */
  ghost predicate AreLines(lines: seq<Line>) {
    && (forall i :: 0 <= i < |lines| ==> IsText(lines[i].text))
    && (forall i :: 0 <= i < |lines| - 1 && lines[i].ending == ByCR ==>
                      !(lines[i + 1].text == [] && lines[i + 1].ending == ByLF))
  }

  ghost predicate StartsWithLF(s: seq<Byte>) {
    s != [] && s[0] == 10
  }

  lemma ByteStays(b: Byte, rest: seq<Byte>)
    requires b != 13
    ensures Normalise([b] + rest) == [b] + Normalise(rest)
  {
    assert ([b] + rest)[1..] == rest;
  }

  lemma {:induction false} TextStays(text: seq<Byte>, rest: seq<Byte>)
    requires IsText(text)
    ensures Normalise(text + rest) == text + Normalise(rest)
  {
    hide Normalise;
    if text == [] {
      assert text + rest == rest;
    } else {
      var tail := text[1..];
      assert text == [text[0]] + tail;
      TextStays(tail, rest);
      ByteStays(text[0], tail + rest);
      assert text + rest == [text[0]] + (tail + rest);
      assert text + Normalise(rest) == [text[0]] + (tail + Normalise(rest));
    }
  }

  lemma EndBecomesLF(e: Ending, rest: seq<Byte>)
    requires e == ByCR ==> !StartsWithLF(rest)
    ensures Normalise(EndBytes(e) + rest) == [10] + Normalise(rest)
  {
    var v := EndBytes(e) + rest;
    assert v[1..] == if e == ByCRLF then [10] + rest else rest;
    if e == ByCRLF {
      assert v[2..] == rest;
    }
  }

  lemma RestTails(lines: seq<Line>, last: seq<Byte>)
    requires lines != [] && AreLines(lines) && IsText(last)
    ensures AreLines(lines[1..])
    ensures lines[0].ending == ByCR ==> !StartsWithLF(Spelled(lines[1..]) + last)
  {
    var rest := lines[1..];
    if rest != [] {
      assert rest[0] == lines[1];
      var first := rest[0];
      assert Spelled(rest) == first.text + EndBytes(first.ending) + Spelled(rest[1..]);
      if first.text != [] {
        assert Spelled(rest)[0] == first.text[0];
      } else {
        assert Spelled(rest)[0] == EndBytes(first.ending)[0];
      }
    }
  }

  /** Reading a value in text mode ends each of its lines with LF and changes nothing else. */
  lemma {:induction false} NormaliseLines(lines: seq<Line>, last: seq<Byte>)
    requires AreLines(lines) && IsText(last)
    ensures Normalise(Spelled(lines) + last) == SpelledWithLF(lines) + last
  {
    hide Normalise, EndBytes;
    if lines == [] {
      NormaliseText(last);
      assert Spelled(lines) + last == last;
    } else {
      RestTails(lines, last);
      NormaliseLines(lines[1..], last);
      hide AreLines, IsText, StartsWithLF;
      var line, rest := lines[0], Spelled(lines[1..]) + last;
      Regroup(line.text, EndBytes(line.ending), Spelled(lines[1..]), last);
      TextStays(line.text, EndBytes(line.ending) + rest);
      EndBecomesLF(line.ending, rest);
      Regroup(line.text, [10], SpelledWithLF(lines[1..]), last);
    }
  }

  lemma NormaliseText(text: seq<Byte>)
    requires IsText(text)
    ensures Normalise(text) == text
  {
    TextStays(text, []);
    assert text + [] == text;
  }

  lemma Regroup(a: seq<Byte>, b: seq<Byte>, c: seq<Byte>, d: seq<Byte>)
    ensures (a + b + c) + d == a + (b + (c + d))
  {}

  /** Every value is such lines, so this says what reading makes of any value. */
  lemma {:induction false} EveryValueHasLines(v: seq<Byte>) returns (lines: seq<Line>, last: seq<Byte>)
    ensures AreLines(lines) && IsText(last) && v == Spelled(lines) + last
    decreases |v|, 0
  {
    if v == [] {
      lines, last := [], [];
    } else if v[0] == 13 && |v| > 1 && v[1] == 10 {
      lines, last := AddLine(Line([], ByCRLF), v[2..]);
      assert v == [13, 10] + v[2..];
    } else if v[0] == 13 {
      lines, last := AddLine(Line([], ByCR), v[1..]);
    } else if v[0] == 10 {
      lines, last := AddLine(Line([], ByLF), v[1..]);
    } else {
      var more, end := EveryValueHasLines(v[1..]);
      lines, last := AddByte(v[0], more, end);
      assert v == [v[0]] + v[1..];
    }
  }

  lemma AddByte(b: Byte, more: seq<Line>, end: seq<Byte>) returns (lines: seq<Line>, last: seq<Byte>)
    requires b != 13 && b != 10 && AreLines(more) && IsText(end)
    ensures AreLines(lines) && IsText(last) && Spelled(lines) + last == [b] + (Spelled(more) + end)
  {
    if more == [] {
      lines, last := [], [b] + end;
    } else {
      var first := Line([b] + more[0].text, more[0].ending);
      lines, last := [first] + more[1..], end;
      assert lines[1..] == more[1..];
      assert forall i :: 0 < i < |lines| ==> lines[i] == more[i];
      hide EndBytes;
      Regroup([b], more[0].text + EndBytes(first.ending), Spelled(more[1..]), end);
      assert first.text + EndBytes(first.ending) == [b] + (more[0].text + EndBytes(first.ending));
    }
  }

  lemma {:induction false} AddLine(line: Line, v: seq<Byte>) returns (lines: seq<Line>, last: seq<Byte>)
    requires IsText(line.text) && (line.ending == ByCR ==> !StartsWithLF(v))
    ensures AreLines(lines) && IsText(last) && line.text + EndBytes(line.ending) + v == Spelled(lines) + last
    decreases |v|, 1
  {
    var more;
    more, last := EveryValueHasLines(v);
    lines := [line] + more;
    assert lines[1..] == more;
    if more != [] && line.ending == ByCR {
      assert Spelled(more) == more[0].text + EndBytes(more[0].ending) + Spelled(more[1..]);
      assert more[0].text == [] && more[0].ending == ByLF ==> StartsWithLF(v);
    }
    assert forall i :: 0 < i < |lines| ==> lines[i] == more[i - 1];
  }

  /** The value [65, 13, 10] is read as [65, 10]. */
  lemma OneLine()
    ensures Normalise([65, 13, 10]) == [65, 10]
  {
    var lines := [Line([65], ByCRLF)];
    assert lines[1..] == [];
    assert Spelled(lines) + [] == [65, 13, 10] && SpelledWithLF(lines) + [] == [65, 10];
    NormaliseLines(lines, []);
  }
}
