/** The text in which the server stores a fleet: one "type,orientation,row,col;" per ship. */
module FleetText {
  import opened Protocol

  datatype Option<+T> = None | Some(value: T)

  /** What is written of a ship. */
  datatype Record = Record(typ: int, orientation: int, row: int, col: int)

  function RecordOf(s: Ship): Record {
    Record(s.typ, s.orientation, s.position.row, s.position.col)
  }

  // ---------------------------------------------------------------- numbers

  predicate IsDigit(c: char) {
    '0' <= c <= '9'
  }

  function DigitChar(d: nat): (c: char)
    requires d < 10
    ensures IsDigit(c) && c as int == '0' as int + d
  {
    '0' + d as char
  }

  function NatText(n: nat): (text: string)
    ensures text != [] && forall i :: 0 <= i < |text| ==> IsDigit(text[i])
  {
    if n < 10 then [DigitChar(n)] else NatText(n / 10) + [DigitChar(n % 10)]
  }

  /** `std::to_string`. */
  function IntText(n: int): (text: string)
    ensures text != [] && forall i :: 0 <= i < |text| ==> IsDigit(text[i]) || text[i] == '-'
  {
    if n < 0 then "-" + NatText(-n) else NatText(n)
  }

  function DigitsValue(text: string, acc: nat): nat {
    if text == [] || !IsDigit(text[0]) then acc
    else DigitsValue(text[1..], 10 * acc + (text[0] as int - '0' as int))
  }

  predicate IsSpace(c: char) {
    c in {' ', '\t', '\n', '\r'} || c as int == 11 || c as int == 12
  }

  function SkipSpace(text: string): string {
    if text != [] && IsSpace(text[0]) then SkipSpace(text[1..]) else text
  }

  /** `std::stoi`: optional space and sign, then digits; what follows them is ignored. None stands
      for the exception; values outside the range of int are not modelled. */
  function Stoi(text: string): Option<int> {
    var s := SkipSpace(text);
    var negative := s != [] && s[0] == '-';
    var digits := if s != [] && (s[0] == '-' || s[0] == '+') then s[1..] else s;
    if digits == [] || !IsDigit(digits[0]) then None
    else
      var value: int := DigitsValue(digits, 0);
      Some(if negative then -value else value)
  }

  lemma {:induction false} DigitsValueAppend(a: string, b: string, acc: nat)
    requires forall i :: 0 <= i < |a| ==> IsDigit(a[i])
    ensures DigitsValue(a + b, acc) == DigitsValue(b, DigitsValue(a, acc))
    decreases |a|
  {
    if a == [] {
      assert a + b == b;
    } else {
      assert (a + b)[1..] == a[1..] + b;
      DigitsValueAppend(a[1..], b, 10 * acc + (a[0] as int - '0' as int));
    }
  }

  lemma {:induction false} NatTextValue(n: nat)
    ensures DigitsValue(NatText(n), 0) == n
  {
    if n >= 10 {
      NatTextValue(n / 10);
      DigitsValueAppend(NatText(n / 10), [DigitChar(n % 10)], 0);
    }
    var last: string := [DigitChar(n % 10)];
    assert last[1..] == [];
  }

  lemma {:induction false} StoiIntText(n: int)
    ensures Stoi(IntText(n)) == Some(n)
  {
    if n < 0 {
      NatTextValue(-n);
      assert IntText(n)[1..] == NatText(-n);
    } else {
      NatTextValue(n);
    }
  }

  // ---------------------------------------------------------------- lines and fields

  function IndexOf(text: string, c: char): (i: nat)
    ensures i <= |text| && (i < |text| ==> text[i] == c)
    ensures forall k :: 0 <= k < i ==> text[k] != c
  {
    if text == [] || text[0] == c then 0
    else
      var i := IndexOf(text[1..], c);
      assert forall k :: 1 <= k < i + 1 ==> text[k] == text[1..][k - 1];
      i + 1
  }

  datatype Line = Line(text: string, rest: string)

  /** `std::getline` on what is left of a stream; None when nothing is left. */
  function GetLine(text: string, delimiter: char): (line: Option<Line>)
    ensures line.None? <==> text == []
    ensures line.Some? ==> |line.value.rest| < |text|
  {
    if text == [] then None
    else
      var i := IndexOf(text, delimiter);
      Some(if i < |text| then Line(text[..i], text[i + 1..]) else Line(text, []))
  }

  lemma {:induction false} GetLineOf(line: string, delimiter: char, rest: string)
    requires delimiter !in line
    ensures GetLine(line + [delimiter] + rest, delimiter) == Some(Line(line, rest))
    ensures line != [] ==> GetLine(line, delimiter) == Some(Line(line, []))
  {
    var text := line + [delimiter] + rest;
    var i := IndexOf(text, delimiter);
    assert text[|line|] == delimiter;
    assert forall k :: 0 <= k < |line| ==> text[k] == line[k];
    assert i == |line|;
    assert text[..i] == line && text[i + 1..] == rest;
  }

  // ---------------------------------------------------------------- ships

  datatype Fields = Absent | Malformed | Number(value: int, rest: string)

  /** Read the next comma-separated number. */
  function NextNumber(text: string): (f: Fields) {
    match GetLine(text, ',')
    case None => Absent
    case Some(line) =>
      match Stoi(line.text)
      case None => Malformed
      case Some(n) => Number(n, line.rest)
  }

  datatype ShipText = SkippedShip | BadShip | GoodShip(record: Record)

  /** A token with fewer than four fields is skipped, one with a field that is no number throws. */
  function ParseShip(token: string): ShipText {
    var f1 := NextNumber(token);
    if f1.Absent? then SkippedShip else if f1.Malformed? then BadShip else
    var f2 := NextNumber(f1.rest);
    if f2.Absent? then SkippedShip else if f2.Malformed? then BadShip else
    var f3 := NextNumber(f2.rest);
    if f3.Absent? then SkippedShip else if f3.Malformed? then BadShip else
    var f4 := NextNumber(f3.rest);
    if f4.Absent? then SkippedShip else if f4.Malformed? then BadShip else
    GoodShip(Record(f1.value, f2.value, f3.value, f4.value))
  }

  /** The records up to the end of the text or up to the first exception. */
  datatype Parsed = Parsed(records: seq<Record>, ok: bool)

  function ParseFleet(text: string): Parsed
    decreases |text|
  {
    match GetLine(text, ';')
    case None => Parsed([], true)
    case Some(line) =>
      if line.text == [] then ParseFleet(line.rest)
      else
        match ParseShip(line.text)
        case SkippedShip => ParseFleet(line.rest)
        case BadShip => Parsed([], false)
        case GoodShip(r) => var later := ParseFleet(line.rest); Parsed([r] + later.records, later.ok)
  }

  function ShipToken(r: Record): string {
    IntText(r.typ) + "," + IntText(r.orientation) + "," + IntText(r.row) + "," + IntText(r.col)
  }

  function PrintFleet(records: seq<Record>): string {
    if records == [] then []
    else ShipToken(records[0]) + ";" + PrintFleet(records[1..])
  }

  /** Two ships as they stand in the database: type, orientation, row and column. */
  lemma {:induction false} PrintedExample()
    ensures PrintFleet([Record(0, 1, 2, 3), Record(4, 0, 10, -7)]) == "0,1,2,3;4,0,10,-7;"
  {
    assert IntText(0) == "0" && IntText(1) == "1" && IntText(2) == "2" && IntText(3) == "3" && IntText(4) == "4";
    assert NatText(10) == NatText(1) + NatText(0) == "10" && NatText(7) == "7" && IntText(-7) == "-7";
    var records := [Record(0, 1, 2, 3), Record(4, 0, 10, -7)];
    assert ShipToken(records[0]) == "0,1,2,3" && ShipToken(records[1]) == "4,0,10,-7";
    assert records[1..] == [records[1]] && records[1..][1..] == [];
  }

  lemma {:induction false} NextNumberOf(n: int, rest: string)
    ensures NextNumber(IntText(n) + "," + rest) == Number(n, rest)
    ensures NextNumber(IntText(n)) == Number(n, [])
  {
    StoiIntText(n);
    GetLineOf(IntText(n), ',', rest);
  }

  lemma {:induction false} ParseShipToken(r: Record)
    ensures ParseShip(ShipToken(r)) == GoodShip(r)
  {
    var t4 := IntText(r.col);
    var t3 := IntText(r.row) + "," + t4;
    var t2 := IntText(r.orientation) + "," + t3;
    assert ShipToken(r) == IntText(r.typ) + "," + t2;
    NextNumberOf(r.typ, t2);
    NextNumberOf(r.orientation, t3);
    NextNumberOf(r.row, t4);
    NextNumberOf(r.col, []);
  }

  lemma {:induction false} ParseOneShip(r: Record, rest: string)
    ensures ParseFleet(ShipToken(r) + ";" + rest)
         == Parsed([r] + ParseFleet(rest).records, ParseFleet(rest).ok)
  {
    assert ';' !in ShipToken(r);
    GetLineOf(ShipToken(r), ';', rest);
    ParseShipToken(r);
  }

  lemma {:induction false} StoiExamples()
    ensures Stoi(" +12x") == Some(12) && Stoi("-7") == Some(-7)
    ensures Stoi("") == None && Stoi("-") == None && Stoi("x1") == None
  {
    var t: string := " +12x";
    assert t[1..] == "+12x" && "+12x"[1..] == "12x" && "12x"[1..] == "2x" && "2x"[1..] == "x";
    assert "-7"[1..] == "7" && "7"[1..] == "" && "-"[1..] == "";
  }

  /** What the parser makes of other entries: it passes over empty ones and over those with fewer than four fields, and
      stops at the first field that is no number. */
  lemma {:induction false} OtherEntries(rest: string)
    ensures ParseFleet(";" + rest) == ParseFleet(rest)
    ensures ParseFleet("3;" + rest) == ParseFleet(rest)
    ensures ParseFleet("x;" + rest) == Parsed([], false)
  {
    GetLineOf("", ';', rest);
    assert "" + [';'] + rest == ";" + rest;
    GetLineOf("3", ';', rest);
    assert "3" + [';'] + rest == "3;" + rest;
    GetLineOf("x", ';', rest);
    assert "x" + [';'] + rest == "x;" + rest;
    GetLineOf("3", ',', "");
    GetLineOf("x", ',', "");
    StoiOne();
    assert NextNumber("3") == Number(3, "") && NextNumber("") == Absent && NextNumber("x") == Malformed;
    hide Stoi, NextNumber, GetLine;
  }

  lemma {:induction false} StoiOne()
    ensures Stoi("3") == Some(3) && Stoi("x") == None
  {
    assert "3"[1..] == "";
  }

  /** Round trip: parsing the printed text of any list of records gives the list back. */
  lemma {:induction false} ParseInvertsPrint(records: seq<Record>)
    ensures ParseFleet(PrintFleet(records)) == Parsed(records, true)
    decreases |records|
  {
    if records == [] {
    } else {
      ParseInvertsPrint(records[1..]);
      ParseOneShip(records[0], PrintFleet(records[1..]));
    }
  }
}
