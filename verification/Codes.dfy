/** OBIS codes and the cell of a metering point's block each of them feeds. */
module Codes {
  import opened Outcomes
  import opened CounterPoints
  import opened RawLine

  const CONSUMED := "1-1:1.9.0 G.01"
  const CONSUMED_T := "1-1:1.9.0 G.01T"
  const SHARE := "1-1:2.9.0 G.02"
  const COVERAGE := "1-1:2.9.0 G.03"
  const COVERAGE_R := "1-1:2.9.0 G.03R"
  const PRODUCED := "1-1:2.9.0 G.01"
  const PRODUCED_T := "1-1:2.9.0 G.01T"
  const PROFIT := "1-1:2.9.0 P.01"
  const PROFIT_T := "1-1:2.9.0 P.01T"

  // unicode.IsSpace
  predicate Space(c: char) {
    var n := c as int;
    || 9 <= n <= 13 || n == 32 || n == 0x85 || n == 0xA0 || n == 0x1680 || 0x2000 <= n <= 0x200A
    || n == 0x2028 || n == 0x2029 || n == 0x202F || n == 0x205F || n == 0x3000
  }

  function TrimLeft(s: string): (r: string)
    ensures r == "" || !Space(r[0])
    ensures |r| <= |s|
    ensures s != "" && !Space(s[0]) ==> r == s
  {
    if s != "" && Space(s[0]) then TrimLeft(s[1..]) else s
  }

  function TrimRight(s: string): (r: string)
    ensures r == "" || !Space(r[|r| - 1])
    ensures r <= s
    ensures s != "" && !Space(s[|s| - 1]) ==> r == s
  {
    if s != "" && Space(s[|s| - 1]) then TrimRight(s[..|s| - 1]) else s
  }

  // strings.TrimSpace
  function Trim(s: string): (r: string)
    ensures r == "" || (!Space(r[0]) && !Space(r[|r| - 1]))
    ensures s == "" || (!Space(s[0]) && !Space(s[|s| - 1])) ==> r == s
  {
    TrimRight(TrimLeft(s))
  }

  // The white space of Unicode.
  lemma {:induction false} SpacesByNumber(c: char)
    ensures Space(c) <==>
              c as int in [9, 10, 11, 12, 13, 32, 0x85, 0xA0, 0x1680, 0x2000, 0x2001, 0x2002, 0x2003, 0x2004, 0x2005,
                           0x2006, 0x2007, 0x2008, 0x2009, 0x200A, 0x2028, 0x2029, 0x202F, 0x205F, 0x3000]
  {
  }

  // Trimming takes whole runs of white space off both ends and nothing else.
  lemma {:induction false} TrimIsMiddle(s: string) returns (a: string, b: string)
    ensures s == a + Trim(s) + b
    ensures forall i :: 0 <= i < |a| ==> Space(a[i])
    ensures forall i :: 0 <= i < |b| ==> Space(b[i])
    ensures Trim(s) == "" || (!Space(Trim(s)[0]) && !Space(Trim(s)[|Trim(s)| - 1]))
  {
    hide Space;
    a := LeftBlanks(s);
    b := RightBlanks(TrimLeft(s));
  }

  lemma {:induction false} LeftBlanks(s: string) returns (a: string)
    ensures s == a + TrimLeft(s) && forall i :: 0 <= i < |a| ==> Space(a[i])
  {
    if s != "" && Space(s[0]) {
      var rest := LeftBlanks(s[1..]);
      a := [s[0]] + rest;
    } else {
      a := "";
    }
  }

  lemma {:induction false} RightBlanks(s: string) returns (b: string)
    ensures s == TrimRight(s) + b && forall i :: 0 <= i < |b| ==> Space(b[i])
  {
    if s != "" && Space(s[|s| - 1]) {
      var rest := RightBlanks(s[..|s| - 1]);
      b := rest + [s[|s| - 1]];
    } else {
      b := "";
    }
  }

  function SlotForCode(d: Direction, code: string): (r: Option<nat>)
    ensures r.Some? ==> r.value < Stride(d)
  {
    var c := Trim(code);
    match d
    case Consumer =>
      if c == CONSUMED || c == CONSUMED_T then Some(0)
      else if c == SHARE then Some(1)
      else if c == COVERAGE || c == COVERAGE_R then Some(2)
      else None
    case Producer =>
      if c == PRODUCED || c == PRODUCED_T then Some(0)
      else if c == PROFIT || c == PROFIT_T then Some(1)
      else None
  }

  // The plain code of a slot, as the spreadsheet import writes it.
  function CodeForSlot(d: Direction, slot: nat): (c: string)
    requires slot < Stride(d)
  {
    match d
    case Consumer => if slot == 0 then CONSUMED else if slot == 1 then SHARE else COVERAGE
    case Producer => if slot == 0 then PRODUCED else PROFIT
  }

  lemma {:induction false} CodesDiffer()
    ensures SHARE != CONSUMED && SHARE != CONSUMED_T && COVERAGE != CONSUMED && COVERAGE != CONSUMED_T
            && COVERAGE != SHARE
    ensures PROFIT != PRODUCED && PROFIT != PRODUCED_T
  {
    assert CONSUMED[4] == '1' && CONSUMED_T[4] == '1' && SHARE[4] == '2' && COVERAGE[4] == '2';
    assert SHARE[13] == '2' && COVERAGE[13] == '3';
    assert PROFIT[10] == 'P' && PRODUCED[10] == 'G' && PRODUCED_T[10] == 'G';
  }

  // The loader reads the code of a slot back into that slot.
  lemma {:induction false} CodeRoundTrip(d: Direction, slot: nat)
    requires slot < Stride(d)
    ensures SlotForCode(d, CodeForSlot(d, slot)) == Some(slot)
  {
    hide TrimLeft, TrimRight, Trim;
    CodesDiffer();
    var c := CodeForSlot(d, slot);
    assert c[0] == '1';
    assert c[|c| - 1] in "123";
    assert Trim(c) == c;
  }

  // Every text, by the slot it is read into: the codes are told by their letters.
  lemma {:induction false} CodesByText(code: string)
    ensures SlotForCode(Consumer, code) == Some(0) <==> Trim(code) in ["1-1:1.9.0 G.01", "1-1:1.9.0 G.01T"]
    ensures SlotForCode(Consumer, code) == Some(1) <==> Trim(code) == "1-1:2.9.0 G.02"
    ensures SlotForCode(Consumer, code) == Some(2) <==> Trim(code) in ["1-1:2.9.0 G.03", "1-1:2.9.0 G.03R"]
    ensures SlotForCode(Producer, code) == Some(0) <==> Trim(code) in ["1-1:2.9.0 G.01", "1-1:2.9.0 G.01T"]
    ensures SlotForCode(Producer, code) == Some(1) <==> Trim(code) in ["1-1:2.9.0 P.01", "1-1:2.9.0 P.01T"]
  {
    hide Trim;
    CodesDiffer();
    SecondCodesDiffer();
  }

  lemma {:induction false} SecondCodesDiffer()
    ensures COVERAGE_R != CONSUMED && COVERAGE_R != CONSUMED_T && COVERAGE_R != SHARE && COVERAGE_R != COVERAGE
    ensures PROFIT_T != PRODUCED && PROFIT_T != PRODUCED_T
  {
    assert COVERAGE_R[4] == '2' && CONSUMED[4] == CONSUMED_T[4] == '1';
    assert |COVERAGE_R| == |SHARE| + 1 == |COVERAGE| + 1;
    assert PROFIT_T[10] == 'P' && PRODUCED[10] == PRODUCED_T[10] == 'G';
  }
}
