/** ellmp.py, elprops: the polycrystalline moduli of a cubic crystal from
    its elastic constants, row by row of res_Cs.txt. The Voigt average
    (uniform strain) and the Reuss average (uniform stress) of the shear
    modulus give two Young's moduli and two Poisson ratios. */
module Moduli {
  import opened Common
  import opened Series
  import opened Averaging

  /** numpy scalar arithmetic on a value that may be NaN or infinite:
      such a value stays NaN or infinite. */
  function Scale(c: real, s: Stat): (r: Stat)
    ensures r.Defined? <==> s.Defined?
  {
    match s
    case Defined(v) => Defined(c * v)
    case Undefined => Undefined
  }

  /** B = (C11 + 2 C12)/3. */
  function Bulk(c11: real, c12: real): real
  {
    (c11 + 2.0 * c12) / 3.0
  }

  /** GV = (C11 - C12 + 3 C44)/5, the Voigt shear modulus. */
  function VoigtShear(c11: real, c12: real, c44: real): real
  {
    (c11 - c12 + 3.0 * c44) / 5.0
  }

  /** GR = 5 (C11 - C12) C44 / (3 (C11 - C12) + 4 C44), the Reuss shear
      modulus; numpy gives inf or nan when the denominator is zero. */
  function ReussShear(c11: real, c12: real, c44: real): (r: Stat)
    ensures r.Defined? <==> 3.0 * (c11 - c12) + 4.0 * c44 != 0.0
    ensures r.Defined? ==> r.value * (3.0 * (c11 - c12) + 4.0 * c44) == 5.0 * ((c11 - c12) * c44)
  {
    Scale(5.0, Div((c11 - c12) * c44, 3.0 * (c11 - c12) + 4.0 * c44))
  }

  /** E = 9 B G / (3 B + G); an undefined G or a zero denominator gives an
      undefined E. */
  function Young(b: real, g: Stat): (r: Stat)
    ensures r.Defined? <==> g.Defined? && 3.0 * b + g.value != 0.0
  {
    match g
    case Undefined => Undefined
    case Defined(gv) => Scale(9.0, Div(b * gv, 3.0 * b + gv))
  }

  /** The Poisson ratio as ellmp.py:136-137 compute it:
      (3 B - G) / (2 (3 B + G)). */
  function PoissonAsWritten(b: real, g: Stat): (r: Stat)
    ensures r.Defined? <==> g.Defined? && 3.0 * b + g.value != 0.0
  {
    match g
    case Undefined => Undefined
    case Defined(gv) => Div(3.0 * b - gv, 2.0 * (3.0 * b + gv))
  }

  /** The Poisson ratio of an isotropic solid: (3 B - 2 G) / (2 (3 B + G)). */
  function Poisson(b: real, g: Stat): (r: Stat)
    ensures r.Defined? <==> g.Defined? && 3.0 * b + g.value != 0.0
  {
    match g
    case Undefined => Undefined
    case Defined(gv) => Div(3.0 * b - 2.0 * gv, 2.0 * (3.0 * b + gv))
  }

  /** The seven properties elprops saves for one temperature. */
  datatype Properties = Properties(T: real, B: real, GV: real, GR: Stat, EV: Stat, ER: Stat, nuV: Stat, nuR: Stat)

  /** The properties of one row T,C11,C12,C44 of res_Cs.txt as
      ellmp.py:128-137 compute them, with the Poisson ratios as written. */
  function DeriveAsWritten(row: Row): Properties
    requires |row| >= 4
  {
    var b := Bulk(row[1], row[2]);
    var gv := VoigtShear(row[1], row[2], row[3]);
    var gr := ReussShear(row[1], row[2], row[3]);
    Properties(row[0], b, gv, gr, Young(b, Defined(gv)), Young(b, gr), PoissonAsWritten(b, Defined(gv)), PoissonAsWritten(b, gr))
  }

  /** The properties of one row T,C11,C12,C44 of res_Cs.txt, with the
      corrected Poisson ratios. */
  function Derive(row: Row): Properties
    requires |row| >= 4
  {
    var b := Bulk(row[1], row[2]);
    var gv := VoigtShear(row[1], row[2], row[3]);
    var gr := ReussShear(row[1], row[2], row[3]);
    Properties(row[0], b, gv, gr, Young(b, Defined(gv)), Young(b, gr), Poisson(b, Defined(gv)), Poisson(b, gr))
  }

  /** Parse one line of comma-separated numbers and return the text after
      its newline; a missing number (an empty field) is a ValueError. The
      last line may lack its newline. */
  function ParseFields(text: Record): (r: Result<(Row, Record)>)
    ensures r.Success? ==> |r.value.0| >= 1 && |r.value.1| < |text|
    decreases |text|
  {
    if |text| == 0 || !text[0].Val? then Failure(NotANumber(""))
    else if |text| == 1 then Success(([text[0].x], []))
    else if text[1] == EndLine then Success(([text[0].x], text[2..]))
    else if text[1] == Comma then
      var (fields, rest) :- ParseFields(text[2..]);
      Success(([text[0].x] + fields, rest))
    else Failure(NotANumber(""))
  }

  /** numpy.loadtxt(..., delimiter=','): the lines of the file as rows of
      numbers; blank lines are skipped. */
  function LoadRows(text: Record): Result<seq<Row>>
    decreases |text|
  {
    if |text| == 0 then Success([])
    else if text[0] == EndLine then LoadRows(text[1..])
    else
      var (fields, rest) :- ParseFields(text);
      var rows :- LoadRows(rest);
      Success([fields] + rows)
  }

  /** The rows of a table, in order, with their properties. */
  function DeriveAll(rows: seq<Row>): (ps: seq<Properties>)
    requires forall i :: 0 <= i < |rows| ==> |rows[i]| >= 4
    ensures |ps| == |rows|
    ensures forall i :: 0 <= i < |rows| ==> ps[i] == Derive(rows[i])
  {
    seq(|rows|, i requires 0 <= i < |rows| => Derive(rows[i]))
  }

  /** The rows of a table, in order, with their properties as written. */
  function DeriveAllAsWritten(rows: seq<Row>): (ps: seq<Properties>)
    requires forall i :: 0 <= i < |rows| ==> |rows[i]| >= 4
    ensures |ps| == |rows|
    ensures forall i :: 0 <= i < |rows| ==> ps[i] == DeriveAsWritten(rows[i])
  {
    seq(|rows|, i requires 0 <= i < |rows| => DeriveAsWritten(rows[i]))
  }

  /** elprops as written: loadtxt without ndmin squeezes a one-row file to
      one dimension, and data[0:,0] then raises IndexError; the Poisson
      ratios are the ones of PoissonAsWritten. */
  function ElpropsAsWritten(text: Record): Result<seq<Properties>>
  {
    var rows :- LoadRows(text);
    if !Rectangular(rows) then Failure(ColumnCount)
    else if !TwoDimensional(rows) || Width(rows) < 4 then Failure(IndexOutOfRange)
    else Success(DeriveAllAsWritten(rows))
  }

  /** The corrected elprops: loading a two-dimensional array for any
      number of rows (loadtxt with ndmin=2) and the corrected Poisson
      ratios; an empty file or fewer than four columns still raise
      IndexError. */
  function Elprops(text: Record): Result<seq<Properties>>
  {
    var rows :- LoadRows(text);
    if !Rectangular(rows) then Failure(ColumnCount)
    else if |rows| == 0 || Width(rows) < 4 then Failure(IndexOutOfRange)
    else Success(DeriveAll(rows))
  }

  /** The text of res_Cs.txt after cs appended these records in order. */
  function Written(records: seq<Row>): Record
  {
    if |records| == 0 then [] else CsvRow(records[0]) + Written(records[1..])
  }

  /** A line written by cs parses back to its numbers, leaving the text
      after it untouched. */
  lemma {:induction false} ParseWrittenLine(fields: Row, tail: Record)
    requires |fields| >= 1
    ensures ParseFields(CsvRow(fields) + tail) == Success((fields, tail))
    decreases |fields|
  {
    var text := CsvRow(fields) + tail;
    if |fields| == 1 {
      assert text == [Val(fields[0]), EndLine] + tail;
      assert text[2..] == tail;
      assert fields == [fields[0]];
    } else {
      assert text == [Val(fields[0]), Comma] + (CsvRow(fields[1..]) + tail);
      assert text[2..] == CsvRow(fields[1..]) + tail;
      ParseWrittenLine(fields[1..], tail);
      assert [fields[0]] + fields[1..] == fields;
    }
  }

  /** Loading the text cs wrote gives back the records in order. */
  lemma {:induction false} LoadWritten(records: seq<Row>)
    requires forall i :: 0 <= i < |records| ==> |records[i]| >= 1
    ensures LoadRows(Written(records)) == Success(records)
  {
    if |records| > 0 {
      var text := Written(records);
      ParseWrittenLine(records[0], Written(records[1..]));
      assert text[0] == Val(records[0][0]);
      LoadWritten(records[1..]);
      assert [records[0]] + records[1..] == records;
    }
  }

  /** From cs to elprops: for a file of four-field records the properties
      come row by row, in file order, each paired with its row's T. */
  lemma ElpropsOfWritten(records: seq<Row>)
    requires |records| >= 1
    requires forall i :: 0 <= i < |records| ==> |records[i]| == 4
    ensures Elprops(Written(records)).Success?
    ensures |Elprops(Written(records)).value| == |records|
    ensures forall i :: 0 <= i < |records| ==>
              Elprops(Written(records)).value[i].T == records[i][0] &&
              Elprops(Written(records)).value[i] == Derive(records[i])
  {
    LoadWritten(records);
  }

  /** elprops as written on a file of at least two four-field records:
      every property but the Poisson ratios agrees with the corrected
      version, and the ratios are the ones of PoissonAsWritten. */
  lemma ElpropsAsWrittenOfWritten(records: seq<Row>)
    requires |records| >= 2
    requires forall i :: 0 <= i < |records| ==> |records[i]| == 4
    ensures ElpropsAsWritten(Written(records)).Success?
    ensures |ElpropsAsWritten(Written(records)).value| == |records|
    ensures forall i :: 0 <= i < |records| ==>
              var p, q := ElpropsAsWritten(Written(records)).value[i], Derive(records[i]);
              p.T == records[i][0] && p.B == q.B && p.GV == q.GV && p.GR == q.GR && p.EV == q.EV && p.ER == q.ER &&
              p.nuV == PoissonAsWritten(q.B, Defined(q.GV)) && p.nuR == PoissonAsWritten(q.B, q.GR)
  {
    LoadWritten(records);
  }

  /** As written, a res_Cs.txt holding the record of a single temperature
      cannot be processed. */
  lemma ElpropsAsWrittenOneRow(record: Row)
    requires |record| == 4
    ensures ElpropsAsWritten(Written([record])).Failure?
    ensures Elprops(Written([record])).Success?
  {
    LoadWritten([record]);
  }

  /** On a cubic crystal that is isotropic (C11 = C12 + 2 C44, C44 != 0)
      the Voigt and the Reuss average agree: GV = GR = C44, EV = ER and
      nuV = nuR. */
  lemma IsotropicAveragesAgree(row: Row)
    requires |row| >= 4 && row[1] == row[2] + 2.0 * row[3] && row[3] != 0.0
    ensures Derive(row).GV == row[3]
    ensures Derive(row).GR == Defined(row[3])
    ensures Derive(row).EV == Derive(row).ER
    ensures Derive(row).nuV == Derive(row).nuR
  {
    var c := row[3];
    assert row[1] - row[2] == 2.0 * c;
    assert 3.0 * (row[1] - row[2]) + 4.0 * c == 10.0 * c;
    assert (row[1] - row[2]) * c == 2.0 * c * c;
    assert (2.0 * c * c) / (10.0 * c) == c / 5.0;
  }

  /** A zero Reuss denominator spoils GR, ER and nuR of that row only:
      B, GV, EV and nuV do not depend on it. */
  lemma ReussDenominatorZero(row: Row)
    requires |row| >= 4 && 3.0 * (row[1] - row[2]) + 4.0 * row[3] == 0.0
    ensures Derive(row).GR == Undefined && Derive(row).ER == Undefined && Derive(row).nuR == Undefined
    ensures Derive(row).B == (row[1] + 2.0 * row[2]) / 3.0
    ensures Derive(row).GV == (row[1] - row[2] + 3.0 * row[3]) / 5.0
    ensures Derive(row).EV.Defined? <==> 3.0 * Derive(row).B + Derive(row).GV != 0.0
    ensures Derive(row).nuV.Defined? <==> 3.0 * Derive(row).B + Derive(row).GV != 0.0
  {
  }

  /** The Reuss bound never exceeds the Voigt bound on a stable crystal
      (C11 > C12, C44 > 0): GV - GR = 3 (C11 - C12 - 2 C44)^2 / (5 (3 (C11
      - C12) + 4 C44)), and they agree exactly when the crystal is
      isotropic. */
  lemma ReussBelowVoigt(c11: real, c12: real, c44: real)
    requires c11 > c12 && c44 > 0.0
    ensures ReussShear(c11, c12, c44).Defined?
    ensures ReussShear(c11, c12, c44).value <= VoigtShear(c11, c12, c44)
    ensures ReussShear(c11, c12, c44).value == VoigtShear(c11, c12, c44) <==> c11 - c12 == 2.0 * c44
  {
    var a, c := c11 - c12, c44;
    var d := 3.0 * a + 4.0 * c;
    var gr := ReussShear(c11, c12, c44).value;
    var gv := VoigtShear(c11, c12, c44);
    var t := a - 2.0 * c;
    var k := gv - gr;
    assert gr * d == 5.0 * (a * c);
    assert gv * 5.0 == a + 3.0 * c;
    assert k * (5.0 * d) == 3.0 * Sq(t) by {
      assert k * (5.0 * d) == (gv * 5.0) * d - 5.0 * (gr * d);
      assert (a + 3.0 * c) * d == 3.0 * (a * a) + 13.0 * (a * c) + 12.0 * (c * c);
      assert Sq(t) == a * a - 4.0 * (a * c) + 4.0 * (c * c);
    }
    SquareSign(t);
    if k < 0.0 {
      MulPos(-k, 5.0 * d);
    }
    if k != 0.0 && t == 0.0 {
      MulNonZero(k, 5.0 * d);
    }
  }

  /** The corrected ratio satisfies both isotropic identities
      E = 2 G (1 + nu) and E = 3 B (1 - 2 nu). */
  lemma PoissonIdentities(b: real, g: real)
    requires 3.0 * b + g != 0.0
    ensures Young(b, Defined(g)).Defined? && Poisson(b, Defined(g)).Defined?
    ensures Young(b, Defined(g)).value == 2.0 * g * (1.0 + Poisson(b, Defined(g)).value)
    ensures Young(b, Defined(g)).value == 3.0 * b * (1.0 - 2.0 * Poisson(b, Defined(g)).value)
  {
    var s := 3.0 * b + g;
    var q := Div(b * g, s).value;
    assert q * s == b * g;
    var nu := Poisson(b, Defined(g)).value;
    assert nu * (2.0 * s) == 3.0 * b - 2.0 * g;
    assert Young(b, Defined(g)).value == 9.0 * q;
    ModuliIdentities(b, g, s, 9.0 * q, nu);
  }

  /** E = 2 G (1 + nu) and E = 3 B (1 - 2 nu), on the products that
      define E and nu. */
  lemma ModuliIdentities(b: real, g: real, s: real, e: real, nu: real)
    requires s == 3.0 * b + g && s != 0.0
    requires e * s == 9.0 * (b * g) && nu * (2.0 * s) == 3.0 * b - 2.0 * g
    ensures e == 2.0 * g * (1.0 + nu)
    ensures e == 3.0 * b * (1.0 - 2.0 * nu)
  {
    var m := nu * (2.0 * s);
    assert (2.0 * g * (1.0 + nu)) * s == 2.0 * (g * s) + g * m;
    assert g * s == 3.0 * (b * g) + g * g;
    assert g * m == 3.0 * (b * g) - 2.0 * (g * g);
    CancelFactor(e, 2.0 * g * (1.0 + nu), s);
    assert (3.0 * b * (1.0 - 2.0 * nu)) * s == 3.0 * (b * s) - 3.0 * (b * m) / 1.0;
    assert b * s == 3.0 * (b * b) + b * g;
    assert b * m == 3.0 * (b * b) - 2.0 * (b * g);
    CancelFactor(e, 3.0 * b * (1.0 - 2.0 * nu), s);
  }

  lemma CancelFactor(x: real, y: real, s: real)
    requires s != 0.0 && x * s == y * s
    ensures x == y
  {
    assert (x - y) * s == 0.0;
  }

  /** The ratio as written breaks E = 2 G (1 + nu): on the isotropic
      crystal C11 = 3, C12 = 1, C44 = 1 it gives nu = 1/3 where E = 5/2 and
      G = 1 demand nu = 1/4. */
  lemma PoissonAsWrittenBreaksIdentity()
    ensures var b := Bulk(3.0, 1.0);
            var g := VoigtShear(3.0, 1.0, 1.0);
            b == 5.0 / 3.0 && g == 1.0 &&
            Young(b, Defined(g)) == Defined(2.5) &&
            PoissonAsWritten(b, Defined(g)) == Defined(1.0 / 3.0) &&
            Poisson(b, Defined(g)) == Defined(0.25) &&
            2.5 != 2.0 * g * (1.0 + 1.0 / 3.0)
  {
    var b := Bulk(3.0, 1.0);
    assert b == 5.0 / 3.0;
    assert b * 1.0 == 5.0 / 3.0;
    assert 3.0 * b + 1.0 == 6.0;
    assert (5.0 / 3.0) / 6.0 == 5.0 / 18.0;
  }
  /** The Poisson defect reaches the saved results: on a res_Cs.txt whose
      rows are the isotropic crystal C11 = 3, C12 = 1, C44 = 1, elprops as
      written saves nuV = 1/3 where the corrected version saves 1/4. */
  lemma ElpropsAsWrittenPoissonOfIsotropic()
    ensures var text := Written([[0.0, 3.0, 1.0, 1.0], [1.0, 3.0, 1.0, 1.0]]);
            ElpropsAsWritten(text).Success? && Elprops(text).Success? &&
            ElpropsAsWritten(text).value[0].nuV == Defined(1.0 / 3.0) &&
            Elprops(text).value[0].nuV == Defined(0.25)
  {
    var records: seq<Row> := [[0.0, 3.0, 1.0, 1.0], [1.0, 3.0, 1.0, 1.0]];
    ElpropsAsWrittenOfWritten(records);
    ElpropsOfWritten(records);
    PoissonAsWrittenBreaksIdentity();
  }
}
