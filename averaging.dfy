/** avlmp.py: the thermo table of one LAMMPS run, the lookup of the
    averaged variables by name, their stage-wise reduction (simple mean,
    mean of a 'valid' moving average) and the stress/strain fit of the
    elastic constants. */
module Averaging {
  import opened Common
  import opened Series

  type Row = seq<real>

  /** Every row of the table has the width of the first. */
  predicate Rectangular(rows: seq<Row>)
  {
    forall i :: 0 <= i < |rows| ==> |rows[i]| == |rows[0]|
  }

  function Width(rows: seq<Row>): nat
  {
    if |rows| == 0 then 0 else |rows[0]|
  }

  /** numpy.loadtxt returns a two-dimensional array only when the file has
      at least two rows and two columns; otherwise it squeezes the result
      to one dimension and data[:, j] raises IndexError. */
  predicate TwoDimensional(rows: seq<Row>)
  {
    |rows| >= 2 && Width(rows) >= 2
  }

  /** data[:, j]: the j-th entry of every row. */
  function Column(rows: seq<Row>, j: nat): (col: Row)
    requires Rectangular(rows) && j < Width(rows)
    ensures |col| == |rows|
    ensures forall i :: 0 <= i < |rows| ==> col[i] == rows[i][j]
  {
    seq(|rows|, i requires 0 <= i < |rows| => rows[i][j])
  }

  /** The first position of name in names: the head of the list
      [i for i, x in enumerate(names) if x == name]. */
  function FirstIndex(names: seq<string>, name: string): (r: Option<nat>)
    decreases |names|
  {
    if |names| == 0 then None
    else match FirstIndex(names[..|names| - 1], name)
      case Some(i) => Some(i)
      case None => if names[|names| - 1] == name then Some(|names| - 1) else None
  }

  /** FirstIndex finds the least position holding the name, and finds
      none exactly when the name is absent. */
  lemma {:induction false} FirstIndexIsLeast(names: seq<string>, name: string)
    ensures FirstIndex(names, name).None? <==> name !in names
    ensures FirstIndex(names, name).Some? ==>
              var i := FirstIndex(names, name).value;
              i < |names| && names[i] == name && forall k :: 0 <= k < i ==> names[k] != name
  {
    if |names| > 0 {
      var p := names[..|names| - 1];
      FirstIndexIsLeast(p, name);
      assert names == p + [names[|names| - 1]];
      if FirstIndex(p, name).Some? {
        var i := FirstIndex(p, name).value;
        assert names[i] == p[i];
        forall k | 0 <= k < i ensures names[k] != name {
          assert names[k] == p[k];
        }
      }
    }
  }

  /** newvars[name] = data[:, j] for the first j with thermo[j] == name.
      A name missing from thermo fails at jk[0]; a squeezed table or a
      position beyond the width fails at data[:, j]. */
  function Lookup(thermo: seq<string>, rows: seq<Row>, name: string): Result<Row>
    requires Rectangular(rows)
  {
    match FirstIndex(thermo, name)
    case None => Failure(IndexOutOfRange)
    case Some(j) =>
      if !TwoDimensional(rows) || j >= Width(rows) then Failure(IndexOutOfRange)
      else Success(Column(rows, j))
  }

  /** The dictionary imp_data builds for the first n names, or the first
      error it meets. */
  function ImportPrefix(avars: seq<string>, thermo: seq<string>, rows: seq<Row>, n: nat): Result<map<string, Row>>
    requires Rectangular(rows) && n <= |avars|
    decreases n
  {
    if n == 0 then Success(map[])
    else
      var m :- ImportPrefix(avars, thermo, rows, n - 1);
      var col :- Lookup(thermo, rows, avars[n - 1]);
      Success(m[avars[n - 1] := col])
  }

  /** imp_data: the requested variables as columns of the thermo table,
      keyed by name. Ragged rows fail in numpy.loadtxt. */
  function Import(avars: seq<string>, thermo: seq<string>, rows: seq<Row>): Result<map<string, Row>>
  {
    if !Rectangular(rows) then Failure(ColumnCount)
    else ImportPrefix(avars, thermo, rows, |avars|)
  }

  /** The first failing name decides the error of the whole import. */
  lemma {:induction false} ImportPrefixFailurePersists(avars: seq<string>, thermo: seq<string>, rows: seq<Row>, n: nat, m: nat)
    requires Rectangular(rows) && n <= m <= |avars|
    requires ImportPrefix(avars, thermo, rows, n).Failure?
    ensures ImportPrefix(avars, thermo, rows, m) == ImportPrefix(avars, thermo, rows, n)
    decreases m - n
  {
    if n < m {
      ImportPrefixFailurePersists(avars, thermo, rows, n, m - 1);
    }
  }

  /** imp_data, statement by statement: the dictionary is filled in a loop
      over the requested names, and the log it returns is empty. */
  method ImpData(avars: seq<string>, thermo: seq<string>, rows: seq<Row>)
    returns (r: Result<map<string, Row>>, log: seq<nat>)
    ensures r == Import(avars, thermo, rows)
    ensures log == []
  {
    log := [];
    if !Rectangular(rows) {
      return Failure(ColumnCount), log;
    }
    var newvars: map<string, Row> := map[];
    var k := 0;
    while k < |avars|
      invariant 0 <= k <= |avars|
      invariant ImportPrefix(avars, thermo, rows, k) == Success(newvars)
    {
      var col := Lookup(thermo, rows, avars[k]);
      if col.Failure? {
        ImportPrefixFailurePersists(avars, thermo, rows, k + 1, |avars|);
        return Failure(col.error), log;
      }
      newvars := newvars[avars[k] := col.value];
      k := k + 1;
    }
    r := Success(newvars);
  }

  /** The import fails exactly when the table is ragged or one requested
      name cannot be looked up; on success every requested name maps to
      the column at its first position in thermo, and nothing else is in
      the dictionary. */
  lemma {:induction false} ImportPrefixMeaning(avars: seq<string>, thermo: seq<string>, rows: seq<Row>, n: nat)
    requires Rectangular(rows) && n <= |avars|
    ensures ImportPrefix(avars, thermo, rows, n).Success? <==>
              forall k :: 0 <= k < n ==> Lookup(thermo, rows, avars[k]).Success?
    ensures ImportPrefix(avars, thermo, rows, n).Success? ==>
              var m := ImportPrefix(avars, thermo, rows, n).value;
              m.Keys == (set k | 0 <= k < n :: avars[k]) &&
              forall k :: 0 <= k < n ==> m[avars[k]] == Lookup(thermo, rows, avars[k]).value
  {
    if n > 0 {
      ImportPrefixMeaning(avars, thermo, rows, n - 1);
      var prev := ImportPrefix(avars, thermo, rows, n - 1);
      if prev.Success? && Lookup(thermo, rows, avars[n - 1]).Success? {
        var m := prev.value[avars[n - 1] := Lookup(thermo, rows, avars[n - 1]).value];
        assert ImportPrefix(avars, thermo, rows, n) == Success(m);
        assert m.Keys == (set k | 0 <= k < n :: avars[k]) by {
          forall x | x in m.Keys ensures x in (set k | 0 <= k < n :: avars[k]) {
            if x != avars[n - 1] {
              var k :| 0 <= k < n - 1 && avars[k] == x;
            }
          }
        }
        forall k | 0 <= k < n ensures m[avars[k]] == Lookup(thermo, rows, avars[k]).value {
          if avars[k] != avars[n - 1] {
            assert k < n - 1;
          }
        }
      }
    }
  }

  lemma ImportMeaning(avars: seq<string>, thermo: seq<string>, rows: seq<Row>)
    ensures Import(avars, thermo, rows).Success? <==>
              Rectangular(rows) && forall k :: 0 <= k < |avars| ==> Lookup(thermo, rows, avars[k]).Success?
    ensures Import(avars, thermo, rows).Success? ==>
              var m := Import(avars, thermo, rows).value;
              m.Keys == (set k | 0 <= k < |avars| :: avars[k]) &&
              forall k :: 0 <= k < |avars| ==>
                m[avars[k]] == Column(rows, FirstIndex(thermo, avars[k]).value)
  {
    if Rectangular(rows) {
      ImportPrefixMeaning(avars, thermo, rows, |avars|);
    }
  }

  /** A requested name that thermo does not list makes imp_data fail; it
      is never skipped. */
  lemma ImportMissingName(avars: seq<string>, thermo: seq<string>, rows: seq<Row>, name: string)
    requires name in avars && name !in thermo
    ensures Import(avars, thermo, rows).Failure?
  {
    ImportMeaning(avars, thermo, rows);
    FirstIndexIsLeast(thermo, name);
    if Rectangular(rows) {
      var k :| 0 <= k < |avars| && avars[k] == name;
      assert Lookup(thermo, rows, avars[k]).Failure?;
    }
  }

  /** A table numpy squeezes to one dimension (a single row or a single
      column) cannot serve any requested name. */
  lemma ImportSqueezed(avars: seq<string>, thermo: seq<string>, rows: seq<Row>)
    requires |avars| > 0 && !TwoDimensional(rows)
    ensures Import(avars, thermo, rows).Failure?
  {
    ImportMeaning(avars, thermo, rows);
    if Rectangular(rows) {
      assert Lookup(thermo, rows, avars[0]).Failure?;
    }
  }

  /** Every imported column has one sample per table row. */
  lemma ImportColumnsHaveTableLength(avars: seq<string>, thermo: seq<string>, rows: seq<Row>)
    requires Import(avars, thermo, rows).Success?
    ensures forall name :: name in Import(avars, thermo, rows).value ==>
              |Import(avars, thermo, rows).value[name]| == |rows|
  {
    ImportMeaning(avars, thermo, rows);
    var m := Import(avars, thermo, rows).value;
    forall name | name in m ensures |m[name]| == |rows| {
      var k :| 0 <= k < |avars| && avars[k] == name;
    }
  }

  /** nd = len(newvars): one column per distinct requested name, so at
      most len(avars), and exactly len(avars) when the names are
      distinct. */
  lemma {:induction false} NameSetSize(avars: seq<string>, n: nat)
    requires n <= |avars|
    ensures |set k | 0 <= k < n :: avars[k]| <= n
    ensures (forall i, j :: 0 <= i < j < n ==> avars[i] != avars[j]) ==> |set k | 0 <= k < n :: avars[k]| == n
  {
    if n > 0 {
      NameSetSize(avars, n - 1);
      var before := set k | 0 <= k < n - 1 :: avars[k];
      assert (set k | 0 <= k < n :: avars[k]) == before + {avars[n - 1]};
      if forall i, j :: 0 <= i < j < n ==> avars[i] != avars[j] {
        assert avars[n - 1] !in before;
      }
    }
  }

  /** The number of columns simpav and moveav fill. */
  function NameCount(m: map<string, Row>): nat
  {
    |m.Keys|
  }

  /** The result block appended to av_res.txt: the requested names as the
      header line, then one row per stage. */
  datatype Block = Block(header: seq<string>, rows: seq<seq<Stat>>)

  /** numpy.mean(temp[t0-1:tf]) for stage ik: t0 - 1 = logL[ik] and
      tf = logL[ik+1]. */
  function StageMean(col: Row, logL: seq<nat>, ik: nat): Stat
    requires ik < |logL| - 1
  {
    Mean(Stage(col, logL[ik], logL[ik + 1]))
  }

  /** numpy.mean(numpy.convolve(temp[t0-1:tf], weights, 'valid')) for
      stage ik. */
  function StageMovingMean(col: Row, logL: seq<nat>, ik: nat, window: nat): Stat
    requires ik < |logL| - 1 && 1 <= window <= StageSize(|col|, logL, ik)
  {
    MovingMean(Stage(col, logL[ik], logL[ik + 1]), window)
  }

  /** The first nd = len(newvars) requested names all have a column of n
      samples in the dictionary: the cells the averaging loops visit. */
  predicate Serves(data: map<string, Row>, avars: seq<string>, n: nat)
  {
    NameCount(data) <= |avars| &&
    forall jk :: 0 <= jk < NameCount(data) ==> avars[jk] in data && |data[avars[jk]]| == n
  }

  lemma ImportServes(avars: seq<string>, thermo: seq<string>, rows: seq<Row>)
    requires Import(avars, thermo, rows).Success?
    ensures Serves(Import(avars, thermo, rows).value, avars, |rows|)
  {
    ImportMeaning(avars, thermo, rows);
    NameSetSize(avars, |avars|);
    ImportColumnsHaveTableLength(avars, thermo, rows);
  }

  /** The number of samples of stage ik in a column of length n. */
  function StageSize(n: nat, logL: seq<nat>, ik: nat): nat
    requires ik < |logL| - 1
  {
    StageLength(n, logL[ik], logL[ik + 1])
  }

  /** moveav's precondition: the window is positive and every stage holds
      at least window samples, so that the 'valid' convolution averages
      exactly window samples. */
  predicate WindowFits(n: nat, logL: seq<nat>, window: nat)
  {
    1 <= window && forall ik: nat :: ik < |logL| - 1 ==> window <= StageSize(n, logL, ik)
  }

  /** Cell (ik, jk) of simpav's matrix: the mean of stage ik of the column
      of avars[jk]. */
  function MeanCell(data: map<string, Row>, avars: seq<string>, n: nat, logL: seq<nat>, ik: nat, jk: nat): Stat
    requires Serves(data, avars, n) && ik < |logL| - 1 && jk < NameCount(data)
  {
    StageMean(data[avars[jk]], logL, ik)
  }

  /** Cell (ik, jk) of moveav's matrix: the mean of the moving average of
      stage ik of the column of avars[jk]. */
  function MovingCell(data: map<string, Row>, avars: seq<string>, n: nat, logL: seq<nat>, window: nat, ik: nat, jk: nat): Stat
    requires Serves(data, avars, n) && ik < |logL| - 1 && 1 <= window <= StageSize(n, logL, ik) && jk < NameCount(data)
  {
    assert |data[avars[jk]]| == n;
    StageMovingMean(data[avars[jk]], logL, ik, window)
  }

  /** The (nl-1) x nd matrix simpav fills. */
  function MeanTable(data: map<string, Row>, avars: seq<string>, n: nat, logL: seq<nat>): (t: seq<seq<Stat>>)
    requires Serves(data, avars, n) && |logL| > 0
    ensures |t| == |logL| - 1
    ensures forall ik :: 0 <= ik < |t| ==> |t[ik]| == NameCount(data)
  {
    seq(|logL| - 1, ik requires 0 <= ik < |logL| - 1 =>
      seq(NameCount(data), jk requires 0 <= jk < NameCount(data) => MeanCell(data, avars, n, logL, ik, jk)))
  }

  /** The matrix moveav fills. */
  function MovingMeanTable(data: map<string, Row>, avars: seq<string>, n: nat, logL: seq<nat>, window: nat): (t: seq<seq<Stat>>)
    requires Serves(data, avars, n) && |logL| > 0 && WindowFits(n, logL, window)
    ensures |t| == |logL| - 1
    ensures forall ik :: 0 <= ik < |t| ==> |t[ik]| == NameCount(data)
  {
    seq(|logL| - 1, ik requires 0 <= ik < |logL| - 1 =>
      assert window <= StageSize(n, logL, ik);
      seq(NameCount(data), jk requires 0 <= jk < NameCount(data) => MovingCell(data, avars, n, logL, window, ik, jk)))
  }

  /** What simpav appends to av_res.txt, given the stage boundaries logL:
      the requested names as header and the table of stage means. An
      empty logL makes numpy.zeros((-1, nd)) fail. */
  function SimpleMeans(avars: seq<string>, thermo: seq<string>, rows: seq<Row>, logL: seq<nat>): Result<Block>
  {
    var data :- Import(avars, thermo, rows);
    if |logL| == 0 then Failure(NegativeDimension)
    else
      ImportServes(avars, thermo, rows);
      Success(Block(avars, MeanTable(data, avars, |rows|, logL)))
  }

  /** What moveav appends to av_res.txt. */
  function MovingMeans(avars: seq<string>, thermo: seq<string>, rows: seq<Row>, logL: seq<nat>, window: nat): Result<Block>
    requires WindowFits(|rows|, logL, window)
  {
    var data :- Import(avars, thermo, rows);
    if |logL| == 0 then Failure(NegativeDimension)
    else
      ImportServes(avars, thermo, rows);
      Success(Block(avars, MovingMeanTable(data, avars, |rows|, logL, window)))
  }

  /** The rows of a filled matrix, as written by numpy.savetxt. */
  function Rows(a: array2<Stat>): (t: seq<seq<Stat>>)
    reads a
    ensures |t| == a.Length0
    ensures forall i :: 0 <= i < a.Length0 ==> |t[i]| == a.Length1
    ensures forall i, j :: 0 <= i < a.Length0 && 0 <= j < a.Length1 ==> t[i][j] == a[i, j]
  {
    seq(a.Length0, i requires 0 <= i < a.Length0 reads a =>
      seq(a.Length1, j requires 0 <= j < a.Length1 reads a => a[i, j]))
  }

  /** The inner loop of simpav and moveav: row ik of the matrix receives
      one value per requested name, and no other row changes. */
  method SetRow(m: array2<Stat>, ik: nat, cells: seq<Stat>)
    requires ik < m.Length0 && |cells| == m.Length1
    modifies m
    ensures forall j :: 0 <= j < m.Length1 ==> m[ik, j] == cells[j]
    ensures forall i, j :: 0 <= i < m.Length0 && i != ik && 0 <= j < m.Length1 ==> m[i, j] == old(m[i, j])
  {
    var jk := 0;
    while jk < m.Length1
      invariant 0 <= jk <= m.Length1
      invariant forall j :: 0 <= j < jk ==> m[ik, j] == cells[j]
      invariant forall i, j :: 0 <= i < m.Length0 && i != ik && 0 <= j < m.Length1 ==> m[i, j] == old(m[i, j])
    {
      m[ik, jk] := cells[jk];
      jk := jk + 1;
    }
  }

  /** simpav's matrix: preallocated with zeros, then filled row by row
      (stage by stage) with the stage mean of every requested name. */
  method FillMeans(data: map<string, Row>, avars: seq<string>, n: nat, logL: seq<nat>) returns (t: seq<seq<Stat>>)
    requires Serves(data, avars, n) && |logL| > 0
    ensures t == MeanTable(data, avars, n, logL)
  {
    var nd := |data.Keys|;
    var nl := |logL|;
    var meanvar := new Stat[nl - 1, nd]((i, j) => Defined(0.0));
    var ik := 0;
    while ik < nl - 1
      invariant 0 <= ik <= nl - 1
      invariant forall i, j :: 0 <= i < ik && 0 <= j < nd ==> meanvar[i, j] == MeanCell(data, avars, n, logL, i, j)
    {
      var cells := seq(nd, j requires 0 <= j < nd => MeanCell(data, avars, n, logL, ik, j));
      SetRow(meanvar, ik, cells);
      ik := ik + 1;
    }
    t := Rows(meanvar);
    forall i | 0 <= i < nl - 1 ensures t[i] == MeanTable(data, avars, n, logL)[i] {
    }
  }

  /** moveav's matrix, filled stage by stage with the mean of the valid
      convolution (window equal weights 1/window) of every requested name. */
  method FillMovingMeans(data: map<string, Row>, avars: seq<string>, n: nat, logL: seq<nat>, window: nat)
    returns (t: seq<seq<Stat>>)
    requires Serves(data, avars, n) && |logL| > 0 && WindowFits(n, logL, window)
    ensures t == MovingMeanTable(data, avars, n, logL, window)
  {
    var nd := |data.Keys|;
    var nl := |logL|;
    var mvavar := new Stat[nl - 1, nd]((i, j) => Defined(0.0));
    var ik := 0;
    while ik < nl - 1
      invariant 0 <= ik <= nl - 1
      invariant forall i, j :: 0 <= i < ik && 0 <= j < nd ==>
                  mvavar[i, j] == MovingCell(data, avars, n, logL, window, i, j)
    {
      assert window <= StageSize(n, logL, ik);
      var cells := seq(nd, j requires 0 <= j < nd => MovingCell(data, avars, n, logL, window, ik, j));
      SetRow(mvavar, ik, cells);
      ik := ik + 1;
    }
    t := Rows(mvavar);
    forall i | 0 <= i < nl - 1 ensures t[i] == MovingMeanTable(data, avars, n, logL, window)[i] {
    }
  }

  /** simpav, given the stage boundaries logL. */
  method Simpav(avars: seq<string>, thermo: seq<string>, rows: seq<Row>, logL: seq<nat>) returns (r: Result<Block>)
    ensures r == SimpleMeans(avars, thermo, rows, logL)
  {
    var data, log := ImpData(avars, thermo, rows);
    if data.Failure? {
      return Failure(data.error);
    }
    if |logL| == 0 {
      return Failure(NegativeDimension);
    }
    ImportServes(avars, thermo, rows);
    var meanvar := FillMeans(data.value, avars, |rows|, logL);
    r := Success(Block(avars, meanvar));
  }

  /** moveav, given the stage boundaries logL and the window. */
  method Moveav(avars: seq<string>, thermo: seq<string>, rows: seq<Row>, logL: seq<nat>, window: nat)
    returns (r: Result<Block>)
    requires WindowFits(|rows|, logL, window)
    ensures r == MovingMeans(avars, thermo, rows, logL, window)
  {
    var data, log := ImpData(avars, thermo, rows);
    if data.Failure? {
      return Failure(data.error);
    }
    if |logL| == 0 {
      return Failure(NegativeDimension);
    }
    ImportServes(avars, thermo, rows);
    var mvavar := FillMovingMeans(data.value, avars, |rows|, logL, window);
    r := Success(Block(avars, mvavar));
  }

  /** simpav and moveav as written take their stage boundaries from the
      log imp_data returns, which is always empty: numpy.zeros((-1, nd))
      then fails, or the import itself fails before. */
  method SimpavAsWritten(avars: seq<string>, thermo: seq<string>, rows: seq<Row>) returns (r: Result<Block>)
    ensures r.Failure?
  {
    var data, logL := ImpData(avars, thermo, rows);
    r := Simpav(avars, thermo, rows, logL);
  }

  method MoveavAsWritten(avars: seq<string>, thermo: seq<string>, rows: seq<Row>, window: nat) returns (r: Result<Block>)
    requires 1 <= window
    ensures r.Failure?
  {
    var data, logL := ImpData(avars, thermo, rows);
    r := Moveav(avars, thermo, rows, logL, window);
  }

  /** The shape of simpav's output: the header is the requested names, one
      row per pair of consecutive boundaries, one column per distinct
      name (all of them when the names are distinct), and cell (ik, jk) is
      the mean of exactly the samples at indices logL[ik] .. logL[ik+1]-1
      of the column of avars[jk]. */
  lemma SimpleMeansShape(avars: seq<string>, thermo: seq<string>, rows: seq<Row>, logL: seq<nat>)
    requires SimpleMeans(avars, thermo, rows, logL).Success?
    ensures Import(avars, thermo, rows).Success? && |logL| > 0
    ensures Serves(Import(avars, thermo, rows).value, avars, |rows|)
    ensures SimpleMeans(avars, thermo, rows, logL).value.header == avars
    ensures |SimpleMeans(avars, thermo, rows, logL).value.rows| == |logL| - 1
    ensures forall ik :: 0 <= ik < |logL| - 1 ==>
              |SimpleMeans(avars, thermo, rows, logL).value.rows[ik]| == NameCount(Import(avars, thermo, rows).value)
    ensures forall ik, jk :: 0 <= ik < |logL| - 1 && 0 <= jk < NameCount(Import(avars, thermo, rows).value) ==>
              SimpleMeans(avars, thermo, rows, logL).value.rows[ik][jk] ==
              Mean(Stage(Import(avars, thermo, rows).value[avars[jk]], logL[ik], logL[ik + 1]))
  {
    var data := Import(avars, thermo, rows).value;
    ImportServes(avars, thermo, rows);
    var t := MeanTable(data, avars, |rows|, logL);
    assert SimpleMeans(avars, thermo, rows, logL) == Success(Block(avars, t));
    forall ik, jk | 0 <= ik < |logL| - 1 && 0 <= jk < NameCount(data)
      ensures t[ik][jk] == Mean(Stage(data[avars[jk]], logL[ik], logL[ik + 1]))
    {
      assert t[ik][jk] == MeanCell(data, avars, |rows|, logL, ik, jk);
    }
  }

  /** nd = len(newvars) counts the distinct requested names: all of them
      when they are distinct. */
  lemma ImportNameCount(avars: seq<string>, thermo: seq<string>, rows: seq<Row>)
    requires Import(avars, thermo, rows).Success?
    ensures NameCount(Import(avars, thermo, rows).value) <= |avars|
    ensures (forall i, j :: 0 <= i < j < |avars| ==> avars[i] != avars[j]) ==>
              NameCount(Import(avars, thermo, rows).value) == |avars|
  {
    ImportMeaning(avars, thermo, rows);
    NameSetSize(avars, |avars|);
  }

  /** With a window of one sample, moveav's matrix equals simpav's. */
  lemma MovingMeansWindowOne(avars: seq<string>, thermo: seq<string>, rows: seq<Row>, logL: seq<nat>)
    requires WindowFits(|rows|, logL, 1)
    ensures MovingMeans(avars, thermo, rows, logL, 1) == SimpleMeans(avars, thermo, rows, logL)
  {
    if Import(avars, thermo, rows).Success? && |logL| > 0 {
      var data := Import(avars, thermo, rows).value;
      ImportServes(avars, thermo, rows);
      var mt := MovingMeanTable(data, avars, |rows|, logL, 1);
      var st := MeanTable(data, avars, |rows|, logL);
      forall ik | 0 <= ik < |logL| - 1 ensures mt[ik] == st[ik] {
        forall jk | 0 <= jk < NameCount(data) ensures mt[ik][jk] == st[ik][jk] {
          assert 1 <= StageSize(|rows|, logL, ik);
          MovingMeanWindowOne(Stage(data[avars[jk]], logL[ik], logL[ik + 1]));
        }
      }
      assert mt == st;
    }
  }

  /** A stage whose samples all equal c averages to c under both
      reductions. */
  lemma ConstantStage(col: Row, logL: seq<nat>, ik: nat, window: nat, c: real)
    requires ik < |logL| - 1 && 1 <= window <= StageSize(|col|, logL, ik)
    requires forall k :: logL[ik] <= k < logL[ik + 1] && k < |col| ==> col[k] == c
    ensures StageMean(col, logL, ik) == Defined(c)
    ensures StageMovingMean(col, logL, ik, window) == Defined(c)
  {
    var s := Stage(col, logL[ik], logL[ik + 1]);
    assert forall i :: 0 <= i < |s| ==> s[i] == col[logL[ik] + i];
    MeanOfConstant(s, c);
    MovingMeanOfConstant(s, window, c);
  }

  /** fitstr's strain (lx - lx0)/lx0 over the samples of the deformation
      window. */
  function StrainOf(lxw: Row, lx0: real): (eta: Row)
    requires lx0 != 0.0
    ensures |eta| == |lxw|
    ensures forall k :: 0 <= k < |lxw| ==> eta[k] * lx0 == lxw[k] - lx0
  {
    seq(|lxw|, k requires 0 <= k < |lxw| => (lxw[k] - lx0) / lx0)
  }

  /** numpy.polyfit(eta11, -p, 1)[0] (or against 0.5*eta11 when halve):
      an empty window is rejected first; a zero lx0 makes the strain
      infinite or NaN, which the fit rejects. */
  function StressStrainSlope(lxw: Row, lx0: real, halve: bool, stress: Row): (r: Result<real>)
    requires |lxw| == |stress|
    ensures r.Success? ==> |lxw| > 0 && lx0 != 0.0
  {
    if lx0 == 0.0 then (if |lxw| == 0 then Failure(EmptyFit) else Failure(NonFinite))
    else
      var eta := StrainOf(lxw, lx0);
      if halve then OlsSlope(Scaled(0.5, eta), Scaled(-1.0, stress))
      else OlsSlope(eta, Scaled(-1.0, stress))
  }

  /** The conversion of a stress/strain slope (bar) to an elastic constant
      (GPa). */
  function ToGPa(slope: real): real
  {
    slope * 0.0001
  }

  /** What fitstr appends to res_CsFit.txt once the windows are cut: the
      whole row T,C11,C12,C44 in unsplit mode; in split mode 'x' writes
      T,C11, and 'y' and the dirC44 sub-run stop at the undefined strains
      eta12 and eta44. */
  function FitRecord(T: real, lxw: Row, lx0: real, p11: Row, p12: Row, p44: Row,
                     dirC44: string, split: string, sub: string): Result<Record>
    requires |lxw| == |p11| == |p12| == |p44|
  {
    if split == "n" then
      var s11 :- StressStrainSlope(lxw, lx0, false, p11);
      var s12 :- StressStrainSlope(lxw, lx0, false, p12);
      var s44 :- StressStrainSlope(lxw, lx0, true, p44);
      Success(CsvRow([T, ToGPa(s11), ToGPa(s12), ToGPa(s44)]))
    else if split == "3n" then
      if sub == "x" then
        var s11 :- StressStrainSlope(lxw, lx0, false, p11);
        Success([Val(T), Comma, Val(ToGPa(s11)), Comma])
      else if sub == "y" then Failure(MissingName("eta12"))
      else if sub == dirC44 then Failure(MissingName("eta44"))
      else Success([])
    else Success([])
  }

  /** fitstr's deformation window of one imported column. */
  function Window(data: map<string, Row>, name: string, tf0: nat, tf: nat): Row
    requires name in data
  {
    Stage(data[name], tf0, tf)
  }

  /** lx0 is bound only by the loop over the first nd requested names. */
  predicate LxFitted(avars: seq<string>, nd: nat)
  {
    exists jk :: 0 <= jk < nd && jk < |avars| && avars[jk] == "lx"
  }

  /** fitstr, with the fitted initial length lx0 and temperature T given:
      imports the data, looks up T, lx, pxx, pyy and 'p'+dirC44 in that
      order, cuts the window [tf0, tf) and fits. */
  function FitStr(avars: seq<string>, thermo: seq<string>, rows: seq<Row>, lx0: real, T: real,
                  tf0: nat, tf: nat, dirC44: string, split: string, sub: string): (r: Result<Record>)
    ensures r.Success? ==> Import(avars, thermo, rows).Success? &&
                           "T" in Import(avars, thermo, rows).value && "lx" in Import(avars, thermo, rows).value &&
                           "pxx" in Import(avars, thermo, rows).value && "pyy" in Import(avars, thermo, rows).value &&
                           "p" + dirC44 in Import(avars, thermo, rows).value
    ensures split == "n" && r.Success? ==> FourFieldRow(r.value) && r.value[0] == Val(T)
  {
    var data :- Import(avars, thermo, rows);
    if "T" !in data then Failure(MissingName("T"))
    else if "lx" !in data then Failure(MissingName("lx"))
    else if !LxFitted(avars, NameCount(data)) then Failure(MissingName("lx0"))
    else if "pxx" !in data then Failure(MissingName("pxx"))
    else if "pyy" !in data then Failure(MissingName("pyy"))
    else if "p" + dirC44 !in data then Failure(MissingName("p" + dirC44))
    else
      ImportColumnsHaveTableLength(avars, thermo, rows);
      FitRecordUnsplitShape(T, Window(data, "lx", tf0, tf), lx0, Window(data, "pxx", tf0, tf), Window(data, "pyy", tf0, tf),
                            Window(data, "p" + dirC44, tf0, tf), dirC44, split, sub);
      FitRecord(T, Window(data, "lx", tf0, tf), lx0, Window(data, "pxx", tf0, tf), Window(data, "pyy", tf0, tf),
                Window(data, "p" + dirC44, tf0, tf), dirC44, split, sub)
  }

  /** In unsplit mode a successful fit writes one four-field row that
      starts with the temperature. */
  lemma FitRecordUnsplitShape(T: real, lxw: Row, lx0: real, p11: Row, p12: Row, p44: Row,
                              dirC44: string, split: string, sub: string)
    requires |lxw| == |p11| == |p12| == |p44|
    ensures var r := FitRecord(T, lxw, lx0, p11, p12, p44, dirC44, split, sub);
            split == "n" && r.Success? ==> FourFieldRow(r.value) && r.value[0] == Val(T)
  {
    var r := FitRecord(T, lxw, lx0, p11, p12, p44, dirC44, split, sub);
    if split == "n" && r.Success? {
      var s11 := StressStrainSlope(lxw, lx0, false, p11).value;
      var s12 := StressStrainSlope(lxw, lx0, false, p12).value;
      var s44 := StressStrainSlope(lxw, lx0, true, p44).value;
      CsvRowOfFour(T, ToGPa(s11), ToGPa(s12), ToGPa(s44));
    }
  }

  /** Exactly linear stress response: -p = a * eta + b at every sample. */
  predicate LinearResponse(eta: Row, p: Row, a: real, b: real)
  {
    |eta| == |p| && forall k :: 0 <= k < |eta| ==> -p[k] == a * eta[k] + b
  }

  lemma NegatedIsAffine(eta: Row, p: Row, a: real, b: real)
    requires LinearResponse(eta, p, a, b)
    ensures Affine(eta, Scaled(-1.0, p), a, b)
  {
    var ys := Scaled(-1.0, p);
    forall k | 0 <= k < |eta| ensures ys[k] == a * eta[k] + b {
      assert ys[k] == -1.0 * p[k];
    }
  }

  /** On exactly linear data over a non-constant strain, the unsplit fit
      recovers the slopes: C11 and C12 are a * 1e-4, and the C44 fit,
      made against half the strain, doubles its slope. */
  lemma FitRecordLinear(T: real, lxw: Row, lx0: real, p11: Row, p12: Row, p44: Row, dirC44: string,
                        a11: real, b11: real, a12: real, b12: real, a44: real, b44: real)
    requires |lxw| == |p11| == |p12| == |p44| && lx0 != 0.0
    requires !Constant(StrainOf(lxw, lx0))
    requires LinearResponse(StrainOf(lxw, lx0), p11, a11, b11)
    requires LinearResponse(StrainOf(lxw, lx0), p12, a12, b12)
    requires LinearResponse(StrainOf(lxw, lx0), p44, a44, b44)
    ensures FitRecord(T, lxw, lx0, p11, p12, p44, dirC44, "n", "") ==
              Success(CsvRow([T, ToGPa(a11), ToGPa(a12), ToGPa(2.0 * a44)]))
  {
    var eta := StrainOf(lxw, lx0);
    NegatedIsAffine(eta, p11, a11, b11);
    NegatedIsAffine(eta, p12, a12, b12);
    NegatedIsAffine(eta, p44, a44, b44);
    SlopeOfLine(eta, Scaled(-1.0, p11), a11, b11);
    SlopeOfLine(eta, Scaled(-1.0, p12), a12, b12);
    SlopeOfLine(eta, Scaled(-1.0, p44), a44, b44);
    SlopeOfHalvedAbscissa(eta, Scaled(-1.0, p44));
  }

  /** In split mode the 'x' sub-run writes T and the same C11 the unsplit
      fit computes, each followed by a comma. */
  lemma FitRecordSplitX(T: real, lxw: Row, lx0: real, p11: Row, p12: Row, p44: Row, dirC44: string)
    requires |lxw| == |p11| == |p12| == |p44|
    ensures var r := FitRecord(T, lxw, lx0, p11, p12, p44, dirC44, "3n", "x");
            r.Success? <==> StressStrainSlope(lxw, lx0, false, p11).Success?
    ensures var r := FitRecord(T, lxw, lx0, p11, p12, p44, dirC44, "3n", "x");
            r.Success? ==> r.value == [Val(T), Comma, Val(ToGPa(StressStrainSlope(lxw, lx0, false, p11).value)), Comma]
  {
  }

  /** The 'y' sub-run never produces C12: eta12 is never defined. */
  lemma FitStrSplitYFails(avars: seq<string>, thermo: seq<string>, rows: seq<Row>, lx0: real, T: real,
                          tf0: nat, tf: nat, dirC44: string)
    ensures FitStr(avars, thermo, rows, lx0, T, tf0, tf, dirC44, "3n", "y").Failure?
  {
  }

  /** With dirC44 = 'xy', the sub-runs x, y, yz never write a '\n': the
      C44 branch is unreachable, so a split-mode row is never completed. */
  lemma FitStrSplitNeverEndsRow(avars: seq<string>, thermo: seq<string>, rows: seq<Row>, lx0: real, T: real,
                                tf0: nat, tf: nat, sub: string)
    requires sub == "x" || sub == "y" || sub == "yz"
    ensures var r := FitStr(avars, thermo, rows, lx0, T, tf0, tf, "xy", "3n", sub);
            r.Success? ==> EndLine !in r.value
  {
  }
}
