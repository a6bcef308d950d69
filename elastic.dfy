/** ellmp.py, cs: the elastic constants C11, C12 and C44 by finite
    differences between the initial and the final averaged state of a
    deformation run, read from the tail of av_res.txt. */
module Elastic {
  import opened Common
  import opened Series
  import opened Averaging

  /** One field of line.split(" "): its text and, when float() accepts the
      text, the number it denotes. */
  datatype Token = Num(text: string, x: real) | Word(text: string)

  /** A line of av_res.txt as the list its split(" ") returns. */
  type Line = seq<Token>

  /** A value of the dictionaries data0 and data: the shared empty list
      dict.fromkeys puts under every key, or a token assigned later. */
  datatype Entry = Unset | Tok(t: Token)

  type Dict = map<string, Entry>

  /** Python's lines[i] on a list of n elements: negative i counts from
      the end; out of range is an IndexError. */
  function PyIndex(n: nat, i: int): (r: Option<nat>)
    ensures r.Some? <==> -(n as int) <= i < n
    ensures r.Some? ==> r.value < n && r.value as int == (if i < 0 then n + i else i)
  {
    if 0 <= i < n then Some(i) else if -(n as int) <= i < 0 then Some(n + i) else None
  }

  function At(lines: seq<Line>, i: int): Result<Line>
  {
    match PyIndex(|lines|, i)
    case None => Failure(IndexOutOfRange)
    case Some(k) => Success(lines[k])
  }

  /** The characters of the line's text: those of its fields, and the
      separating blank when there are two fields or more. */
  function LineChars(line: Line): set<char>
  {
    (set k, i | 0 <= k < |line| && 0 <= i < |line[k].text| :: line[k].text[i]) + (if |line| > 1 then {' '} else {})
  }

  /** dict.fromkeys(line, []): iterating a string yields its characters,
      so the keys are one-character strings. */
  function FromKeys(line: Line): (d: Dict)
    ensures forall key :: key in d ==> d[key] == Unset
  {
    var keys := set c | c in LineChars(line) :: [c];
    map key | key in keys :: Unset
  }

  /** The keys of dict.fromkeys(line, []) are exactly the one-character
      strings of the line's characters. */
  lemma FromKeysKeys(line: Line, key: string)
    ensures key in FromKeys(line) <==> |key| == 1 && key[0] in LineChars(line)
  {
    if |key| == 1 && key[0] in LineChars(line) {
      assert key == [key[0]];
    }
  }

  /** data0[avars[jk]] = tmp0[0][jk] for jk in range(len(avars)): later
      assignments to a repeated name win. */
  function Assign(d: Dict, names: seq<string>, toks: Line): Dict
    requires |names| <= |toks|
    decreases |names|
  {
    if |names| == 0 then d
    else Assign(d, names[..|names| - 1], toks)[names[|names| - 1] := Tok(toks[|names| - 1])]
  }

  /** The initial (data0) and final (data) dictionaries of one run. */
  datatype Readings = Readings(initial: Dict, final: Dict)

  /** The reading step of cs: the header line lines[-nsteps-1] gives the
      keys, lines[-nsteps] the initial and lines[-1] the final values. A
      missing file, a line index outside the file or a line with fewer
      fields than requested names fails. */
  function ReadAvRes(fs: map<string, seq<Line>>, file: string, avars: seq<string>, nsteps: int): Result<Readings>
  {
    if file !in fs then Failure(FileMissing(file))
    else
      var lines := fs[file];
      var header :- At(lines, -nsteps - 1);
      var first :- At(lines, -nsteps);
      var last :- At(lines, -1);
      if |avars| > |first| || |avars| > |last| then Failure(IndexOutOfRange)
      else Success(Readings(Assign(FromKeys(header), avars, first), Assign(FromKeys(header), avars, last)))
  }

  /** The reading step of cs, statement by statement: both dictionaries
      are filled in one loop over the requested names. */
  method ReadRun(fs: map<string, seq<Line>>, file: string, avars: seq<string>, nsteps: int) returns (r: Result<Readings>)
    ensures r == ReadAvRes(fs, file, avars, nsteps)
  {
    if file !in fs {
      return Failure(FileMissing(file));
    }
    var lines := fs[file];
    var header :- At(lines, -nsteps - 1);
    var data0 := FromKeys(header);
    var data := FromKeys(header);
    var tmp0 :- At(lines, -nsteps);
    var tmp :- At(lines, -1);
    var jk := 0;
    while jk < |avars|
      invariant 0 <= jk <= |avars|
      invariant jk <= |tmp0| && jk <= |tmp|
      invariant data0 == Assign(FromKeys(header), avars[..jk], tmp0)
      invariant data == Assign(FromKeys(header), avars[..jk], tmp)
    {
      if jk >= |tmp0| || jk >= |tmp| {
        return Failure(IndexOutOfRange);
      }
      assert avars[..jk + 1][..jk] == avars[..jk];
      data0 := data0[avars[jk] := Tok(tmp0[jk])];
      data := data[avars[jk] := Tok(tmp[jk])];
      jk := jk + 1;
    }
    assert avars[..|avars|] == avars;
    r := Success(Readings(data0, data));
  }

  /** float(d[name]): a missing key is a KeyError, the empty list of
      dict.fromkeys a TypeError, a non-numeric field a ValueError. */
  function Float(d: Dict, name: string): (r: Result<real>)
    ensures r.Success? <==> name in d && d[name].Tok? && d[name].t.Num?
  {
    if name !in d then Failure(MissingName(name))
    else match d[name]
      case Unset => Failure(NotANumber(name))
      case Tok(Word(_)) => Failure(NotANumber(name))
      case Tok(Num(_, x)) => Success(x)
  }

  /** -(p - p0)/((l - l0)/ref)*1.0e-4: the stress change over the strain,
      converted from bar to GPa. Python float division raises on a zero
      reference length or a zero strain. */
  function FiniteDifference(p0: real, p: real, l0: real, l: real, ref: real): (r: Result<real>)
    ensures r.Success? <==> ref != 0.0 && l != l0
    ensures r.Success? ==> r.value * ((l - l0) / ref) == -(p - p0) * 0.0001
  {
    if ref == 0.0 then Failure(DivisionByZero)
    else if (l - l0) / ref == 0.0 then Failure(DivisionByZero)
    else Success(-(p - p0) / ((l - l0) / ref) * 0.0001)
  }

  /** The unsplit record T,C11,C12,C44: all four from one run; ly and the
      C44 reference length are read from the lx column, the shear pair is
      pxy/xy. */
  function UnsplitRow(fs: map<string, seq<Line>>, pathT: string, avars: seq<string>, nsteps: int): Result<Record>
  {
    var rd :- ReadAvRes(fs, pathT + "av_res.txt", avars, nsteps);
    var T :- Float(rd.initial, "T");
    var pxx0 :- Float(rd.initial, "pxx");
    var pxx :- Float(rd.final, "pxx");
    var lx0 :- Float(rd.initial, "lx");
    var lx :- Float(rd.final, "lx");
    // ly0, ly and lz0 read the lx entries once more: those reads cannot fail now
    var ly0 := Float(rd.initial, "lx").value;
    var ly := Float(rd.final, "lx").value;
    var pyz0 :- Float(rd.initial, "pxy");
    var pyz :- Float(rd.final, "pxy");
    var yz0 :- Float(rd.initial, "xy");
    var yz :- Float(rd.final, "xy");
    var lz0 := Float(rd.initial, "lx").value;
    var c11 :- FiniteDifference(pxx0, pxx, lx0, lx, lx0);
    // C12 divides by the same strain, so it cannot fail either
    var c12 := FiniteDifference(pxx0, pxx, ly0, ly, ly0).value;
    var c44 :- FiniteDifference(pyz0, pyz, yz0, yz, lz0);
    Success(CsvRow([T, c11, c12, c44]))
  }

  /** The sub-runs of split mode, in the order cs visits them. */
  const SubRuns: seq<string> := ["x", "y", "yz"]

  /** The pieces one sub-run adds to resC: 'x' gives T, and C11 from pxx
      and lx; 'y' gives C12 from pxx and ly; 'yz' gives C44 from pyz, yz
      and lz. Every sub-run parses its own T first. */
  function SubRunPieces(fs: map<string, seq<Line>>, pathT: string, sub: string, avars: seq<string>, nsteps: int): Result<Record>
  {
    var rd :- ReadAvRes(fs, pathT + sub + "/" + "av_res.txt", avars, nsteps);
    var T :- Float(rd.initial, "T");
    if sub == "x" then XPieces(rd, T)
    else if sub == "y" then YPieces(rd)
    else if sub == "yz" then YzPieces(rd)
    else Success([])
  }

  function XPieces(rd: Readings, T: real): Result<Record>
  {
    var pxx0 :- Float(rd.initial, "pxx");
    var pxx :- Float(rd.final, "pxx");
    var lx0 :- Float(rd.initial, "lx");
    var lx :- Float(rd.final, "lx");
    var c11 :- FiniteDifference(pxx0, pxx, lx0, lx, lx0);
    Success([Val(T), Comma, Val(c11), Comma])
  }

  function YPieces(rd: Readings): Result<Record>
  {
    var pxx0 :- Float(rd.initial, "pxx");
    var pxx :- Float(rd.final, "pxx");
    var ly0 :- Float(rd.initial, "ly");
    var ly :- Float(rd.final, "ly");
    var c12 :- FiniteDifference(pxx0, pxx, ly0, ly, ly0);
    Success([Val(c12), Comma])
  }

  function YzPieces(rd: Readings): Result<Record>
  {
    var pyz0 :- Float(rd.initial, "pyz");
    var pyz :- Float(rd.final, "pyz");
    var yz0 :- Float(rd.initial, "yz");
    var yz :- Float(rd.final, "yz");
    var lz0 :- Float(rd.initial, "lz");
    var c44 :- FiniteDifference(pyz0, pyz, yz0, yz, lz0);
    Success([Val(c44)])
  }

  /** resC after the first k sub-runs, or the first error. */
  function SplitPieces(fs: map<string, seq<Line>>, pathT: string, avars: seq<string>, nsteps: int, k: nat): Result<Record>
    requires k <= |SubRuns|
  {
    if k == 0 then Success([])
    else
      var before :- SplitPieces(fs, pathT, avars, nsteps, k - 1);
      var pieces :- SubRunPieces(fs, pathT, SubRuns[k - 1], avars, nsteps);
      Success(before + pieces)
  }

  /** What cs appends to path + 'res_Cs.txt'; any other split value
      writes nothing. */
  function CsSpec(avars: seq<string>, nsteps: int, pathT: string, split: string, fs: map<string, seq<Line>>): Result<Record>
  {
    if split == "n" then UnsplitRow(fs, pathT, avars, nsteps)
    else if split == "3n" then SplitRow(fs, pathT, avars, nsteps)
    else Success([])
  }

  /** The split record: the pieces of all sub-runs, then the newline. */
  function SplitRow(fs: map<string, seq<Line>>, pathT: string, avars: seq<string>, nsteps: int): Result<Record>
  {
    var pieces :- SplitPieces(fs, pathT, avars, nsteps, |SubRuns|);
    Success(pieces + [EndLine])
  }

  /** The unsplit branch of cs: resC receives T, C11, C12 and C44 with
      their commas, then the newline. */
  method CsUnsplit(avars: seq<string>, nsteps: int, pathT: string, fs: map<string, seq<Line>>) returns (r: Result<Record>)
    ensures r == UnsplitRow(fs, pathT, avars, nsteps)
  {
    var resC: Record := [];
    var rd :- ReadRun(fs, pathT + "av_res.txt", avars, nsteps);
    var T :- Float(rd.initial, "T");
    resC := resC + [Val(T), Comma];
    var pxx0 :- Float(rd.initial, "pxx");
    var pxx :- Float(rd.final, "pxx");
    var lx0 :- Float(rd.initial, "lx");
    var lx :- Float(rd.final, "lx");
    var ly0 := Float(rd.initial, "lx").value;
    var ly := Float(rd.final, "lx").value;
    var pyz0 :- Float(rd.initial, "pxy");
    var pyz :- Float(rd.final, "pxy");
    var yz0 :- Float(rd.initial, "xy");
    var yz :- Float(rd.final, "xy");
    var lz0 := Float(rd.initial, "lx").value;
    var c11 :- FiniteDifference(pxx0, pxx, lx0, lx, lx0);
    resC := resC + [Val(c11), Comma];
    var c12 := FiniteDifference(pxx0, pxx, ly0, ly, ly0).value;
    resC := resC + [Val(c12), Comma];
    var c44 :- FiniteDifference(pyz0, pyz, yz0, yz, lz0);
    resC := resC + [Val(c44)];
    resC := resC + [EndLine];
    CsvRowOfFour(T, c11, c12, c44);
    assert resC == CsvRow([T, c11, c12, c44]);
    assert UnsplitRow(fs, pathT, avars, nsteps) == Success(CsvRow([T, c11, c12, c44]));
    r := Success(resC);
  }

  /** The split branch of cs: the sub-runs x, y, yz in order, each adding
      its pieces to resC, then the newline. */
  method CsSplit(avars: seq<string>, nsteps: int, pathT: string, fs: map<string, seq<Line>>) returns (r: Result<Record>)
    ensures r == SplitRow(fs, pathT, avars, nsteps)
  {
    var resC: Record := [];
    var k := 0;
    while k < |SubRuns|
      invariant 0 <= k <= |SubRuns|
      invariant SplitPieces(fs, pathT, avars, nsteps, k) == Success(resC)
    {
      var pieces := SubRunPieces(fs, pathT, SubRuns[k], avars, nsteps);
      if pieces.Failure? {
        SplitPiecesFailurePersists(fs, pathT, avars, nsteps, k + 1);
        return Failure(pieces.error);
      }
      SplitPiecesExtend(fs, pathT, avars, nsteps, k);
      resC := resC + pieces.value;
      k := k + 1;
    }
    r := Success(resC + [EndLine]);
  }

  /** cs: the nominal temperature T is not used (it is overwritten by
      the one read from the file). */
  method Cs(avars: seq<string>, nsteps: int, T: real, path: string, pathT: string, split: string,
            fs: map<string, seq<Line>>) returns (r: Result<Record>)
    ensures r == CsSpec(avars, nsteps, pathT, split, fs)
  {
    if split == "n" {
      r := CsUnsplit(avars, nsteps, pathT, fs);
    } else if split == "3n" {
      r := CsSplit(avars, nsteps, pathT, fs);
    } else {
      r := Success([]);
    }
  }

  lemma SplitPiecesFailurePersists(fs: map<string, seq<Line>>, pathT: string, avars: seq<string>, nsteps: int, k: nat)
    requires k <= |SubRuns| && SplitPieces(fs, pathT, avars, nsteps, k).Failure?
    ensures SplitPieces(fs, pathT, avars, nsteps, |SubRuns|) == SplitPieces(fs, pathT, avars, nsteps, k)
    decreases |SubRuns| - k
  {
    if k < |SubRuns| {
      assert SplitPieces(fs, pathT, avars, nsteps, k + 1) == SplitPieces(fs, pathT, avars, nsteps, k);
      SplitPiecesFailurePersists(fs, pathT, avars, nsteps, k + 1);
    }
  }

  /** Later assignments win: a name receives the field of its last
      position in the list; names outside the list keep their entry. */
  lemma {:induction false} AssignLastWins(d: Dict, names: seq<string>, toks: Line, k: nat)
    requires |names| <= |toks| && k < |names|
    requires forall j :: k < j < |names| ==> names[j] != names[k]
    ensures names[k] in Assign(d, names, toks)
    ensures Assign(d, names, toks)[names[k]] == Tok(toks[k])
    decreases |names|
  {
    if k < |names| - 1 {
      AssignLastWins(d, names[..|names| - 1], toks, k);
    }
  }

  lemma {:induction false} AssignOthers(d: Dict, names: seq<string>, toks: Line, key: string)
    requires |names| <= |toks| && key !in names
    ensures key in Assign(d, names, toks) <==> key in d
    ensures key in d ==> Assign(d, names, toks)[key] == d[key]
    decreases |names|
  {
    if |names| > 0 {
      AssignOthers(d, names[..|names| - 1], toks, key);
    }
  }

  /** cs reads the initial values from lines[-nsteps] and the final ones
      from lines[-1]: with distinct names, avars[jk] gets the jk-th field
      of each. */
  lemma ReadAvResTail(fs: map<string, seq<Line>>, file: string, avars: seq<string>, nsteps: int)
    requires file in fs && 1 <= nsteps < |fs[file]|
    requires forall i, j :: 0 <= i < j < |avars| ==> avars[i] != avars[j]
    requires |avars| <= |fs[file][|fs[file]| - nsteps]| && |avars| <= |fs[file][|fs[file]| - 1]|
    ensures ReadAvRes(fs, file, avars, nsteps).Success?
    ensures forall jk :: 0 <= jk < |avars| ==>
              avars[jk] in ReadAvRes(fs, file, avars, nsteps).value.initial &&
              avars[jk] in ReadAvRes(fs, file, avars, nsteps).value.final &&
              ReadAvRes(fs, file, avars, nsteps).value.initial[avars[jk]] == Tok(fs[file][|fs[file]| - nsteps][jk]) &&
              ReadAvRes(fs, file, avars, nsteps).value.final[avars[jk]] == Tok(fs[file][|fs[file]| - 1][jk])
  {
    var lines := fs[file];
    var header := lines[|lines| - nsteps - 1];
    assert At(lines, -nsteps - 1) == Success(header);
    assert At(lines, -nsteps) == Success(lines[|lines| - nsteps]);
    assert At(lines, -1) == Success(lines[|lines| - 1]);
    forall jk | 0 <= jk < |avars|
      ensures avars[jk] in ReadAvRes(fs, file, avars, nsteps).value.initial
      ensures avars[jk] in ReadAvRes(fs, file, avars, nsteps).value.final
      ensures ReadAvRes(fs, file, avars, nsteps).value.initial[avars[jk]] == Tok(lines[|lines| - nsteps][jk])
      ensures ReadAvRes(fs, file, avars, nsteps).value.final[avars[jk]] == Tok(lines[|lines| - 1][jk])
    {
      AssignLastWins(FromKeys(header), avars, lines[|lines| - nsteps], jk);
      AssignLastWins(FromKeys(header), avars, lines[|lines| - 1], jk);
    }
  }

  /** A name that is not requested has no number: it is either absent
      (KeyError) or holds the empty list dict.fromkeys put there. */
  lemma UnrequestedNameFails(fs: map<string, seq<Line>>, file: string, avars: seq<string>, nsteps: int, name: string)
    requires ReadAvRes(fs, file, avars, nsteps).Success? && name !in avars
    ensures Float(ReadAvRes(fs, file, avars, nsteps).value.initial, name).Failure?
    ensures Float(ReadAvRes(fs, file, avars, nsteps).value.final, name).Failure?
  {
    var lines := fs[file];
    var header := At(lines, -nsteps - 1).value;
    AssignOthers(FromKeys(header), avars, At(lines, -nsteps).value, name);
    AssignOthers(FromKeys(header), avars, At(lines, -1).value, name);
  }

  /** The finite difference inverts the linear law: a stress change of
      -C * 1e4 times the strain gives back C. */
  lemma FiniteDifferenceRecovers(p0: real, l0: real, l: real, ref: real, c: real)
    requires ref != 0.0 && l != l0
    ensures FiniteDifference(p0, p0 - c * 10000.0 * ((l - l0) / ref), l0, l, ref) == Success(c)
  {
    var e := (l - l0) / ref;
    assert e != 0.0;
    var p := p0 - c * 10000.0 * e;
    assert -(p - p0) == (c * 10000.0) * e;
    DivCancel(-(p - p0), c * 10000.0, e);
    var v := -(p - p0) / e;
    assert v * 0.0001 == c;
    assert FiniteDifference(p0, p, l0, l, ref) == Success(v * 0.0001);
    assert Success(v * 0.0001) == Success(c);
    assert p == p0 - c * 10000.0 * ((l - l0) / ref);
  }

  /** On the two samples of the initial and the final state, the
      least-squares fit of fitstr and the finite difference of cs agree. */
  lemma FiniteDifferenceIsTwoPointFit(p0: real, p: real, l0: real, l: real)
    requires l0 != 0.0 && l != l0
    ensures StressStrainSlope([l0, l], l0, false, [p0, p]).Success?
    ensures FiniteDifference(p0, p, l0, l, l0) == Success(ToGPa(StressStrainSlope([l0, l], l0, false, [p0, p]).value))
  {
    var e := (l - l0) / l0;
    assert e != 0.0;
    var eta := StrainOf([l0, l], l0);
    assert eta == [0.0, e];
    var ys := Scaled(-1.0, [p0, p]);
    assert ys == [-1.0 * p0, -1.0 * p];
    SlopeOfTwoPoints(0.0, e, -1.0 * p0, -1.0 * p);
    assert (-1.0 * p - -1.0 * p0) / (e - 0.0) == -(p - p0) / e;
  }

  /** The unsplit record: four fields T,C11,C12,C44; T is the initial
      row's T; C12 repeats C11; C44 pairs the pxy change with the xy
      change over the initial lx. */
  lemma CsUnsplitRecord(avars: seq<string>, nsteps: int, pathT: string, fs: map<string, seq<Line>>)
    requires CsSpec(avars, nsteps, pathT, "n", fs).Success?
    ensures var r := CsSpec(avars, nsteps, pathT, "n", fs).value;
            var rd := ReadAvRes(fs, pathT + "av_res.txt", avars, nsteps).value;
            FourFieldRow(r) &&
            r[0] == Val(Float(rd.initial, "T").value) &&
            r[2] == Val(FiniteDifference(Float(rd.initial, "pxx").value, Float(rd.final, "pxx").value,
                                         Float(rd.initial, "lx").value, Float(rd.final, "lx").value,
                                         Float(rd.initial, "lx").value).value) &&
            r[4] == r[2] &&
            r[6] == Val(FiniteDifference(Float(rd.initial, "pxy").value, Float(rd.final, "pxy").value,
                                         Float(rd.initial, "xy").value, Float(rd.final, "xy").value,
                                         Float(rd.initial, "lx").value).value)
  {
    var rd := ReadAvRes(fs, pathT + "av_res.txt", avars, nsteps).value;
    var T := Float(rd.initial, "T").value;
    var lx0, lx := Float(rd.initial, "lx").value, Float(rd.final, "lx").value;
    var c11 := FiniteDifference(Float(rd.initial, "pxx").value, Float(rd.final, "pxx").value, lx0, lx, lx0).value;
    var c44 := FiniteDifference(Float(rd.initial, "pxy").value, Float(rd.final, "pxy").value,
                                Float(rd.initial, "xy").value, Float(rd.final, "xy").value, lx0).value;
    assert CsSpec(avars, nsteps, pathT, "n", fs).value == CsvRow([T, c11, c11, c44]);
    CsvRowOfFour(T, c11, c11, c44);
  }

  /** The three sub-runs of split mode all succeed when the record does,
      and their pieces follow one another in the order x, y, yz. */
  lemma SplitPiecesInOrder(fs: map<string, seq<Line>>, pathT: string, avars: seq<string>, nsteps: int)
    requires SplitPieces(fs, pathT, avars, nsteps, 3).Success?
    ensures SubRunPieces(fs, pathT, "x", avars, nsteps).Success?
    ensures SubRunPieces(fs, pathT, "y", avars, nsteps).Success?
    ensures SubRunPieces(fs, pathT, "yz", avars, nsteps).Success?
    ensures SplitPieces(fs, pathT, avars, nsteps, 3).value ==
              SubRunPieces(fs, pathT, "x", avars, nsteps).value + SubRunPieces(fs, pathT, "y", avars, nsteps).value +
              SubRunPieces(fs, pathT, "yz", avars, nsteps).value
  {
    SplitPiecesStep(fs, pathT, avars, nsteps, 2);
    SplitPiecesStep(fs, pathT, avars, nsteps, 1);
    SplitPiecesStep(fs, pathT, avars, nsteps, 0);
  }

  lemma SplitPiecesExtend(fs: map<string, seq<Line>>, pathT: string, avars: seq<string>, nsteps: int, k: nat)
    requires k < |SubRuns| && SplitPieces(fs, pathT, avars, nsteps, k).Success?
    requires SubRunPieces(fs, pathT, SubRuns[k], avars, nsteps).Success?
    ensures SplitPieces(fs, pathT, avars, nsteps, k + 1) ==
              Success(SplitPieces(fs, pathT, avars, nsteps, k).value + SubRunPieces(fs, pathT, SubRuns[k], avars, nsteps).value)
  {
  }

  lemma SplitPiecesStep(fs: map<string, seq<Line>>, pathT: string, avars: seq<string>, nsteps: int, k: nat)
    requires k < |SubRuns| && SplitPieces(fs, pathT, avars, nsteps, k + 1).Success?
    ensures SplitPieces(fs, pathT, avars, nsteps, k).Success?
    ensures SubRunPieces(fs, pathT, SubRuns[k], avars, nsteps).Success?
    ensures SplitPieces(fs, pathT, avars, nsteps, k + 1).value ==
              SplitPieces(fs, pathT, avars, nsteps, k).value + SubRunPieces(fs, pathT, SubRuns[k], avars, nsteps).value
  {
  }

  /** The pieces of each sub-run: x gives 'T,C11,', y gives 'C12,' and
      yz gives 'C44'; T is the one of the sub-run's own initial row. */
  lemma SubRunPiecesShape(fs: map<string, seq<Line>>, pathT: string, sub: string, avars: seq<string>, nsteps: int)
    requires SubRunPieces(fs, pathT, sub, avars, nsteps).Success?
    ensures var q := SubRunPieces(fs, pathT, sub, avars, nsteps).value;
            var rd := ReadAvRes(fs, pathT + sub + "/" + "av_res.txt", avars, nsteps).value;
            (sub == "x" ==> |q| == 4 && q[0] == Val(Float(rd.initial, "T").value) && q[1] == Comma && q[2].Val? && q[3] == Comma) &&
            (sub == "y" ==> |q| == 2 && q[0].Val? && q[1] == Comma) &&
            (sub == "yz" ==> |q| == 1 && q[0].Val?)
  {
  }

  /** The constants each sub-run computes from its own readings: C11 from
      the pxx change over the lx strain, C12 from the pxx change over the ly
      strain, C44 from the pyz change over the yz tilt divided by the
      initial lz. */
  lemma SubRunPiecesValues(fs: map<string, seq<Line>>, pathT: string, sub: string, avars: seq<string>, nsteps: int)
    requires SubRunPieces(fs, pathT, sub, avars, nsteps).Success?
    ensures var q := SubRunPieces(fs, pathT, sub, avars, nsteps).value;
            var rd := ReadAvRes(fs, pathT + sub + "/" + "av_res.txt", avars, nsteps).value;
            var i, f := rd.initial, rd.final;
            (sub == "x" ==> |q| == 4 &&
                            q[2] == Val(FiniteDifference(Float(i, "pxx").value, Float(f, "pxx").value,
                                                         Float(i, "lx").value, Float(f, "lx").value, Float(i, "lx").value).value)) &&
            (sub == "y" ==> |q| == 2 &&
                            q[0] == Val(FiniteDifference(Float(i, "pxx").value, Float(f, "pxx").value,
                                                         Float(i, "ly").value, Float(f, "ly").value, Float(i, "ly").value).value)) &&
            (sub == "yz" ==> |q| == 1 &&
                             q[0] == Val(FiniteDifference(Float(i, "pyz").value, Float(f, "pyz").value,
                                                          Float(i, "yz").value, Float(f, "yz").value, Float(i, "lz").value).value))
  {
  }

  /** The pieces 'T,C11,' 'C12,' 'C44' and the newline make a four-field row. */
  lemma JoinedPiecesFormRow(x: Record, y: Record, yz: Record)
    requires |x| == 4 && x[0].Val? && x[1] == Comma && x[2].Val? && x[3] == Comma
    requires |y| == 2 && y[0].Val? && y[1] == Comma
    requires |yz| == 1 && yz[0].Val?
    ensures var r := x + y + yz + [EndLine];
            FourFieldRow(r) && r[0] == x[0] && r[2] == x[2] && r[4] == y[0] && r[6] == yz[0]
  {
    var r := x + y + yz + [EndLine];
    assert r == [x[0], Comma, x[2], Comma, y[0], Comma, yz[0], EndLine];
    CsvRowOfFour(x[0].x, x[2].x, y[0].x, yz[0].x);
  }

  /** The split record: the pieces of the sub-runs x, y and yz in that
      order, then the newline; four fields, T and C11 from x, C12 from y,
      C44 from yz. */
  lemma CsSplitRecord(avars: seq<string>, nsteps: int, pathT: string, fs: map<string, seq<Line>>)
    requires CsSpec(avars, nsteps, pathT, "3n", fs).Success?
    ensures SubRunPieces(fs, pathT, "x", avars, nsteps).Success?
    ensures SubRunPieces(fs, pathT, "y", avars, nsteps).Success?
    ensures SubRunPieces(fs, pathT, "yz", avars, nsteps).Success?
    ensures var r := CsSpec(avars, nsteps, pathT, "3n", fs).value;
            r == SubRunPieces(fs, pathT, "x", avars, nsteps).value + SubRunPieces(fs, pathT, "y", avars, nsteps).value +
                 SubRunPieces(fs, pathT, "yz", avars, nsteps).value + [EndLine] &&
            FourFieldRow(r) &&
            r[0] == Val(Float(ReadAvRes(fs, pathT + "x" + "/" + "av_res.txt", avars, nsteps).value.initial, "T").value) &&
            |SubRunPieces(fs, pathT, "x", avars, nsteps).value| == 4 &&
            |SubRunPieces(fs, pathT, "y", avars, nsteps).value| == 2 &&
            |SubRunPieces(fs, pathT, "yz", avars, nsteps).value| == 1 &&
            r[2] == SubRunPieces(fs, pathT, "x", avars, nsteps).value[2] &&
            r[4] == SubRunPieces(fs, pathT, "y", avars, nsteps).value[0] &&
            r[6] == SubRunPieces(fs, pathT, "yz", avars, nsteps).value[0]
  {
    var x := SubRunPieces(fs, pathT, "x", avars, nsteps);
    var y := SubRunPieces(fs, pathT, "y", avars, nsteps);
    var yz := SubRunPieces(fs, pathT, "yz", avars, nsteps);
    SplitPiecesInOrder(fs, pathT, avars, nsteps);
    SubRunPiecesShape(fs, pathT, "x", avars, nsteps);
    SubRunPiecesShape(fs, pathT, "y", avars, nsteps);
    SubRunPiecesShape(fs, pathT, "yz", avars, nsteps);
    JoinedPiecesFormRow(x.value, y.value, yz.value);
    assert CsSpec(avars, nsteps, pathT, "3n", fs).value == x.value + y.value + yz.value + [EndLine];
  }
}
