/** runlmp.py: the rewriting of the LAMMPS input scripts (parameter
    declarations in init.mod, the replicate line of init0.mod) and the
    names of the input files, run directories and cluster jobs of one
    temperature. */
module Scripts {
  import opened Common

  /** key occurs in line at position i. */
  predicate OccursAt(line: string, key: string, i: nat)
  {
    i + |key| <= |line| && line[i..i + |key|] == key
  }

  /** The first occurrence of key in line at or after position i. */
  function FindFrom(line: string, key: string, i: nat): (r: Option<nat>)
    requires i <= |line|
    ensures r.Some? ==> i <= r.value && r.value + |key| <= |line|
    decreases |line| - i
  {
    if OccursAt(line, key, i) then Some(i)
    else if i == |line| then None
    else FindFrom(line, key, i + 1)
  }

  /** re.search(key, line) for a key without special characters: the
      first occurrence, if any. */
  function FindFirst(line: string, key: string): (r: Option<nat>)
    ensures r.Some? ==> r.value + |key| <= |line|
  {
    FindFrom(line, key, 0)
  }

  lemma {:induction false} FindFromFinds(line: string, key: string, i: nat)
    requires i <= |line|
    ensures var r := FindFrom(line, key, i);
            (r.Some? ==> OccursAt(line, key, r.value) && forall j :: i <= j < r.value ==> !OccursAt(line, key, j)) &&
            (r.None? <==> forall j :: i <= j <= |line| ==> !OccursAt(line, key, j))
    decreases |line| - i
  {
    if !OccursAt(line, key, i) && i < |line| {
      FindFromFinds(line, key, i + 1);
    }
  }

  /** FindFirst finds an occurrence, and none lies before it; it finds
      nothing exactly when key does not occur in line. */
  lemma FindFirstFinds(line: string, key: string)
    ensures FindFirst(line, key).Some? ==>
              OccursAt(line, key, FindFirst(line, key).value) &&
              forall j :: 0 <= j < FindFirst(line, key).value ==> !OccursAt(line, key, j)
    ensures FindFirst(line, key).None? <==> forall j :: 0 <= j <= |line| ==> !OccursAt(line, key, j)
  {
    FindFromFinds(line, key, 0);
  }

  /** key in line. */
  predicate Contains(line: string, key: string)
  {
    FindFirst(line, key).Some?
  }

  predicate IsDigit(c: char)
  {
    '0' <= c <= '9'
  }

  /** The characters the substitution pattern removes on its own. */
  predicate Stripped(c: char)
  {
    IsDigit(c) || c == '.' || c == '\n'
  }

  /** The number of consecutive 'e' characters of s from position i. */
  function ERun(s: string, i: nat): (n: nat)
    requires i <= |s|
    ensures i + n <= |s|
    decreases |s| - i
  {
    if i < |s| && s[i] == 'e' then 1 + ERun(s, i + 1) else 0
  }

  /** The length of the match of [0-9.]|e-|e[0-9]|e+[0-9]|\n at the start
      of s, trying the alternatives in order; 0 when none matches. */
  function MatchLen(s: string): (m: nat)
    requires |s| > 0
    ensures m <= |s|
    ensures Stripped(s[0]) ==> m >= 1
  {
    if IsDigit(s[0]) || s[0] == '.' then 1
    else if s[0] == 'e' && |s| >= 2 && s[1] == '-' then 2
    else if s[0] == 'e' && |s| >= 2 && IsDigit(s[1]) then 2
    else if s[0] == 'e' && ERun(s, 0) < |s| && IsDigit(s[ERun(s, 0)]) then ERun(s, 0) + 1
    else if s[0] == '\n' then 1
    else 0
  }

  /** re.sub(pattern, ' ', s): scanning from the left, every match is
      replaced by one blank and the scan resumes after it. */
  function Scrub(s: string): string
    decreases |s|
  {
    if |s| == 0 then ""
    else
      var m := MatchLen(s);
      if m > 0 then " " + Scrub(s[m..]) else [s[0]] + Scrub(s[1..])
  }

  /** One key of sub_input: when the key occurs and 'equal' follows its
      first occurrence, the text after the key is scrubbed of numbers and
      the new value and a newline are appended; otherwise the line stays. */
  function RewriteKey(line: string, key: string, value: string): string
  {
    match FindFirst(line, key)
    case None => line
    case Some(i) =>
      var mnd := i + |key|;
      if !Contains(line[mnd..], "equal") then line
      else line[..mnd] + Scrub(line[mnd..]) + value + "\n"
  }

  /** The line after the keys of params, each applied to the line as the
      keys before it left it. */
  function RewriteAll(line: string, params: seq<(string, string)>): string
  {
    if |params| == 0 then line
    else RewriteKey(RewriteAll(line, params[..|params| - 1]), params[|params| - 1].0, params[|params| - 1].1)
  }

  /** sub_input: the line rewritten key after key, appended to linesOUT. */
  method SubInput(line: string, linesOut: seq<string>, params: seq<(string, string)>) returns (out: seq<string>)
    ensures out == linesOut + [RewriteAll(line, params)]
  {
    var cur := line;
    var k := 0;
    while k < |params|
      invariant 0 <= k <= |params|
      invariant cur == RewriteAll(line, params[..k])
    {
      var (key, value) := params[k];
      ghost var prev := cur;
      var found := FindFirst(cur, key);
      if found.Some? {
        var mnd := found.value + |key|;
        if Contains(cur[mnd..], "equal") {
          cur := cur[..mnd] + Scrub(cur[mnd..]) + value + "\n";
        }
      }
      assert cur == RewriteKey(prev, key, value);
      RewriteAllStep(line, params, k);
      k := k + 1;
    }
    assert params[..|params|] == params;
    out := linesOut + [cur];
  }

  lemma RewriteAllStep(line: string, params: seq<(string, string)>, k: nat)
    requires k < |params|
    ensures RewriteAll(line, params[..k + 1]) == RewriteKey(RewriteAll(line, params[..k]), params[k].0, params[k].1)
  {
    assert params[..k + 1][..k] == params[..k];
  }

  /** mod_init: two blank lines, then every line of init0.mod rewritten. */
  method ModInit(params: seq<(string, string)>, lines: seq<string>) returns (linesOut: seq<string>)
    ensures |linesOut| == |lines| + 2
    ensures linesOut[0] == "\n" && linesOut[1] == "\n"
    ensures forall i :: 0 <= i < |lines| ==> linesOut[i + 2] == RewriteAll(lines[i], params)
  {
    linesOut := ["\n", "\n"];
    var k := 0;
    while k < |lines|
      invariant 0 <= k <= |lines|
      invariant |linesOut| == k + 2
      invariant linesOut[0] == "\n" && linesOut[1] == "\n"
      invariant forall i :: 0 <= i < k ==> linesOut[i + 2] == RewriteAll(lines[i], params)
    {
      linesOut := SubInput(lines[k], linesOut, params);
      k := k + 1;
    }
  }

  /** What remains of the text after a key holds no digit, no '.' and no
      newline: each of them starts a match. */
  lemma {:induction false} ScrubClean(s: string)
    ensures forall k :: 0 <= k < |Scrub(s)| ==> !Stripped(Scrub(s)[k])
    decreases |s|
  {
    if |s| > 0 {
      var m := MatchLen(s);
      if m > 0 {
        ScrubClean(s[m..]);
        assert Scrub(s) == " " + Scrub(s[m..]);
      } else {
        ScrubClean(s[1..]);
        assert Scrub(s) == [s[0]] + Scrub(s[1..]);
      }
    }
  }

  /** Text without any character the pattern removes and without "e-" is
      left exactly as it was. */
  lemma {:induction false} ScrubPlain(s: string)
    requires forall k :: 0 <= k < |s| ==> !Stripped(s[k])
    requires forall k :: 0 <= k < |s| - 1 ==> !(s[k] == 'e' && s[k + 1] == '-')
    ensures Scrub(s) == s
    decreases |s|
  {
    if |s| > 0 {
      if s[0] == 'e' && ERun(s, 0) < |s| {
        assert !Stripped(s[ERun(s, 0)]);
      }
      assert MatchLen(s) == 0;
      ScrubPlain(s[1..]);
      assert [s[0]] + s[1..] == s;
    }
  }

  /** r is pre, then n characters none of which the pattern removes,
      then value and a newline. */
  predicate RewrittenFrom(r: string, pre: string, n: nat, value: string)
  {
    |r| == |pre| + n + |value| + 1 &&
    r[..|pre|] == pre && r[|pre| + n..] == value + "\n" &&
    forall k :: |pre| <= k < |pre| + n ==> !Stripped(r[k])
  }

  /** A rewritten line keeps everything up to and including the first
      occurrence of the key, has no digit, '.' or newline between the key
      and the new value, and ends with the value and a newline. */
  lemma RewriteKeyChanged(line: string, key: string, value: string)
    requires RewriteKey(line, key, value) != line
    ensures FindFirst(line, key).Some?
    ensures var mnd := FindFirst(line, key).value + |key|;
            Contains(line[mnd..], "equal") &&
            RewrittenFrom(RewriteKey(line, key, value), line[..mnd], |Scrub(line[mnd..])|, value)
  {
    var mnd := FindFirst(line, key).value + |key|;
    var tail := Scrub(line[mnd..]);
    assert RewriteKey(line, key, value) == line[..mnd] + tail + value + "\n";
    ScrubClean(line[mnd..]);
    CleanConcatenation(line[..mnd], tail, value);
  }

  lemma CleanConcatenation(pre: string, mid: string, value: string)
    requires forall k :: 0 <= k < |mid| ==> !Stripped(mid[k])
    ensures RewrittenFrom(pre + mid + value + "\n", pre, |mid|, value)
  {
    var r := pre + mid + value + "\n";
    assert r[..|pre|] == pre;
    assert r[|pre| + |mid|..] == value + "\n";
    forall k | |pre| <= k < |pre| + |mid|
      ensures !Stripped(r[k])
    {
      assert r[k] == mid[k - |pre|];
    }
  }

  /** A line in which no key occurs passes through unchanged. */
  lemma {:induction false} RewriteAllNoKey(line: string, params: seq<(string, string)>)
    requires forall p :: p in params ==> !Contains(line, p.0)
    ensures RewriteAll(line, params) == line
  {
    if |params| > 0 {
      RewriteAllNoKey(line, params[..|params| - 1]);
      assert params[|params| - 1] in params;
    }
  }

  /** A line whose keys are all followed by no 'equal' passes through
      unchanged: expressions that merely use a parameter are kept. */
  lemma {:induction false} RewriteAllNoDeclaration(line: string, params: seq<(string, string)>)
    requires forall p :: p in params && Contains(line, p.0) ==>
               !Contains(line[FindFirst(line, p.0).value + |p.0|..], "equal")
    ensures RewriteAll(line, params) == line
  {
    if |params| > 0 {
      RewriteAllNoDeclaration(line, params[..|params| - 1]);
      assert params[|params| - 1] in params;
    }
  }

  /** The line num_atoms writes for a line mentioning replicate. */
  function ReplicateLine(n: string): string
  {
    "replicate\t" + n + " " + n + " " + n + " "
  }

  /** num_atoms as written: the conditional expression binds loosest, so a
      line mentioning replicate becomes 'replicate\t' followed by n and a
      blank three times, without the newline the original line ended with. */
  function NumAtomsLineAsWritten(line: string, n: string): (r: string)
    ensures Contains(line, "replicate") ==> r == ReplicateLine(n)
    ensures !Contains(line, "replicate") ==> r == line
  {
    if Contains(line, "replicate") then ReplicateLine(n) else line
  }

  /** num_atoms keeping the line break of the line it replaces. */
  function NumAtomsLineFixed(line: string, n: string): (r: string)
    ensures Contains(line, "replicate") ==> r == ReplicateLine(n) + "\n"
    ensures !Contains(line, "replicate") ==> r == line
  {
    if Contains(line, "replicate") then ReplicateLine(n) + "\n" else line
  }

  /** The text written to init0.mod: the lines joined as they are. */
  function Join(lines: seq<string>): string
  {
    if |lines| == 0 then "" else lines[0] + Join(lines[1..])
  }

  /** The lines num_atoms writes to init0.mod, as written. */
  function NumAtomsAsWritten(lines: seq<string>, n: string): (out: seq<string>)
    ensures |out| == |lines|
    ensures forall i :: 0 <= i < |lines| ==> out[i] == NumAtomsLineAsWritten(lines[i], n)
  {
    seq(|lines|, i requires 0 <= i < |lines| => NumAtomsLineAsWritten(lines[i], n))
  }

  /** The lines num_atoms writes with the newline kept. */
  function NumAtomsFixed(lines: seq<string>, n: string): (out: seq<string>)
    ensures |out| == |lines|
    ensures forall i :: 0 <= i < |lines| ==> out[i] == NumAtomsLineFixed(lines[i], n)
  {
    seq(|lines|, i requires 0 <= i < |lines| => NumAtomsLineFixed(lines[i], n))
  }

  /** A line as readlines returns it: its only newline is its last character. */
  predicate IsLine(s: string)
  {
    |s| >= 1 && s[|s| - 1] == '\n' && forall k :: 0 <= k < |s| - 1 ==> s[k] != '\n'
  }

  /** With the newline kept, each rewritten line is still one line, so
      init0.mod has as many lines as init00.mod. */
  lemma NumAtomsKeepsLines(lines: seq<string>, n: string)
    requires forall i :: 0 <= i < |lines| ==> IsLine(lines[i])
    requires forall k :: 0 <= k < |n| ==> n[k] != '\n'
    ensures forall i :: 0 <= i < |lines| ==> IsLine(NumAtomsFixed(lines, n)[i])
  {
    ReplicateLineHasNoNewline(n);
  }

  /** The replacement text carries no newline of its own. */
  lemma ReplicateLineHasNoNewline(n: string)
    requires forall k :: 0 <= k < |n| ==> n[k] != '\n'
    ensures forall k :: 0 <= k < |ReplicateLine(n)| ==> ReplicateLine(n)[k] != '\n'
  {
    var body := ReplicateLine(n);
    forall k | 0 <= k < |body|
      ensures body[k] != '\n'
    {
      var p := |"replicate\t"|;
      if k >= p && k < p + |n| {
        assert body[k] == n[k - p];
      } else if k >= p + |n| + 1 && k < p + 2 * |n| + 1 {
        assert body[k] == n[k - p - |n| - 1];
      } else if k >= p + 2 * |n| + 2 && k < p + 3 * |n| + 2 {
        assert body[k] == n[k - p - 2 * |n| - 2];
      }
    }
  }

  /** The number of line breaks in a text. */
  function Newlines(s: string): nat
  {
    multiset(s)['\n']
  }

  /** The number of lines mentioning replicate. */
  function ReplicateCount(lines: seq<string>): nat
  {
    if |lines| == 0 then 0 else (if Contains(lines[0], "replicate") then 1 else 0) + ReplicateCount(lines[1..])
  }

  lemma LineHasOneNewline(s: string)
    requires IsLine(s)
    ensures Newlines(s) == 1
  {
    var body := s[..|s| - 1];
    assert s == body + ['\n'];
    assert '\n' !in body;
  }

  lemma NoNewlineCount(s: string)
    requires forall k :: 0 <= k < |s| ==> s[k] != '\n'
    ensures Newlines(s) == 0
  {
    assert '\n' !in s;
  }

  /** init0.mod has as many line breaks as init00.mod has lines when the
      newline is kept; as written it has one fewer for every line that
      mentions replicate, each of which runs into the line after it. */
  lemma {:induction false} NumAtomsNewlines(lines: seq<string>, n: string)
    requires forall i :: 0 <= i < |lines| ==> IsLine(lines[i])
    requires forall k :: 0 <= k < |n| ==> n[k] != '\n'
    ensures Newlines(Join(NumAtomsFixed(lines, n))) == |lines|
    ensures Newlines(Join(NumAtomsAsWritten(lines, n))) + ReplicateCount(lines) == |lines|
  {
    if |lines| > 0 {
      var fixed, written := NumAtomsFixed(lines, n), NumAtomsAsWritten(lines, n);
      assert fixed[1..] == NumAtomsFixed(lines[1..], n);
      assert written[1..] == NumAtomsAsWritten(lines[1..], n);
      NumAtomsNewlines(lines[1..], n);
      NumAtomsKeepsLines(lines, n);
      LineHasOneNewline(fixed[0]);
      assert Join(fixed) == fixed[0] + Join(fixed[1..]);
      assert Join(written) == written[0] + Join(written[1..]);
      if Contains(lines[0], "replicate") {
        ReplicateLineHasNoNewline(n);
        NoNewlineCount(written[0]);
      } else {
        LineHasOneNewline(written[0]);
      }
    }
  }

  /** As written, the replicate line loses its newline and swallows the
      next line: two lines of init00.mod become one of init0.mod. */
  lemma NumAtomsAsWrittenMergesLines()
    ensures var lines := ["replicate 1 1 1\n", "run 0\n"];
            Contains(lines[0], "replicate") && !Contains(lines[1], "replicate") &&
            NumAtomsLineAsWritten(lines[0], "8") + NumAtomsLineAsWritten(lines[1], "8") == "replicate\t8 8 8 run 0\n" &&
            NumAtomsLineFixed(lines[0], "8") + NumAtomsLineFixed(lines[1], "8") == "replicate\t8 8 8 \nrun 0\n"
  {
    var l0: string := "replicate 1 1 1\n";
    assert OccursAt(l0, "replicate", 0) by {
      assert l0[0..9] == "replicate";
    }
    var l1: string := "run 0\n";
    assert FindFirst(l1, "replicate").None? by {
      forall j | 0 <= j <= |l1|
        ensures !OccursAt(l1, "replicate", j)
      {
      }
    }
  }

  /** The sub-runs of split mode, in order. */
  const SubDirs: seq<string> := ["x", "y", "yz"]

  /** The input scripts of one ensemble: in.elastic_<ensemble>, or one per
      sub-run with the sub-run as suffix. */
  function InputNames(ensemble: string, split: string): (names: seq<string>)
    ensures split == "n" ==> |names| == 1
    ensures split == "3n" ==> |names| == |SubDirs|
    ensures split != "n" && split != "3n" ==> names == []
  {
    if split == "n" then ["in." + "elastic_" + ensemble]
    else if split == "3n" then ["in." + "elastic_" + ensemble + "_x", "in." + "elastic_" + ensemble + "_y", "in." + "elastic_" + ensemble + "_yz"]
    else []
  }

  /** The list of files make_main extends and zips. */
  class FileList {
    var names: seq<string>

    constructor(names0: seq<string>)
      ensures names == names0
    {
      names := names0;
    }
  }

  /** make_main: the input scripts of the ensemble are appended to the
      caller's list and the zip file is named after the ensemble; any
      other split leaves zipname unbound and raises a NameError. */
  method MakeMain(files: FileList, newdir: string, ensemble: string, split: string) returns (r: Result<string>)
    modifies files
    ensures split == "n" || split == "3n" ==>
              files.names == old(files.names) + InputNames(ensemble, split) && r == Success(ensemble + ".zip")
    ensures split != "n" && split != "3n" ==> files.names == old(files.names) && r == Failure(MissingName("zipname"))
  {
    if split == "n" {
      var inname := "in." + "elastic_" + ensemble;
      files.names := files.names + [inname];
      r := Success(ensemble + ".zip");
    } else if split == "3n" {
      var innameX := "in." + "elastic_" + ensemble + "_x";
      var innameY := "in." + "elastic_" + ensemble + "_y";
      var innameYz := "in." + "elastic_" + ensemble + "_yz";
      files.names := files.names + [innameX];
      files.names := files.names + [innameY];
      files.names := files.names + [innameYz];
      r := Success(ensemble + ".zip");
    } else {
      r := Failure(MissingName("zipname"));
    }
  }

  /** The directory of the runs at temperature T. */
  function RunDir(path: string, newdir: string, T: string): string
  {
    path + newdir + "/" + "T_" + T + "/"
  }

  /** The directory of one sub-run inside a run directory. */
  function SubDir(pathT: string, sub: string): string
  {
    pathT + sub + "/"
  }

  /** make_dirs: the run directory, the zip file it unpacks and, in split
      mode, the sub-run directories and the input script moved into each. */
  datatype DirPlan = DirPlan(pathT: string, zippath: string, subdirs: seq<string>, moves: seq<(string, string)>)

  function MakeDirs(path: string, newdir: string, T: string, zipname: string, ensemble: string, split: string): (d: DirPlan)
    ensures d.pathT == RunDir(path, newdir, T)
    ensures |d.subdirs| == |d.moves|
    ensures split == "3n" <==> |d.moves| == |SubDirs|
  {
    var pathT := RunDir(path, newdir, T);
    var zippath := path + newdir + "/" + zipname;
    if split == "3n" then
      DirPlan(pathT, zippath,
              seq(|SubDirs|, k requires 0 <= k < |SubDirs| => SubDir(pathT, SubDirs[k])),
              seq(|SubDirs|, k requires 0 <= k < |SubDirs| =>
                    (pathT + "in." + "elastic_" + ensemble + "_" + SubDirs[k], SubDir(pathT, SubDirs[k]))))
    else DirPlan(pathT, zippath, [], [])
  }

  /** A job handed to the queue: the directory it is submitted from and
      the shell command. */
  datatype Job = Job(dir: string, name: string, command: string)

  function JobName(T: string, sub: string): string
  {
    if sub == "" then "jobT" + T else "jobT" + T + "_" + sub
  }

  function SubmitCommand(fname: string, p: string, jobname: string): string
  {
    "submit_lammps_parallel.pl" + " " + fname + " " + p + " " + jobname + " " + "| qsub"
  }

  /** lmp_sub: one job in the run directory, or one per sub-run in its
      sub-run directory; any other split submits nothing. */
  function LmpSub(p: string, T: string, pathT: string, split: string, ensemble: string): (jobs: seq<Job>)
    ensures |jobs| == |InputNames(ensemble, split)|
    ensures split == "n" ==>
              jobs == [Job(pathT, "jobT" + T, SubmitCommand(InputNames(ensemble, "n")[0], p, "jobT" + T))]
    ensures split == "3n" ==>
              forall k :: 0 <= k < |jobs| ==>
                jobs[k].dir == SubDir(pathT, SubDirs[k]) && jobs[k].name == "jobT" + T + "_" + SubDirs[k]
  {
    if split == "n" then
      [Job(pathT, JobName(T, ""), SubmitCommand("in." + "elastic_" + ensemble, p, JobName(T, "")))]
    else if split == "3n" then
      seq(|SubDirs|, k requires 0 <= k < |SubDirs| =>
            Job(SubDir(pathT, SubDirs[k]), JobName(T, SubDirs[k]),
                SubmitCommand("in." + "elastic_" + ensemble + "_" + SubDirs[k], p, JobName(T, SubDirs[k]))))
    else []
  }

  /** Different temperatures get different run directories. */
  lemma RunDirInjective(path: string, newdir: string, T1: string, T2: string)
    requires RunDir(path, newdir, T1) == RunDir(path, newdir, T2)
    ensures T1 == T2
  {
    var pre := path + newdir + "/" + "T_";
    var d1, d2 := RunDir(path, newdir, T1), RunDir(path, newdir, T2);
    assert d1 == pre + T1 + "/" && d2 == pre + T2 + "/";
    assert |T1| == |T2|;
    assert T1 == d1[|pre|..|pre| + |T1|];
    assert T2 == d2[|pre|..|pre| + |T2|];
  }

  /** Every input script make_main lists is submitted by lmp_sub, in the
      same order, from the directory make_dirs moved it into. */
  lemma SplitRunsAgree(path: string, newdir: string, T: string, zipname: string, ensemble: string, p: string)
    ensures var names := InputNames(ensemble, "3n");
            var plan := MakeDirs(path, newdir, T, zipname, ensemble, "3n");
            var jobs := LmpSub(p, T, plan.pathT, "3n", ensemble);
            |jobs| == |names| == |plan.moves| &&
            forall k :: 0 <= k < |names| ==>
              plan.moves[k] == (plan.pathT + names[k], jobs[k].dir) &&
              jobs[k].command == SubmitCommand(names[k], p, jobs[k].name)
  {
    forall k | 0 <= k < |SubDirs| {
      SplitRunAt(path, newdir, T, zipname, ensemble, p, k);
    }
  }

  lemma SplitRunAt(path: string, newdir: string, T: string, zipname: string, ensemble: string, p: string, k: nat)
    requires k < |SubDirs|
    ensures var names := InputNames(ensemble, "3n");
            var plan := MakeDirs(path, newdir, T, zipname, ensemble, "3n");
            var jobs := LmpSub(p, T, plan.pathT, "3n", ensemble);
            plan.moves[k] == (plan.pathT + names[k], jobs[k].dir) &&
            jobs[k].command == SubmitCommand(names[k], p, jobs[k].name)
  {
    var names := InputNames(ensemble, "3n");
    var plan := MakeDirs(path, newdir, T, zipname, ensemble, "3n");
    var jobs := LmpSub(p, T, plan.pathT, "3n", ensemble);
    var pre := "in." + "elastic_" + ensemble;
    SuffixedNames(pre, k);
    assert plan.moves[k].0 == plan.pathT + "in." + "elastic_" + ensemble + "_" + SubDirs[k];
    assert plan.pathT + "in." + "elastic_" + ensemble + "_" + SubDirs[k] == plan.pathT + (pre + "_" + SubDirs[k]);
    assert plan.moves[k].1 == SubDir(plan.pathT, SubDirs[k]) == jobs[k].dir;
  }

  /** '_' + sub is the suffix make_main writes out for each sub-run. */
  lemma SuffixedNames(pre: string, k: nat)
    requires k < |SubDirs|
    ensures pre + "_" + SubDirs[k] == [pre + "_x", pre + "_y", pre + "_yz"][k]
  {
    assert SubDirs[k] == (if k == 0 then "x" else if k == 1 then "y" else "yz");
    assert pre + "_" + "x" == pre + "_x";
    assert pre + "_" + "y" == pre + "_y";
    assert pre + "_" + "yz" == pre + "_yz";
  }

  /** In split mode the input scripts, the sub-run directories and the
      job names are pairwise distinct. */
  lemma SplitRunsDistinct(path: string, newdir: string, T: string, zipname: string, ensemble: string, p: string)
    ensures var names := InputNames(ensemble, "3n");
            var plan := MakeDirs(path, newdir, T, zipname, ensemble, "3n");
            var jobs := LmpSub(p, T, plan.pathT, "3n", ensemble);
            forall j, k :: 0 <= j < k < |names| ==>
              jobs[j].dir != jobs[k].dir && jobs[j].name != jobs[k].name && names[j] != names[k]
  {
    var names := InputNames(ensemble, "3n");
    var plan := MakeDirs(path, newdir, T, zipname, ensemble, "3n");
    var jobs := LmpSub(p, T, plan.pathT, "3n", ensemble);
    forall j, k | 0 <= j < k < |names|
      ensures jobs[j].dir != jobs[k].dir && jobs[j].name != jobs[k].name && names[j] != names[k]
    {
      var a, b := SubDirs[j], SubDirs[k];
      assert a[|a| - 1] != b[|b| - 1];
      LastCharDiffers(names[j], names[k]);
      LastCharDiffers(jobs[j].name, jobs[k].name);
      SecondLastCharDiffers(jobs[j].dir, jobs[k].dir);
    }
  }

  lemma LastCharDiffers(s: string, t: string)
    requires |s| > 0 && |t| > 0 && s[|s| - 1] != t[|t| - 1]
    ensures s != t
  {
  }

  lemma SecondLastCharDiffers(s: string, t: string)
    requires |s| > 1 && |t| > 1 && s[|s| - 2] != t[|t| - 2]
    ensures s != t
  {
  }
}
