/**
  What MakeConfig computes, stated token by token over the command line
  instead of as a fold over the flags, and the lemmas that connect the two.
 */
module ParserProperties {
  import opened Options
  import opened Dims
  import opened Flags
  import opened Parser
  import opened Seqs

  /** The closest flag position strictly before k. */
  function PrevFlag(flagsPos: map<int, string>, k: nat): (r: Option<nat>)
    ensures r.Some? ==> r.value < k && r.value in flagsPos
  {
    if k == 0 then None
    else if k - 1 in flagsPos then Some(k - 1)
    else PrevFlag(flagsPos, k - 1)
  }

  /** PrevFlag finds a flag before k with none between, or reports that there is no flag before k. */
  lemma {:induction false} PrevFlagIsClosest(flagsPos: map<int, string>, k: nat)
    ensures var r := PrevFlag(flagsPos, k);
            r.Some? ==> forall j :: r.value < j < k ==> j !in flagsPos
    ensures PrevFlag(flagsPos, k).None? ==> forall j :: 0 <= j < k ==> j !in flagsPos
  {
    if k > 0 && k - 1 !in flagsPos {
      PrevFlagIsClosest(flagsPos, k - 1);
    }
  }

  /** Between a flag at p and a later index m with no flag in between, the closest flag before m is p. */
  lemma {:induction false} PrevFlagAfter(flagsPos: map<int, string>, p: nat, m: nat)
    requires p < m && p in flagsPos
    requires forall k :: p < k < m ==> k !in flagsPos
    ensures PrevFlag(flagsPos, m) == Some(p)
    decreases m
  {
    if m > p + 1 {
      PrevFlagAfter(flagsPos, p, m - 1);
    }
  }

  /**
    The argument of the flag at k when exactly one token follows it before
    the next flag or the end of the list.
   */
  function SingleArg(args: seq<string>, flagsPos: map<int, string>, k: nat): Option<string> {
    if k + 1 < |args| && k + 1 !in flagsPos && (k + 2 == |args| || k + 2 in flagsPos)
    then Some(args[k + 1]) else None
  }

  /** The error expected of an option, given its single argument if it has one. */
  function ExpectedError(kind: FlagKind, arg: Option<string>, folders: Folders): Option<ParseError> {
    match kind
    case InputFiles => None
    case InputFolder =>
      if arg.None? then Some(WrongFolderArgs)
      else if arg.value !in folders then Some(UnreadableFolder)
      else None
    case Grid => if arg.Some? && ParseDims(arg.value).Some? then None else Some(WrongGridFormat)
    case Resolution => if arg.Some? && ParseDims(arg.value).Some? then None else Some(WrongResolutionFormat)
  }

  /** The files a folder argument lists; nothing when it is missing or unreadable. */
  function FolderFiles(arg: Option<string>, folders: Folders): seq<string> {
    match arg
    case None => []
    case Some(d) => if d in folders then folders[d] else []
  }

  /**
    The input files that token k brings in: the listing of a folder flag
    with one readable argument, and the token itself when the closest flag
    before it is an input-files flag.
   */
  function FilesAt(args: seq<string>, flagsPos: map<int, string>, folders: Folders, k: nat): seq<string>
    requires k < |args|
  {
    if k in flagsPos then
      if KindOf(flagsPos[k]) == Some(InputFolder) then FolderFiles(SingleArg(args, flagsPos, k), folders) else []
    else
      match PrevFlag(flagsPos, k)
      case Some(p) => if KindOf(flagsPos[p]) == Some(InputFiles) then [args[k]] else []
      case None => []
  }

  /** The input files brought in by the tokens from index k to the end, in token order. */
  function FilesFrom(args: seq<string>, flagsPos: map<int, string>, folders: Folders, k: nat): seq<string>
    decreases |args| - k
  {
    if k >= |args| then [] else FilesAt(args, flagsPos, folders, k) + FilesFrom(args, flagsPos, folders, k + 1)
  }

  /** The error token k reports: only a flag whose argument is bad reports one. */
  function ErrorsAt(args: seq<string>, flagsPos: map<int, string>, folders: Folders, k: nat): seq<ParseError>
    requires k < |args|
  {
    if k in flagsPos && IsFlag(flagsPos[k])
    then ExpectedError(KindOf(flagsPos[k]).value, SingleArg(args, flagsPos, k), folders).ToSeq()
    else []
  }

  /** The errors reported by the tokens from index k to the end, in token order. */
  function ErrorsFrom(args: seq<string>, flagsPos: map<int, string>, folders: Folders, k: nat): seq<ParseError>
    decreases |args| - k
  {
    if k >= |args| then [] else ErrorsAt(args, flagsPos, folders, k) + ErrorsFrom(args, flagsPos, folders, k + 1)
  }

  /** Token k is not a flag, or it is one whose argument is good. */
  predicate FlagAccepted(args: seq<string>, flagsPos: map<int, string>, folders: Folders, k: nat) {
    k in flagsPos && IsFlag(flagsPos[k]) ==>
      ExpectedError(KindOf(flagsPos[k]).value, SingleArg(args, flagsPos, k), folders).None?
  }

  /** Every flag of the command line, from index lo on, has a good argument. */
  predicate AllAccepted(args: seq<string>, flagsPos: map<int, string>, folders: Folders, lo: nat) {
    forall k :: lo <= k < |args| ==> FlagAccepted(args, flagsPos, folders, k)
  }

  /** The flag at p is in range and is the only one of its kind from index from on. */
  predicate OnlyFlagOfKind(args: seq<string>, flagsPos: map<int, string>, kind: FlagKind, p: int, from: nat) {
    from <= p < |args| && p in flagsPos && KindOf(flagsPos[p]) == Some(kind) &&
    forall q :: from <= q < |args| && q in flagsPos && KindOf(flagsPos[q]) == Some(kind) ==> q == p
  }

  /** No flag of that kind from index from on. */
  predicate NoFlagOfKind(args: seq<string>, flagsPos: map<int, string>, kind: FlagKind, from: nat) {
    forall q :: from <= q < |args| && q in flagsPos ==> KindOf(flagsPos[q]) != Some(kind)
  }

  // ---------------------------------------------------------------------
  // Spans against the token-by-token view

  /** A span has one token exactly when SingleArg finds one, and it is that token. */
  lemma SingleArgOfSpan(args: seq<string>, flagsPos: map<int, string>, p: nat)
    requires p < |args|
    ensures var sp := Span(args, flagsPos, p);
            && (|sp| == 1 <==> SingleArg(args, flagsPos, p).Some?)
            && (|sp| == 1 ==> sp[0] == SingleArg(args, flagsPos, p).value)
  {
    var sp := Span(args, flagsPos, p);
    SpanIsFlagFreeRun(args, flagsPos, p);
    if |sp| >= 2 {
      assert p + 2 !in flagsPos;
    }
    if |sp| == 1 {
      assert sp[0] == args[p + 1];
    }
  }

  /** The error CheckFlag reports for a span is the one the token-by-token view expects. */
  lemma FlagErrorIsExpected(args: seq<string>, flagsPos: map<int, string>, folders: Folders, p: nat)
    requires p < |args| && p in flagsPos
    ensures FlagError(flagsPos[p], Span(args, flagsPos, p), folders).ToSeq()
         == ErrorsAt(args, flagsPos, folders, p)
  {
    SingleArgOfSpan(args, flagsPos, p);
  }

  // ---------------------------------------------------------------------
  // One flag and its span at a time

  /** A token inside the span of the flag at p is an input file exactly when p is "-i". */
  lemma SpanTokenFiles(args: seq<string>, flagsPos: map<int, string>, folders: Folders, p: nat, m: nat)
    requires p < |args| && p in flagsPos
    requires p + 1 <= m < NextFlag(flagsPos, p + 1, |args|)
    ensures KindOf(flagsPos[p]) == Some(InputFiles) ==>
              FilesFrom(args, flagsPos, folders, m) == [args[m]] + FilesFrom(args, flagsPos, folders, m + 1)
    ensures KindOf(flagsPos[p]) != Some(InputFiles) ==>
              FilesFrom(args, flagsPos, folders, m) == FilesFrom(args, flagsPos, folders, m + 1)
  {
    PrevFlagAfter(flagsPos, p, m);
    assert FilesAt(args, flagsPos, folders, m)
        == (if KindOf(flagsPos[p]) == Some(InputFiles) then [args[m]] else []);
  }

  /** Inside the span of an "-i" flag at p, every token is an input file. */
  lemma {:induction false} SpanFilesOfInputs(args: seq<string>, flagsPos: map<int, string>, folders: Folders,
                                             p: nat, m: nat)
    requires p < |args| && p in flagsPos && KindOf(flagsPos[p]) == Some(InputFiles)
    requires p + 1 <= m <= NextFlag(flagsPos, p + 1, |args|)
    ensures var j := NextFlag(flagsPos, p + 1, |args|);
            FilesFrom(args, flagsPos, folders, m) == args[m..j] + FilesFrom(args, flagsPos, folders, j)
    decreases |args| - m
  {
    var j := NextFlag(flagsPos, p + 1, |args|);
    if m < j {
      SpanFilesOfInputs(args, flagsPos, folders, p, m + 1);
      SpanTokenFiles(args, flagsPos, folders, p, m);
      SliceCons(args, m, j);
      AppendAssoc([args[m]], args[m + 1..j], FilesFrom(args, flagsPos, folders, j));
    }
  }

  /** Inside the span of any other flag at p, no token is an input file. */
  lemma {:induction false} SpanFilesOfOthers(args: seq<string>, flagsPos: map<int, string>, folders: Folders,
                                             p: nat, m: nat)
    requires p < |args| && p in flagsPos && KindOf(flagsPos[p]) != Some(InputFiles)
    requires p + 1 <= m <= NextFlag(flagsPos, p + 1, |args|)
    ensures FilesFrom(args, flagsPos, folders, m) == FilesFrom(args, flagsPos, folders, NextFlag(flagsPos, p + 1, |args|))
    decreases |args| - m
  {
    if m < NextFlag(flagsPos, p + 1, |args|) {
      SpanFilesOfOthers(args, flagsPos, folders, p, m + 1);
      SpanTokenFiles(args, flagsPos, folders, p, m);
    }
  }

  /** Inside the span of the flag at p, each token is an input file exactly when p is "-i". */
  lemma SpanFiles(args: seq<string>, flagsPos: map<int, string>, folders: Folders, p: nat, m: nat)
    requires p < |args| && p in flagsPos
    requires p + 1 <= m <= NextFlag(flagsPos, p + 1, |args|)
    ensures var j := NextFlag(flagsPos, p + 1, |args|);
            FilesFrom(args, flagsPos, folders, m)
            == (if KindOf(flagsPos[p]) == Some(InputFiles) then args[m..j] else [])
               + FilesFrom(args, flagsPos, folders, j)
  {
    if KindOf(flagsPos[p]) == Some(InputFiles) {
      SpanFilesOfInputs(args, flagsPos, folders, p, m);
    } else {
      SpanFilesOfOthers(args, flagsPos, folders, p, m);
    }
  }

  /** A span holds no flag, so it reports no error. */
  lemma {:induction false} SpanErrors(args: seq<string>, flagsPos: map<int, string>, folders: Folders,
                                      p: nat, m: nat)
    requires p < |args|
    requires p + 1 <= m <= NextFlag(flagsPos, p + 1, |args|)
    ensures ErrorsFrom(args, flagsPos, folders, m) == ErrorsFrom(args, flagsPos, folders, NextFlag(flagsPos, p + 1, |args|))
    decreases |args| - m
  {
    if m < NextFlag(flagsPos, p + 1, |args|) {
      SpanErrors(args, flagsPos, folders, p, m + 1);
      assert ErrorsAt(args, flagsPos, folders, m) == [];
    }
  }

  /** What one flag adds to the input files. */
  lemma StepFiles(args: seq<string>, flagsPos: map<int, string>, folders: Folders, p: nat, c: Config)
    requires p < |args| && p in flagsPos
    ensures var sp := Span(args, flagsPos, p);
            Step(c, flagsPos[p], sp, folders).0.InputFiles
            == c.InputFiles + (FilesAt(args, flagsPos, folders, p)
                               + (if KindOf(flagsPos[p]) == Some(InputFiles) then sp else []))
  {
    SingleArgOfSpan(args, flagsPos, p);
  }

  /** One flag changes the grid only when it is an accepted grid flag. */
  lemma StepGrid(c: Config, flag: string, span: seq<string>, folders: Folders)
    ensures var r := Step(c, flag, span, folders).0;
            if KindOf(flag) == Some(Grid) && Accepts(Grid, span, folders)
            then r.gridSet && (r.GridRows, r.GridCols) == ParseDims(span[0]).value
            else r.gridSet == c.gridSet && r.GridRows == c.GridRows && r.GridCols == c.GridCols
  {
  }

  /** One flag changes the output size only when it is an accepted resolution flag. */
  lemma StepResolution(c: Config, flag: string, span: seq<string>, folders: Folders)
    ensures var r := Step(c, flag, span, folders).0;
            if KindOf(flag) == Some(Resolution) && Accepts(Resolution, span, folders)
            then (r.OutputWidth, r.OutputHeight) == ParseDims(span[0]).value
            else r.OutputWidth == c.OutputWidth && r.OutputHeight == c.OutputHeight
  {
  }

  /** The files from a flag on are what Step adds for it, then the files from the next flag on. */
  lemma FlagFiles(args: seq<string>, flagsPos: map<int, string>, folders: Folders, p: nat, c: Config)
    requires p < |args| && p in flagsPos
    ensures Step(c, flagsPos[p], Span(args, flagsPos, p), folders).0.InputFiles
            + FilesFrom(args, flagsPos, folders, NextFlag(flagsPos, p + 1, |args|))
         == c.InputFiles + FilesFrom(args, flagsPos, folders, p)
  {
    var j := NextFlag(flagsPos, p + 1, |args|);
    var head := FilesAt(args, flagsPos, folders, p);
    var named := if KindOf(flagsPos[p]) == Some(InputFiles) then Span(args, flagsPos, p) else [];
    var tail := FilesFrom(args, flagsPos, folders, j);
    SpanFiles(args, flagsPos, folders, p, p + 1);
    StepFiles(args, flagsPos, folders, p, c);
    AppendAssoc(c.InputFiles, head + named, tail);
    AppendAssoc(head, named, tail);
  }

  /** The errors from a flag on are its own, then the errors from the next flag on. */
  lemma FlagErrors(args: seq<string>, flagsPos: map<int, string>, folders: Folders, p: nat)
    requires p < |args| && p in flagsPos
    ensures ErrorsFrom(args, flagsPos, folders, p)
            == FlagError(flagsPos[p], Span(args, flagsPos, p), folders).ToSeq()
               + ErrorsFrom(args, flagsPos, folders, NextFlag(flagsPos, p + 1, |args|))
  {
    SpanErrors(args, flagsPos, folders, p, p + 1);
    FlagErrorIsExpected(args, flagsPos, folders, p);
  }

  // ---------------------------------------------------------------------
  // The fold against the reference definitions

  /** At a flag, the fold handles its span and goes on at the next flag. */
  lemma BuildAtFlag(args: seq<string>, flagsPos: map<int, string>, folders: Folders,
                    i: nat, c: Config, errs: seq<ParseError>)
    requires i < |args| && i in flagsPos
    ensures var step := Step(c, flagsPos[i], Span(args, flagsPos, i), folders);
            Build(args, flagsPos, folders, i, c, errs)
               == Build(args, flagsPos, folders, NextFlag(flagsPos, i + 1, |args|), step.0, errs + step.1.ToSeq())
  {
  }

  /** Off a flag, the fold moves on by one token and changes nothing. */
  lemma BuildOffFlag(args: seq<string>, flagsPos: map<int, string>, folders: Folders,
                     i: nat, c: Config, errs: seq<ParseError>)
    requires i < |args| && i !in flagsPos
    ensures Build(args, flagsPos, folders, i, c, errs) == Build(args, flagsPos, folders, i + 1, c, errs)
  {
  }

  /** A token before the first flag brings in no file. */
  lemma FilesFromOffFlag(args: seq<string>, flagsPos: map<int, string>, folders: Folders, i: nat)
    requires i < |args| && i !in flagsPos && PrevFlag(flagsPos, i).None?
    ensures FilesFrom(args, flagsPos, folders, i) == FilesFrom(args, flagsPos, folders, i + 1)
    ensures PrevFlag(flagsPos, i + 1).None?
  {
    assert FilesAt(args, flagsPos, folders, i) == [];
  }

  /** BuildFiles at a flag: the flag's own files, then those from the next flag on. */
  lemma {:induction false} BuildFilesAtFlag(args: seq<string>, flagsPos: map<int, string>, folders: Folders,
                                            i: nat, c: Config, errs: seq<ParseError>)
    requires i < |args| && i in flagsPos
    ensures Build(args, flagsPos, folders, i, c, errs).0.InputFiles
         == c.InputFiles + FilesFrom(args, flagsPos, folders, i)
    decreases |args| - i, 0
  {
    var step := Step(c, flagsPos[i], Span(args, flagsPos, i), folders);
    BuildFiles(args, flagsPos, folders, NextFlag(flagsPos, i + 1, |args|), step.0, errs + step.1.ToSeq());
    FlagFiles(args, flagsPos, folders, i, c);
    BuildAtFlag(args, flagsPos, folders, i, c, errs);
  }

  /** BuildFiles before the first flag: the token brings in nothing. */
  lemma {:induction false} BuildFilesOffFlag(args: seq<string>, flagsPos: map<int, string>, folders: Folders,
                                             i: nat, c: Config, errs: seq<ParseError>)
    requires i < |args| && i !in flagsPos && PrevFlag(flagsPos, i).None?
    ensures Build(args, flagsPos, folders, i, c, errs).0.InputFiles
         == c.InputFiles + FilesFrom(args, flagsPos, folders, i)
    decreases |args| - i, 0
  {
    FilesFromOffFlag(args, flagsPos, folders, i);
    BuildFiles(args, flagsPos, folders, i + 1, c, errs);
    BuildOffFlag(args, flagsPos, folders, i, c, errs);
  }

  lemma {:induction false} BuildFiles(args: seq<string>, flagsPos: map<int, string>, folders: Folders,
                                      i: nat, c: Config, errs: seq<ParseError>)
    requires i <= |args|
    requires i == |args| || i in flagsPos || PrevFlag(flagsPos, i).None?
    ensures Build(args, flagsPos, folders, i, c, errs).0.InputFiles
         == c.InputFiles + FilesFrom(args, flagsPos, folders, i)
    decreases |args| - i, 1
  {
    if i < |args| {
      if i in flagsPos {
        BuildFilesAtFlag(args, flagsPos, folders, i, c, errs);
      } else {
        BuildFilesOffFlag(args, flagsPos, folders, i, c, errs);
      }
    }
  }

  lemma {:induction false} BuildErrors(args: seq<string>, flagsPos: map<int, string>, folders: Folders,
                                       i: nat, c: Config, errs: seq<ParseError>)
    requires i <= |args|
    ensures Build(args, flagsPos, folders, i, c, errs).1
         == errs + ErrorsFrom(args, flagsPos, folders, i)
    decreases |args| - i
  {
    if i < |args| {
      if i in flagsPos {
        var j := NextFlag(flagsPos, i + 1, |args|);
        var step := Step(c, flagsPos[i], Span(args, flagsPos, i), folders);
        var own := step.1.ToSeq();
        BuildErrors(args, flagsPos, folders, j, step.0, errs + own);
        FlagErrors(args, flagsPos, folders, i);
        AppendAssoc(errs, own, ErrorsFrom(args, flagsPos, folders, j));
        BuildAtFlag(args, flagsPos, folders, i, c, errs);
      } else {
        BuildErrors(args, flagsPos, folders, i + 1, c, errs);
        assert ErrorsAt(args, flagsPos, folders, i) == [];
        BuildOffFlag(args, flagsPos, folders, i, c, errs);
      }
    }
  }

  lemma {:induction false} BuildWithoutGrid(args: seq<string>, flagsPos: map<int, string>, folders: Folders,
                                            i: nat, c: Config, errs: seq<ParseError>)
    requires i <= |args|
    requires NoFlagOfKind(args, flagsPos, Grid, i)
    ensures var r := Build(args, flagsPos, folders, i, c, errs).0;
            r.gridSet == c.gridSet && r.GridRows == c.GridRows && r.GridCols == c.GridCols
    decreases |args| - i
  {
    if i < |args| {
      if i in flagsPos {
        var step := Step(c, flagsPos[i], Span(args, flagsPos, i), folders);
        BuildAtFlag(args, flagsPos, folders, i, c, errs);
        StepGrid(c, flagsPos[i], Span(args, flagsPos, i), folders);
        BuildWithoutGrid(args, flagsPos, folders, NextFlag(flagsPos, i + 1, |args|), step.0, errs + step.1.ToSeq());
      } else {
        BuildOffFlag(args, flagsPos, folders, i, c, errs);
        BuildWithoutGrid(args, flagsPos, folders, i + 1, c, errs);
      }
    }
  }

  lemma {:induction false} BuildWithoutResolution(args: seq<string>, flagsPos: map<int, string>, folders: Folders,
                                                  i: nat, c: Config, errs: seq<ParseError>)
    requires i <= |args|
    requires NoFlagOfKind(args, flagsPos, Resolution, i)
    ensures var r := Build(args, flagsPos, folders, i, c, errs).0;
            r.OutputWidth == c.OutputWidth && r.OutputHeight == c.OutputHeight
    decreases |args| - i
  {
    if i < |args| {
      if i in flagsPos {
        var step := Step(c, flagsPos[i], Span(args, flagsPos, i), folders);
        BuildAtFlag(args, flagsPos, folders, i, c, errs);
        StepResolution(c, flagsPos[i], Span(args, flagsPos, i), folders);
        BuildWithoutResolution(args, flagsPos, folders, NextFlag(flagsPos, i + 1, |args|), step.0, errs + step.1.ToSeq());
      } else {
        BuildOffFlag(args, flagsPos, folders, i, c, errs);
        BuildWithoutResolution(args, flagsPos, folders, i + 1, c, errs);
      }
    }
  }

  lemma {:induction false} BuildUniqueGrid(args: seq<string>, flagsPos: map<int, string>, folders: Folders,
                                           i: nat, c: Config, errs: seq<ParseError>, p: nat)
    requires i <= |args|
    requires OnlyFlagOfKind(args, flagsPos, Grid, p, i)
    ensures var r := Build(args, flagsPos, folders, i, c, errs).0;
            var sp := Span(args, flagsPos, p);
            if Accepts(Grid, sp, folders)
            then r.gridSet && (r.GridRows, r.GridCols) == ParseDims(sp[0]).value
            else r.gridSet == c.gridSet && r.GridRows == c.GridRows && r.GridCols == c.GridCols
    decreases |args| - i
  {
    if i in flagsPos {
      var j := NextFlag(flagsPos, i + 1, |args|);
      var step := Step(c, flagsPos[i], Span(args, flagsPos, i), folders);
      BuildAtFlag(args, flagsPos, folders, i, c, errs);
      StepGrid(c, flagsPos[i], Span(args, flagsPos, i), folders);
      if i == p {
        BuildWithoutGrid(args, flagsPos, folders, j, step.0, errs + step.1.ToSeq());
      } else {
        assert j <= p;
        BuildUniqueGrid(args, flagsPos, folders, j, step.0, errs + step.1.ToSeq(), p);
      }
    } else {
      BuildOffFlag(args, flagsPos, folders, i, c, errs);
      BuildUniqueGrid(args, flagsPos, folders, i + 1, c, errs, p);
    }
  }

  lemma {:induction false} BuildUniqueResolution(args: seq<string>, flagsPos: map<int, string>, folders: Folders,
                                                 i: nat, c: Config, errs: seq<ParseError>, p: nat)
    requires i <= |args|
    requires OnlyFlagOfKind(args, flagsPos, Resolution, p, i)
    ensures var r := Build(args, flagsPos, folders, i, c, errs).0;
            var sp := Span(args, flagsPos, p);
            if Accepts(Resolution, sp, folders)
            then (r.OutputWidth, r.OutputHeight) == ParseDims(sp[0]).value
            else r.OutputWidth == c.OutputWidth && r.OutputHeight == c.OutputHeight
    decreases |args| - i
  {
    if i in flagsPos {
      var j := NextFlag(flagsPos, i + 1, |args|);
      var step := Step(c, flagsPos[i], Span(args, flagsPos, i), folders);
      BuildAtFlag(args, flagsPos, folders, i, c, errs);
      StepResolution(c, flagsPos[i], Span(args, flagsPos, i), folders);
      if i == p {
        BuildWithoutResolution(args, flagsPos, folders, j, step.0, errs + step.1.ToSeq());
      } else {
        assert j <= p;
        BuildUniqueResolution(args, flagsPos, folders, j, step.0, errs + step.1.ToSeq(), p);
      }
    } else {
      BuildOffFlag(args, flagsPos, folders, i, c, errs);
      BuildUniqueResolution(args, flagsPos, folders, i + 1, c, errs, p);
    }
  }

  lemma {:induction false} BuildNoFlags(args: seq<string>, folders: Folders,
                                        i: nat, c: Config, errs: seq<ParseError>)
    requires i <= |args|
    ensures Build(args, map[], folders, i, c, errs) == (c, errs)
    decreases |args| - i
  {
    if i < |args| {
      BuildOffFlag(args, map[], folders, i, c, errs);
      BuildNoFlags(args, folders, i + 1, c, errs);
    }
  }

  // ---------------------------------------------------------------------
  // MakeConfig

  /**
    The input files are, in token order, every token whose closest flag
    is an input-files flag, and the listing of every folder flag that has
    one readable argument.
   */
  lemma InputFilesInTokenOrder(args: seq<string>, flagsPos: map<int, string>, folders: Folders)
    ensures MakeConfig(args, flagsPos, folders).0.InputFiles == FilesFrom(args, flagsPos, folders, 0)
  {
    BuildFiles(args, flagsPos, folders, 0, ZeroConfig, []);
  }

  /** The errors are those of the flags with a bad argument, one each, in token order. */
  lemma ErrorsInTokenOrder(args: seq<string>, flagsPos: map<int, string>, folders: Folders)
    ensures MakeConfig(args, flagsPos, folders).1 == ErrorsFrom(args, flagsPos, folders, 0)
  {
    BuildErrors(args, flagsPos, folders, 0, ZeroConfig, []);
  }

  /** A token reports no error exactly when it is accepted. */
  lemma ErrorsAtEmpty(args: seq<string>, flagsPos: map<int, string>, folders: Folders, k: nat)
    requires k < |args|
    ensures ErrorsAt(args, flagsPos, folders, k) == [] <==> FlagAccepted(args, flagsPos, folders, k)
  {
  }

  lemma {:induction false} ErrorsFromEmpty(args: seq<string>, flagsPos: map<int, string>, folders: Folders,
                                           lo: nat)
    ensures ErrorsFrom(args, flagsPos, folders, lo) == [] <==> AllAccepted(args, flagsPos, folders, lo)
    decreases |args| - lo
  {
    if lo < |args| {
      var head := ErrorsAt(args, flagsPos, folders, lo);
      var tail := ErrorsFrom(args, flagsPos, folders, lo + 1);
      ErrorsFromEmpty(args, flagsPos, folders, lo + 1);
      ErrorsAtEmpty(args, flagsPos, folders, lo);
      assert ErrorsFrom(args, flagsPos, folders, lo) == head + tail;
      assert head + tail == [] <==> head == [] && tail == [];
      assert AllAccepted(args, flagsPos, folders, lo)
         <==> FlagAccepted(args, flagsPos, folders, lo) && AllAccepted(args, flagsPos, folders, lo + 1);
    }
  }

  /** No error is reported exactly when every flag has a good argument. */
  lemma NoErrorsIffAllAccepted(args: seq<string>, flagsPos: map<int, string>, folders: Folders)
    ensures MakeConfig(args, flagsPos, folders).1 == [] <==> AllAccepted(args, flagsPos, folders, 0)
  {
    ErrorsInTokenOrder(args, flagsPos, folders);
    ErrorsFromEmpty(args, flagsPos, folders, 0);
  }

  /** Without a grid flag the grid stays unset and 0 by 0. */
  lemma GridUnsetWithoutGridFlag(args: seq<string>, flagsPos: map<int, string>, folders: Folders)
    requires NoFlagOfKind(args, flagsPos, Grid, 0)
    ensures var c := MakeConfig(args, flagsPos, folders).0;
            !c.gridSet && c.GridRows == 0 && c.GridCols == 0
  {
    BuildWithoutGrid(args, flagsPos, folders, 0, ZeroConfig, []);
  }

  /**
    A single grid flag sets the grid from its one dimension string, whatever
    the other flags do; with a bad argument the grid stays unset and 0 by 0.
   */
  lemma GridFromGridFlag(args: seq<string>, flagsPos: map<int, string>, folders: Folders, p: nat)
    requires OnlyFlagOfKind(args, flagsPos, Grid, p, 0)
    ensures var c := MakeConfig(args, flagsPos, folders).0;
            var arg := SingleArg(args, flagsPos, p);
            if arg.Some? && ParseDims(arg.value).Some?
            then c.gridSet && (c.GridRows, c.GridCols) == ParseDims(arg.value).value
            else !c.gridSet && c.GridRows == 0 && c.GridCols == 0
  {
    BuildUniqueGrid(args, flagsPos, folders, 0, ZeroConfig, [], p);
    SingleArgOfSpan(args, flagsPos, p);
  }

  /** Without a resolution flag the output resolution stays 0 by 0. */
  lemma ResolutionUnsetWithoutFlag(args: seq<string>, flagsPos: map<int, string>, folders: Folders)
    requires NoFlagOfKind(args, flagsPos, Resolution, 0)
    ensures var c := MakeConfig(args, flagsPos, folders).0;
            c.OutputWidth == 0 && c.OutputHeight == 0
  {
    BuildWithoutResolution(args, flagsPos, folders, 0, ZeroConfig, []);
  }

  /**
    A single resolution flag sets the output size from its one dimension
    string, whatever the other flags do; with a bad argument it stays 0 by 0.
   */
  lemma ResolutionFromResolutionFlag(args: seq<string>, flagsPos: map<int, string>, folders: Folders, p: nat)
    requires OnlyFlagOfKind(args, flagsPos, Resolution, p, 0)
    ensures var c := MakeConfig(args, flagsPos, folders).0;
            var arg := SingleArg(args, flagsPos, p);
            if arg.Some? && ParseDims(arg.value).Some?
            then (c.OutputWidth, c.OutputHeight) == ParseDims(arg.value).value
            else c.OutputWidth == 0 && c.OutputHeight == 0
  {
    BuildUniqueResolution(args, flagsPos, folders, 0, ZeroConfig, [], p);
    SingleArgOfSpan(args, flagsPos, p);
  }

  /** Tokens that belong to no flag are ignored: with no flags the result is the zero record. */
  lemma NoFlagsGiveZeroConfig(args: seq<string>, folders: Folders)
    ensures MakeConfig(args, map[], folders) == (ZeroConfig, [])
  {
    BuildNoFlags(args, folders, 0, ZeroConfig, []);
  }
}
