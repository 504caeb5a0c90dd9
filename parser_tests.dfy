/**
  The command lines of the parser's unit tests, with the results the tests
  expect, proved of the model.
 */
module ParserTests {
  import opened Options
  import opened Decimal
  import opened Dims
  import opened Flags
  import opened Parser
  import opened ParserProperties

  // ---------------------------------------------------------------------
  // Flag discovery

  lemma FindAllFlagsEmptyArgs()
    ensures FindAllFlags([]) == map[]
  {
  }

  lemma FindAllFlagsInputOnly()
    ensures FindAllFlags(["-i", "input.jpg"]) == map[0 := "-i"]
  {
    var args := ["-i", "input.jpg"];
    var r := FindAllFlags(args);
    forall i ensures i in r <==> i == 0 {
      if 0 <= i < |args| {
        assert i == 0 || i == 1;
      }
    }
  }

  lemma FindAllFlagsMulti()
    ensures FindAllFlags(["-i", "input1.jpg", "input2.jpg", "-g", "25*25"]) == map[0 := "-i", 3 := "-g"]
  {
    var args := ["-i", "input1.jpg", "input2.jpg", "-g", "25*25"];
    var r := FindAllFlags(args);
    forall i ensures i in r <==> i == 0 || i == 3 {
      if 0 <= i < |args| {
        assert i == 0 || i == 1 || i == 2 || i == 3 || i == 4;
      }
    }
  }

  lemma FlagsOfInvalidArgs()
    ensures FindAllFlags(["-i", "-g", "25i25"]) == map[0 := "-i", 1 := "-g"]
  {
    var args := ["-i", "-g", "25i25"];
    forall i ensures i in FindAllFlags(args) <==> i == 0 || i == 1 {
      if 0 <= i < |args| {
        assert i == 0 || i == 1 || i == 2;
      }
    }
  }

  lemma FlagsOfGridAndReso()
    ensures FindAllFlags(["-i", "input1.jpg", "-g", "8x8", "-r", "1024*768"]) == map[0 := "-i", 2 := "-g", 4 := "-r"]
  {
    var args := ["-i", "input1.jpg", "-g", "8x8", "-r", "1024*768"];
    forall i ensures i in FindAllFlags(args) <==> i == 0 || i == 2 || i == 4 {
      if 0 <= i < |args| {
        assert i == 0 || i == 1 || i == 2 || i == 3 || i == 4 || i == 5;
      }
    }
  }

  lemma FlagsOfInputsFromFolder()
    ensures FindAllFlags(["-f", "../fsmall", "-g", "10x10"]) == map[0 := "-f", 2 := "-g"]
  {
    var args := ["-f", "../fsmall", "-g", "10x10"];
    forall i ensures i in FindAllFlags(args) <==> i == 0 || i == 2 {
      if 0 <= i < |args| {
        assert i == 0 || i == 1 || i == 2 || i == 3;
      }
    }
  }

  // ---------------------------------------------------------------------
  // Dimension strings of the tests

  lemma Dims25By25()
    ensures ParseDims("25*25") == Some((25, 25))
  {
    assert ShowNat(2) == "2";
    assert ShowNat(25) == "25";
    ParseShowDims(25, 25, '*');
  }

  lemma Dims8By8()
    ensures ParseDims("8x8") == Some((8, 8))
  {
    assert ShowNat(8) == "8";
    ParseShowDims(8, 8, 'x');
  }

  lemma Dims1024By768()
    ensures ParseDims("1024*768") == Some((1024, 768))
  {
    assert ShowNat(1) == "1";
    assert ShowNat(10) == "10";
    assert ShowNat(102) == "102";
    assert ShowNat(1024) == "1024";
    assert ShowNat(7) == "7";
    assert ShowNat(76) == "76";
    assert ShowNat(768) == "768";
    assert ShowNat(1024) + ['*'] + ShowNat(768) == "1024*768";
    ParseShowDims(1024, 768, '*');
  }

  lemma Dims10By10()
    ensures ParseDims("10x10") == Some((10, 10))
  {
    assert ShowNat(1) == "1";
    assert ShowNat(10) == "10";
    ParseShowDims(10, 10, 'x');
  }

  /** 'i' is not a separator, so "25i25" is no dimension string. */
  lemma Dims25i25()
    ensures ParseDims("25i25") == None
  {
    NoSeparatorRejected("25i25");
  }

  // ---------------------------------------------------------------------
  // One flag of the tests at a time

  lemma StepInputFiles(c: Config, span: seq<string>, folders: Folders)
    ensures Step(c, "-i", span, folders) == (c.(InputFiles := c.InputFiles + span), None)
  {
    assert KindOf("-i") == Some(InputFiles);
  }

  lemma StepInputFolder(c: Config, d: string, folders: Folders)
    requires d in folders
    ensures Step(c, "-f", [d], folders) == (c.(InputFiles := c.InputFiles + folders[d]), None)
  {
    assert KindOf("-f") == Some(InputFolder);
  }

  lemma StepGoodGrid(c: Config, s: string, folders: Folders, rows: nat, cols: nat)
    requires ParseDims(s) == Some((rows, cols))
    ensures Step(c, "-g", [s], folders) == (c.(GridRows := rows, GridCols := cols, gridSet := true), None)
  {
    assert KindOf("-g") == Some(Grid);
  }

  lemma StepBadGrid(c: Config, s: string, folders: Folders)
    requires ParseDims(s) == None
    ensures Step(c, "-g", [s], folders) == (c, Some(WrongGridFormat))
  {
    assert KindOf("-g") == Some(Grid);
  }

  lemma StepGoodResolution(c: Config, s: string, folders: Folders, width: nat, height: nat)
    requires ParseDims(s) == Some((width, height))
    ensures Step(c, "-r", [s], folders) == (c.(OutputWidth := width, OutputHeight := height), None)
  {
    assert KindOf("-r") == Some(Resolution);
  }

  // ---------------------------------------------------------------------
  // MakeConfig

  /** Handling a flag that reports nothing leaves the errors as they were. */
  lemma NoErrorAdded(errs: seq<ParseError>)
    ensures errs + Option<ParseError>.None.ToSeq() == errs
  {
  }

  lemma MakeConfigEmpty(folders: Folders)
    ensures MakeConfig([], FindAllFlags([]), folders) == (ZeroConfig, [])
  {
    FindAllFlagsEmptyArgs();
  }

  lemma MakeConfigSingleInput(folders: Folders)
    ensures var args := ["-i", "input.jpg"];
            MakeConfig(args, FindAllFlags(args), folders) == (Config(["input.jpg"], 0, 0, false, 0, 0), [])
  {
    var args := ["-i", "input.jpg"];
    var fp := map[0 := "-i"];
    var c1 := Config(["input.jpg"], 0, 0, false, 0, 0);
    FindAllFlagsInputOnly();
    assert NextFlag(fp, 1, 2) == 2;
    assert Span(args, fp, 0) == ["input.jpg"];
    StepInputFiles(ZeroConfig, ["input.jpg"], folders);
    assert ZeroConfig.InputFiles + ["input.jpg"] == c1.InputFiles;
    BuildAtFlag(args, fp, folders, 0, ZeroConfig, []);
    NoErrorAdded([]);
  }

  lemma MakeConfigMultiInput(folders: Folders)
    ensures var args := ["-i", "input1.jpg", "input2.jpg", "-g", "25*25"];
            MakeConfig(args, FindAllFlags(args), folders)
            == (Config(["input1.jpg", "input2.jpg"], 25, 25, true, 0, 0), [])
  {
    var args := ["-i", "input1.jpg", "input2.jpg", "-g", "25*25"];
    var fp := map[0 := "-i", 3 := "-g"];
    var c1 := Config(["input1.jpg", "input2.jpg"], 0, 0, false, 0, 0);
    FindAllFlagsMulti();
    NoErrorAdded([]);
    assert NextFlag(fp, 1, 5) == 3;
    assert Span(args, fp, 0) == ["input1.jpg", "input2.jpg"];
    StepInputFiles(ZeroConfig, ["input1.jpg", "input2.jpg"], folders);
    assert ZeroConfig.InputFiles + ["input1.jpg", "input2.jpg"] == c1.InputFiles;
    BuildAtFlag(args, fp, folders, 0, ZeroConfig, []);
    assert NextFlag(fp, 4, 5) == 5;
    assert Span(args, fp, 3) == ["25*25"];
    Dims25By25();
    StepGoodGrid(c1, "25*25", folders, 25, 25);
    BuildAtFlag(args, fp, folders, 3, c1, []);
  }

  /**
    An input flag with nothing after it is no error; the grid flag's bad
    string is the only one, and nothing changes.
   */
  lemma MakeConfigInvalidArgs(folders: Folders)
    ensures var args := ["-i", "-g", "25i25"];
            var r := MakeConfig(args, FindAllFlags(args), folders);
            && r.0 == ZeroConfig
            && |r.1| == 1
            && Message(r.1[0]) == "wrong grid format"
  {
    var args := ["-i", "-g", "25i25"];
    var fp := map[0 := "-i", 1 := "-g"];
    FlagsOfInvalidArgs();
    NoErrorAdded([]);
    assert NextFlag(fp, 1, 3) == 1;
    assert Span(args, fp, 0) == [];
    StepInputFiles(ZeroConfig, [], folders);
    assert ZeroConfig.InputFiles + [] == ZeroConfig.InputFiles;
    BuildAtFlag(args, fp, folders, 0, ZeroConfig, []);
    assert NextFlag(fp, 2, 3) == 3;
    assert Span(args, fp, 1) == ["25i25"];
    Dims25i25();
    StepBadGrid(ZeroConfig, "25i25", folders);
    BuildAtFlag(args, fp, folders, 1, ZeroConfig, []);
  }

  lemma MakeConfigGridAndReso(folders: Folders)
    ensures var args := ["-i", "input1.jpg", "-g", "8x8", "-r", "1024*768"];
            MakeConfig(args, FindAllFlags(args), folders)
            == (Config(["input1.jpg"], 8, 8, true, 1024, 768), [])
  {
    var args := ["-i", "input1.jpg", "-g", "8x8", "-r", "1024*768"];
    var fp := map[0 := "-i", 2 := "-g", 4 := "-r"];
    var c1 := Config(["input1.jpg"], 0, 0, false, 0, 0);
    FlagsOfGridAndReso();
    NoErrorAdded([]);
    assert NextFlag(fp, 1, 6) == 2;
    assert Span(args, fp, 0) == ["input1.jpg"];
    StepInputFiles(ZeroConfig, ["input1.jpg"], folders);
    assert ZeroConfig.InputFiles + ["input1.jpg"] == c1.InputFiles;
    BuildAtFlag(args, fp, folders, 0, ZeroConfig, []);
    GridAndResoFromGrid(folders);
  }

  /** The grid and resolution flags of MakeConfigGridAndReso, after its input flag. */
  lemma GridAndResoFromGrid(folders: Folders)
    ensures var args := ["-i", "input1.jpg", "-g", "8x8", "-r", "1024*768"];
            var fp := map[0 := "-i", 2 := "-g", 4 := "-r"];
            Build(args, fp, folders, 2, Config(["input1.jpg"], 0, 0, false, 0, 0), [])
            == (Config(["input1.jpg"], 8, 8, true, 1024, 768), [])
  {
    var args := ["-i", "input1.jpg", "-g", "8x8", "-r", "1024*768"];
    var fp := map[0 := "-i", 2 := "-g", 4 := "-r"];
    var c1 := Config(["input1.jpg"], 0, 0, false, 0, 0);
    var c2 := Config(["input1.jpg"], 8, 8, true, 0, 0);
    NoErrorAdded([]);
    assert NextFlag(fp, 3, 6) == 4;
    assert Span(args, fp, 2) == ["8x8"];
    Dims8By8();
    StepGoodGrid(c1, "8x8", folders, 8, 8);
    BuildAtFlag(args, fp, folders, 2, c1, []);
    assert NextFlag(fp, 5, 6) == 6;
    assert Span(args, fp, 4) == ["1024*768"];
    Dims1024By768();
    StepGoodResolution(c2, "1024*768", folders, 1024, 768);
    BuildAtFlag(args, fp, folders, 4, c2, []);
  }

  /** A readable folder with four entries brings in exactly those four files. */
  lemma MakeConfigInputsFromFolder(folders: Folders)
    requires "../fsmall" in folders && |folders["../fsmall"]| == 4
    ensures var args := ["-f", "../fsmall", "-g", "10x10"];
            var r := MakeConfig(args, FindAllFlags(args), folders);
            && r.0 == Config(folders["../fsmall"], 10, 10, true, 0, 0)
            && |r.0.InputFiles| == 4
            && r.1 == []
  {
    var args := ["-f", "../fsmall", "-g", "10x10"];
    var fp := map[0 := "-f", 2 := "-g"];
    var c1 := Config(folders["../fsmall"], 0, 0, false, 0, 0);
    FlagsOfInputsFromFolder();
    NoErrorAdded([]);
    assert NextFlag(fp, 1, 4) == 2;
    assert Span(args, fp, 0) == ["../fsmall"];
    StepInputFolder(ZeroConfig, "../fsmall", folders);
    assert ZeroConfig.InputFiles + folders["../fsmall"] == c1.InputFiles;
    BuildAtFlag(args, fp, folders, 0, ZeroConfig, []);
    assert NextFlag(fp, 3, 4) == 4;
    assert Span(args, fp, 2) == ["10x10"];
    Dims10By10();
    StepGoodGrid(c1, "10x10", folders, 10, 10);
    BuildAtFlag(args, fp, folders, 2, c1, []);
  }
}
