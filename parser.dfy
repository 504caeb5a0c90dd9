/**
  The configuration builder: walks the flags of the command line in
  ascending index order, reads each flag's span and fills in the
  configuration record, collecting one error per flag whose arguments are
  bad instead of stopping at the first one.
 */
module Parser {
  import opened Options
  import opened Dims
  import opened Flags

  /**
    The parse result.  gridSet tells "no grid flag" apart from a grid flag
    whose dimensions happen to be zero; OutputWidth and OutputHeight are zero
    when no resolution was given.
   */
  datatype Config = Config(
    InputFiles: seq<string>,
    GridRows: nat,
    GridCols: nat,
    gridSet: bool,
    OutputWidth: nat,
    OutputHeight: nat)

  /** The record before any flag has been handled. */
  const ZeroConfig: Config := Config([], 0, 0, false, 0, 0)

  /** The kinds of bad argument, one per error the parse reports. */
  datatype ParseError =
    | WrongGridFormat
    | WrongResolutionFormat
    | WrongFolderArgs
    | UnreadableFolder

  /** The text that identifies what kind of argument failed. */
  function Message(e: ParseError): string {
    match e
    case WrongGridFormat => "wrong grid format"
    case WrongResolutionFormat => "wrong resolution format"
    case WrongFolderArgs => "wrong folder arguments"
    case UnreadableFolder => "cannot read folder"
  }

  /**
    The folders that can be read, each with the names of the files it
    lists, in listing order.  A folder that is missing or unreadable is
    not a key.
   */
  type Folders = map<string, seq<string>>

  /** Whether an option accepts the arguments found in its span. */
  predicate Accepts(kind: FlagKind, span: seq<string>, folders: Folders) {
    match kind
    case InputFiles => true
    case InputFolder => |span| == 1 && span[0] in folders
    case Grid => |span| == 1 && ParseDims(span[0]).Some?
    case Resolution => |span| == 1 && ParseDims(span[0]).Some?
  }

  /** The error an option reports for its span, if any. */
  function CheckFlag(kind: FlagKind, span: seq<string>, folders: Folders): (e: Option<ParseError>)
    ensures e.None? <==> Accepts(kind, span, folders)
    ensures e.Some? && kind == Grid ==> Message(e.value) == "wrong grid format"
    ensures e.Some? && kind == Resolution ==> Message(e.value) == "wrong resolution format"
  {
    match kind
    case InputFiles => None
    case InputFolder =>
      if |span| != 1 then Some(WrongFolderArgs)
      else if span[0] !in folders then Some(UnreadableFolder)
      else None
    case Grid =>
      if |span| == 1 && ParseDims(span[0]).Some? then None else Some(WrongGridFormat)
    case Resolution =>
      if |span| == 1 && ParseDims(span[0]).Some? then None else Some(WrongResolutionFormat)
  }

  /**
    Handles one option with its span.  A rejected span leaves the record as
    it was; an accepted one changes only the fields that option owns.
   */
  function ApplyFlag(c: Config, kind: FlagKind, span: seq<string>, folders: Folders): (r: (Config, Option<ParseError>))
    ensures r.1 == CheckFlag(kind, span, folders)
    ensures r.1.Some? ==> r.0 == c
    ensures kind == InputFiles ==> r.0 == c.(InputFiles := c.InputFiles + span)
    ensures kind == InputFolder && r.1.None? ==>
              r.0 == c.(InputFiles := c.InputFiles + folders[span[0]])
    ensures kind == Grid && r.1.None? ==>
              r.0 == c.(GridRows := ParseDims(span[0]).value.0,
                        GridCols := ParseDims(span[0]).value.1,
                        gridSet := true)
    ensures kind == Resolution && r.1.None? ==>
              r.0 == c.(OutputWidth := ParseDims(span[0]).value.0,
                        OutputHeight := ParseDims(span[0]).value.1)
  {
    var e := CheckFlag(kind, span, folders);
    if e.Some? then (c, e)
    else
      match kind
      case InputFiles => (c.(InputFiles := c.InputFiles + span), None)
      case InputFolder => (c.(InputFiles := c.InputFiles + folders[span[0]]), None)
      case Grid =>
        var d := ParseDims(span[0]).value;
        (c.(GridRows := d.0, GridCols := d.1, gridSet := true), None)
      case Resolution =>
        var d := ParseDims(span[0]).value;
        (c.(OutputWidth := d.0, OutputHeight := d.1), None)
  }

  /** The error reported by the flag token flag for its span; unknown names report none. */
  function FlagError(flag: string, span: seq<string>, folders: Folders): Option<ParseError> {
    match KindOf(flag)
    case None => None
    case Some(kind) => CheckFlag(kind, span, folders)
  }

  /**
    The record and the error after handling the flag token flag with its
    span; a name that is not an option changes nothing.
   */
  function Step(c: Config, flag: string, span: seq<string>, folders: Folders): (r: (Config, Option<ParseError>))
    ensures r.1 == FlagError(flag, span, folders)
    ensures !IsFlag(flag) ==> r.0 == c
  {
    match KindOf(flag)
    case None => (c, None)
    case Some(kind) => ApplyFlag(c, kind, span, folders)
  }

  /** The presence flag and the grid fields agree: an unset grid is 0 by 0. */
  predicate GridUnsetIsZero(c: Config) {
    !c.gridSet ==> c.GridRows == 0 && c.GridCols == 0
  }

  /**
    The fold behind MakeConfig, from token index i on, with the record and
    the errors gathered so far.  At a flag it handles the span and goes on at
    the next flag; tokens before the first flag are skipped one by one.
   */
  function Build(args: seq<string>, flagsPos: map<int, string>, folders: Folders,
                 i: nat, c: Config, errs: seq<ParseError>): (Config, seq<ParseError>)
    requires i <= |args|
    decreases |args| - i
  {
    if i == |args| then (c, errs)
    else if i in flagsPos then
      var step := Step(c, flagsPos[i], Span(args, flagsPos, i), folders);
      Build(args, flagsPos, folders, NextFlag(flagsPos, i + 1, |args|), step.0, errs + step.1.ToSeq())
    else Build(args, flagsPos, folders, i + 1, c, errs)
  }

  /**
    Builds the configuration from the tokens and their flag positions.
    Keys of flagsPos outside the token list and unknown flag names are ignored.
   */
  function MakeConfig(args: seq<string>, flagsPos: map<int, string>, folders: Folders): (r: (Config, seq<ParseError>))
    ensures GridUnsetIsZero(r.0)
  {
    BuildKeepsGridUnsetIsZero(args, flagsPos, folders, 0, ZeroConfig, []);
    Build(args, flagsPos, folders, 0, ZeroConfig, [])
  }

  /**
    The fold keeps an unset grid at 0 by 0, and it only ever appends to the
    errors gathered so far.
   */
  lemma {:induction false} BuildKeepsGridUnsetIsZero(args: seq<string>, flagsPos: map<int, string>, folders: Folders,
                                                     i: nat, c: Config, errs: seq<ParseError>)
    requires i <= |args| && GridUnsetIsZero(c)
    ensures GridUnsetIsZero(Build(args, flagsPos, folders, i, c, errs).0)
    ensures errs <= Build(args, flagsPos, folders, i, c, errs).1
    decreases |args| - i
  {
    if i < |args| {
      if i in flagsPos {
        var step := Step(c, flagsPos[i], Span(args, flagsPos, i), folders);
        BuildKeepsGridUnsetIsZero(args, flagsPos, folders, NextFlag(flagsPos, i + 1, |args|),
                                  step.0, errs + step.1.ToSeq());
      } else {
        BuildKeepsGridUnsetIsZero(args, flagsPos, folders, i + 1, c, errs);
      }
    }
  }
}
