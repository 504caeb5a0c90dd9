# Command-line parser of the image-grid tool, in Dafny

The image-grid tool reads its command line in two pure stages.

1. `FindAllFlags` scans the token list. It maps the index of every
   recognised flag token (`-i` input files, `-f` input folder, `-g` grid,
   `-r` output resolution) to that token.
2. `MakeConfig` walks those flags in ascending index order. The *span* of a
   flag is the tokens strictly between it and the next flag, or the end of
   the list. Each flag's span is handled as follows:
   - `-i` appends every span token to `InputFiles`.
   - `-f` appends the listing of the one folder named in its span.
   - `-g` reads a dimension string `RxC` or `R*C` into `GridRows`/`GridCols`
     and sets `gridSet`.
   - `-r` reads `WxH` or `W*H` into `OutputWidth`/`OutputHeight`.

   A flag with a bad span leaves the record unchanged and adds one error.
   Processing goes on with the next flag.

Modules:

- `Decimal` (decimal.dfy): reading and writing decimal digit strings.
- `Dims` (dims.dfy): dimension strings.
- `Flags` (flags.dfy): flag tokens, `FindAllFlags`, and the span of a flag.
- `Parser` (parser.dfy): the configuration record, the error kinds, one flag's
  step, and `MakeConfig` as a fold over the flags.
- `ParserProperties` (parser_props.dfy): a reference definition of what
  `MakeConfig` yields, and the lemmas that connect the fold to it. The
  reference is stated token by token instead of flag by flag:
  - `FilesFrom`: every token whose closest flag before it is `-i`, and every
    `-f` listing, in token order.
  - `ErrorsFrom`: one error for each flag whose single argument is bad, in
    token order.
- `ParserTests` (parser_tests.dfy): the command lines of the unit tests, with
  their expected results proved.
- `Options` and `Seqs`: an option type and two facts about sequences.

Folder listing is the only input/output. It is modelled as a parameter
`folders: map<string, seq<string>>`: the folders that can be read, each with
the file names it lists, in listing order.

## Model

| member | source | states |
|---|---|---|
| `Flags.KindOf` | cmd/parser_test.go:25-41 | a token names an option exactly when it is that option's token (`-i`, `-f`, `-g`, `-r`), case-sensitively; anything else names none |
| `Flags.KindOfFlagToken` | cmd/parser_test.go:25-41 | every option token is recognised as its own option |
| `Flags.FindAllFlags` | cmd/parser_test.go:16-41 | the keys are exactly the indices of flag tokens, and each value is the token at that index |
| `Flags.NextFlag` | cmd/parser_test.go:66-81 | the first flag position at or after a start index, or the end; no flag lies before it |
| `Flags.Span` | cmd/parser_test.go:53-81 | a flag's span lies inside the token list, after the flag |
| `Flags.SpanIsFlagFreeRun` | cmd/parser_test.go:66-81 | the span is the longest flag-free run after the flag: it holds no flag position and ends at a flag or at the end of the list |
| `Flags.SpanOfFoundFlags` | cmd/parser_test.go:66-81 | over the flags `FindAllFlags` finds, no span token is a flag token, and a span ends just before a flag token or at the end |
| `Decimal.ParseNat` | cmd/parser_test.go:66-81 | a string reads as a number exactly when it is a non-empty run of decimal digits |
| `Decimal.ShowNat` | cmd/parser_test.go:96-113 | the decimal spelling of a number is a non-empty digit string with no leading zero, and it starts with `0` only for 0 |
| `Decimal.ParseShowNat` | cmd/parser_test.go:96-113 | reading back a number's decimal spelling gives the number |
| `Decimal.ShowParseNat` | cmd/parser_test.go:96-113 | a digit string with no leading zero is the spelling of the number it reads as, so with `ParseLeadingZero` the value of every digit string is fixed |
| `Decimal.ParseLeadingZero` | cmd/parser_test.go:96-113 | a leading zero does not change the value read |
| `Dims.FirstSeparatorIsFirst` | cmd/parser_test.go:96-113 | the separator search stops at the first `x` or `*`, or at the end |
| `Dims.ParseDims` | cmd/parser_test.go:83-113 | the dimension-string reader; no contract of its own, its meaning is stated by `Dims.ParseDimsSplits` and `Dims.ParseShowDims` |
| `Dims.ParseDimsSplits` | cmd/parser_test.go:83-113 | a dimension string is accepted exactly when it splits into two digit strings around one `x` or `*`, and then it yields the two numbers they spell |
| `Dims.NoSplitWithoutSeparator` | cmd/parser_test.go:83-94 | a string without `x` or `*` has no split point |
| `Dims.SplitIsFirstSeparator` | cmd/parser_test.go:96-113 | a split point is the first separator of the string |
| `Dims.ParseShowDims` | cmd/parser_test.go:96-113 | two numbers written with either separator read back as themselves, so both `8x8` and `1024*768` forms work |
| `Dims.NoSeparatorRejected` | cmd/parser_test.go:83-94 | a string with no `x` and no `*`, such as `25i25`, is rejected |
| `Parser.CheckFlag` | cmd/parser_test.go:83-94 | a flag reports no error exactly when its span is acceptable; the grid error reads "wrong grid format" and the resolution error reads "wrong resolution format" |
| `Parser.ApplyFlag` | cmd/parser_test.go:53-124 | one option with its span: the error is `CheckFlag`'s; on error the record is unchanged; otherwise only that option's fields change, in the way it defines |
| `Parser.FlagError` | cmd/parser_test.go:83-94 | the error one flag reports; no contract of its own, it is `CheckFlag`'s error for an option and none otherwise, and `ParserProperties.FlagErrorIsExpected` ties it to the token-by-token reference |
| `Parser.Step` | cmd/parser_test.go:43-124 | the error of one flag is `FlagError`'s, and a token that is no option changes nothing |
| `Parser.Build` | cmd/parser_test.go:43-124 | the fold that is `MakeConfig`'s loop; no contract of its own, its meaning is stated by `ParserProperties.BuildFiles`, `ParserProperties.BuildErrors` and `ParserProperties.BuildUniqueGrid` |
| `Parser.MakeConfig` | cmd/parser_test.go:43-124 | in the record returned, an unset grid is 0 by 0 |
| `Parser.BuildKeepsGridUnsetIsZero` | cmd/parser_test.go:83-94 | the fold keeps "grid unset implies 0 by 0", and it only appends to the errors gathered so far |
| `ParserProperties.PrevFlag` | cmd/parser_test.go:66-81 | the flag a token belongs to is a flag position before it |
| `ParserProperties.PrevFlagIsClosest` | cmd/parser_test.go:66-81 | no flag lies between a token and the flag it belongs to, and a token before every flag belongs to none |
| `ParserProperties.PrevFlagAfter` | cmd/parser_test.go:66-81 | every token in a flag's span belongs to that flag |
| `ParserProperties.SingleArgOfSpan` | cmd/parser_test.go:83-124 | a span has exactly one token when the flag's single-argument reading finds one, and it is that token |
| `ParserProperties.FlagErrorIsExpected` | cmd/parser_test.go:83-94 | the error a flag reports for its span is the one the token-by-token reference expects |
| `ParserProperties.SpanTokenFiles` | cmd/parser_test.go:66-81 | a token inside a flag's span is an input file exactly when the flag is `-i` |
| `ParserProperties.SpanFilesOfInputs` | cmd/parser_test.go:66-81 | inside an `-i` span every token is an input file, in order |
| `ParserProperties.SpanFilesOfOthers` | cmd/parser_test.go:96-113 | inside the span of any other flag no token is an input file |
| `ParserProperties.StepFiles` | cmd/parser_test.go:53-81 | what one flag adds to the input files: its folder listing, then its span if it is `-i` |
| `ParserProperties.StepGrid` | cmd/parser_test.go:66-113 | one flag changes the grid only when it is an accepted grid flag, and then to the dimensions read |
| `ParserProperties.StepResolution` | cmd/parser_test.go:96-113 | one flag changes the output size only when it is an accepted resolution flag, and then to the dimensions read |
| `ParserProperties.FlagFiles` | cmd/parser_test.go:66-81 | the files from a flag on are what its step adds, then the files from the next flag on |
| `ParserProperties.FlagErrors` | cmd/parser_test.go:83-94 | the errors from a flag on are that flag's own error, then those from the next flag on |
| `ParserProperties.BuildAtFlag` | cmd/parser_test.go:66-113 | at a flag, the fold handles its span and continues at the next flag |
| `ParserProperties.BuildOffFlag` | cmd/parser_test.go:43-51 | away from a flag, the fold moves one token on and changes nothing |
| `ParserProperties.FilesFromOffFlag` | cmd/parser_test.go:43-51 | a token before the first flag brings in no file |
| `ParserProperties.BuildFiles` | cmd/parser_test.go:53-81 | from any starting record, the fold's files are the starting files followed by the reference files from that index on |
| `ParserProperties.BuildFilesAtFlag` | cmd/parser_test.go:66-81 | the `BuildFiles` claim at a flag |
| `ParserProperties.BuildFilesOffFlag` | cmd/parser_test.go:43-51 | the `BuildFiles` claim before the first flag |
| `ParserProperties.BuildErrors` | cmd/parser_test.go:83-94 | the fold's errors are the errors so far followed by the reference errors from that index on |
| `ParserProperties.BuildWithoutGrid` | cmd/parser_test.go:53-64 | with no grid flag ahead, the fold leaves the grid fields unchanged |
| `ParserProperties.BuildWithoutResolution` | cmd/parser_test.go:66-81 | with no resolution flag ahead, the fold leaves the output size unchanged |
| `ParserProperties.BuildUniqueGrid` | cmd/parser_test.go:66-113 | with one grid flag ahead, the grid comes from its span when that is accepted and is unchanged otherwise |
| `ParserProperties.BuildUniqueResolution` | cmd/parser_test.go:96-113 | with one resolution flag ahead, the output size comes from its span when that is accepted and is unchanged otherwise |
| `ParserProperties.BuildNoFlags` | cmd/parser_test.go:43-51 | with no flags the fold returns its starting record and errors |
| `ParserProperties.InputFilesInTokenOrder` | cmd/parser_test.go:53-81 | `InputFiles` is, in token order, every token whose closest flag is `-i` and every listing of a `-f` with one readable argument |
| `ParserProperties.ErrorsInTokenOrder` | cmd/parser_test.go:83-94 | the errors are one per flag with a bad argument, in the order the flags appear |
| `ParserProperties.ErrorsAtEmpty` | cmd/parser_test.go:83-94 | a token reports no error exactly when it is not a flag or its argument is good |
| `ParserProperties.ErrorsFromEmpty` | cmd/parser_test.go:83-94 | no error from an index on exactly when every flag from there on has a good argument |
| `ParserProperties.NoErrorsIffAllAccepted` | cmd/parser_test.go:96-124 | `MakeConfig` reports no error exactly when every flag's argument is good |
| `ParserProperties.GridUnsetWithoutGridFlag` | cmd/parser_test.go:53-64 | without a grid flag the grid is unset and 0 by 0 |
| `ParserProperties.GridFromGridFlag` | cmd/parser_test.go:66-94 | with one grid flag, the grid is the dimensions of its single argument when those read; otherwise it is unset and 0 by 0, whatever the other flags do |
| `ParserProperties.ResolutionUnsetWithoutFlag` | cmd/parser_test.go:66-81 | without a resolution flag the output size is 0 by 0 |
| `ParserProperties.ResolutionFromResolutionFlag` | cmd/parser_test.go:96-113 | with one resolution flag, the output size is the dimensions of its single argument when those read, otherwise 0 by 0 |
| `ParserProperties.NoFlagsGiveZeroConfig` | cmd/parser_test.go:43-51 | with no flags, whatever the tokens, the result is the zero record and no error |
| `ParserTests.FindAllFlagsEmptyArgs` | cmd/parser_test.go:16-23 | no tokens give the empty flag map |
| `ParserTests.FindAllFlagsInputOnly` | cmd/parser_test.go:25-32 | `-i input.jpg` gives exactly `{0: "-i"}` |
| `ParserTests.FindAllFlagsMulti` | cmd/parser_test.go:34-41 | `-i input1.jpg input2.jpg -g 25*25` gives exactly `{0: "-i", 3: "-g"}` |
| `ParserTests.Dims25By25` | cmd/parser_test.go:66-81 | `25*25` reads as 25 by 25 |
| `ParserTests.Dims8By8` | cmd/parser_test.go:96-113 | `8x8` reads as 8 by 8 |
| `ParserTests.Dims1024By768` | cmd/parser_test.go:96-113 | `1024*768` reads as 1024 by 768 |
| `ParserTests.Dims10By10` | cmd/parser_test.go:115-124 | `10x10` reads as 10 by 10 |
| `ParserTests.Dims25i25` | cmd/parser_test.go:83-94 | `25i25` is not a dimension string |
| `ParserTests.MakeConfigEmpty` | cmd/parser_test.go:43-51 | no tokens give the zero record and no error |
| `ParserTests.MakeConfigSingleInput` | cmd/parser_test.go:53-64 | `-i input.jpg` gives just that input file and no error |
| `ParserTests.MakeConfigMultiInput` | cmd/parser_test.go:66-81 | two input files, then a 25 by 25 grid, with no error |
| `ParserTests.MakeConfigInvalidArgs` | cmd/parser_test.go:83-94 | `-i -g 25i25` gives the zero record and exactly one error, "wrong grid format" |
| `ParserTests.MakeConfigGridAndReso` | cmd/parser_test.go:96-113 | one input file, an 8 by 8 grid and a 1024 by 768 output, with no error |
| `ParserTests.MakeConfigInputsFromFolder` | cmd/parser_test.go:115-124 | a readable folder listing four files, then a valid grid: those four files, in listing order, the grid set, and no error |

## Left out

- The model follows the behaviour the unit tests in cmd/parser_test.go assert. Where they say nothing, it makes these choices: flags are scanned in ascending index order, and a flag with a bad argument adds one error and processing goes on; `-i` accepts any span, even an empty one; `-g` and `-r` need exactly one token, and `-f` exactly one folder that can be read; the first `x` or `*` is the separator of a dimension string.
- Reading a folder is input/output. It is the `folders` parameter; the model does not say how a folder path and a file name are joined into one path.
- Errors are the tags of `Parser.ParseError`. `Parser.Message` gives only the phrase that identifies each kind, not the full text of the error.
- `Decimal.ParseNat`: Go's integer parsing also accepts a sign, and it fails on numbers too large for a machine word. The model reads unbounded natural numbers from plain digit strings.
- `Dims.ParseDimsSplits`: zero is accepted on either side of the separator. No test pins a lower bound, so none is modelled.
- A flag given more than once: the fold does what it does (input flags accumulate; a later accepted grid or resolution replaces an earlier one). No lemma states this, since no test pins it down.
- Everything after the configuration (image decoding, grid rendering, output writing) and the assertion library of the tests.
