/**
  Flag discovery: which tokens of the command line are recognised flags,
  and which tokens belong to each of them.
 */
module Flags {

  import opened Options

  /** The four options of the command line. */
  datatype FlagKind = InputFiles | InputFolder | Grid | Resolution

  /** The exact, case-sensitive token that introduces each option. */
  function FlagToken(k: FlagKind): string {
    match k
    case InputFiles => "-i"
    case InputFolder => "-f"
    case Grid => "-g"
    case Resolution => "-r"
  }

  /** Which option a token introduces, if any. */
  function KindOf(t: string): (r: Option<FlagKind>)
    ensures r.Some? ==> FlagToken(r.value) == t
    ensures r.None? ==> forall k :: FlagToken(k) != t
  {
    if |t| != 2 || t[0] != '-' then None
    else if t[1] == 'i' then Some(InputFiles)
    else if t[1] == 'f' then Some(InputFolder)
    else if t[1] == 'g' then Some(Grid)
    else if t[1] == 'r' then Some(Resolution)
    else None
  }

  /** Every option token is recognised as that option. */
  lemma KindOfFlagToken(k: FlagKind)
    ensures KindOf(FlagToken(k)) == Some(k)
  {
  }

  predicate IsFlag(t: string) {
    KindOf(t).Some?
  }

  /** The flags among the first n tokens, keyed by their index. */
  function FlagsBefore(args: seq<string>, n: nat): (r: map<int, string>)
    requires n <= |args|
    ensures forall i :: i in r <==> 0 <= i < n && IsFlag(args[i])
    ensures forall i :: i in r ==> r[i] == args[i]
  {
    if n == 0 then map[]
    else if IsFlag(args[n - 1]) then FlagsBefore(args, n - 1)[n - 1 := args[n - 1]]
    else FlagsBefore(args, n - 1)
  }

  /**
    Maps the index of every recognised flag token to that token.  Values of
    flags and unrecognised tokens are not keys; nothing is ever an error.
   */
  function FindAllFlags(args: seq<string>): (r: map<int, string>)
    ensures forall i :: i in r <==> 0 <= i < |args| && IsFlag(args[i])
    ensures forall i :: i in r ==> r[i] == args[i]
  {
    FlagsBefore(args, |args|)
  }

  /** The first key of flagsPos in [from, n), or n when there is none. */
  function NextFlag(flagsPos: map<int, string>, from: nat, n: nat): (j: nat)
    requires from <= n
    ensures from <= j <= n
    ensures j == n || j in flagsPos
    ensures forall k :: from <= k < j ==> k !in flagsPos
    decreases n - from
  {
    if from == n || from in flagsPos then from else NextFlag(flagsPos, from + 1, n)
  }

  /**
    The arguments of the flag at index p: the tokens strictly between p and
    the next flag, or the end of the list.
   */
  function Span(args: seq<string>, flagsPos: map<int, string>, p: nat): (r: seq<string>)
    requires p < |args|
    ensures p + 1 + |r| <= |args|
  {
    args[p + 1..NextFlag(flagsPos, p + 1, |args|)]
  }

  /**
    The span of p is the longest run of tokens after p that holds no flag
    position: it is flag-free and stops at a flag position or at the end.
   */
  lemma SpanIsFlagFreeRun(args: seq<string>, flagsPos: map<int, string>, p: nat)
    requires p < |args|
    ensures var r := Span(args, flagsPos, p);
            && r == args[p + 1..p + 1 + |r|]
            && (forall k :: p + 1 <= k < p + 1 + |r| ==> k !in flagsPos)
            && (p + 1 + |r| == |args| || p + 1 + |r| in flagsPos)
  {
  }

  /**
    Over the flags FindAllFlags reports, a span holds no flag token, and it
    stops just before a flag token or at the end of the list.
   */
  lemma SpanOfFoundFlags(args: seq<string>, p: nat)
    requires p < |args|
    ensures forall t :: t in Span(args, FindAllFlags(args), p) ==> !IsFlag(t)
    ensures var n := p + 1 + |Span(args, FindAllFlags(args), p)|;
            n == |args| || IsFlag(args[n])
  {
    var sp := Span(args, FindAllFlags(args), p);
    SpanIsFlagFreeRun(args, FindAllFlags(args), p);
    forall t | t in sp ensures !IsFlag(t) {
      var k :| 0 <= k < |sp| && sp[k] == t;
      assert t == args[p + 1 + k];
    }
  }
}
