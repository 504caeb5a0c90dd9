/**
  Dimension strings such as "25*25", "8x8" or "1024*768": two decimal
  numbers joined by one separator, either 'x' or '*'.  The grid flag reads
  rows and columns from one, the resolution flag width and height.
 */
module Dims {
  import opened Options
  import opened Decimal

  predicate IsSeparator(c: char) {
    c == 'x' || c == '*'
  }

  /** s splits at position k into "<digits><separator><digits>". */
  predicate SplitsAt(s: string, k: int) {
    0 <= k < |s| && IsSeparator(s[k]) && IsDigits(s[..k]) && IsDigits(s[k + 1..])
  }

  /** The index of the first separator at or after i, or |s| when there is none. */
  function FirstSeparator(s: string, i: nat): (k: nat)
    requires i <= |s|
    ensures i <= k <= |s|
    decreases |s| - i
  {
    if i == |s| || IsSeparator(s[i]) then i else FirstSeparator(s, i + 1)
  }

  /** FirstSeparator stops at a separator, or at the end, and skips none. */
  lemma {:induction false} FirstSeparatorIsFirst(s: string, i: nat)
    requires i <= |s|
    ensures var k := FirstSeparator(s, i);
            && (k < |s| ==> IsSeparator(s[k]))
            && (forall j :: i <= j < k ==> !IsSeparator(s[j]))
    decreases |s| - i
  {
    if i < |s| && !IsSeparator(s[i]) {
      FirstSeparatorIsFirst(s, i + 1);
    }
  }

  /** Reads "RxC" or "R*C" as the pair (R, C); anything else is None. */
  function ParseDims(s: string): Option<(nat, nat)> {
    var k := FirstSeparator(s, 0);
    if k == |s| then None
    else
      match (ParseNat(s[..k]), ParseNat(s[k + 1..]))
      case (Some(a), Some(b)) => Some((a, b))
      case _ => None
  }

  /**
    ParseDims accepts exactly the strings that split into two digit strings
    around one separator, and then returns the two numbers they spell.
   */
  lemma ParseDimsSplits(s: string)
    ensures ParseDims(s).Some? <==> exists k :: SplitsAt(s, k)
    ensures forall k :: SplitsAt(s, k) ==>
              ParseDims(s) == Some((ParseNat(s[..k]).value, ParseNat(s[k + 1..]).value))
  {
    var k := FirstSeparator(s, 0);
    FirstSeparatorIsFirst(s, 0);
    if k == |s| {
      NoSplitWithoutSeparator(s);
    } else {
      SplitIsFirstSeparator(s, k);
      if ParseDims(s).Some? {
        assert SplitsAt(s, k);
      }
    }
  }

  /** Only a separator can be the split point. */
  lemma NoSplitWithoutSeparator(s: string)
    requires forall j :: 0 <= j < |s| ==> !IsSeparator(s[j])
    ensures forall k :: !SplitsAt(s, k)
  {
  }

  /** A split point is the first separator of the string, since digits are not separators. */
  lemma SplitIsFirstSeparator(s: string, k: nat)
    requires k < |s| && IsSeparator(s[k])
    requires forall j :: 0 <= j < k ==> !IsSeparator(s[j])
    ensures forall m :: SplitsAt(s, m) ==> m == k
  {
  }

  /** ParseDims reads back the dimensions written with either separator. */
  lemma ParseShowDims(a: nat, b: nat, sep: char)
    requires IsSeparator(sep)
    ensures ParseDims(ShowNat(a) + [sep] + ShowNat(b)) == Some((a, b))
  {
    var s := ShowNat(a) + [sep] + ShowNat(b);
    var k := |ShowNat(a)|;
    assert s[..k] == ShowNat(a);
    assert s[k + 1..] == ShowNat(b);
    ParseShowNat(a);
    ParseShowNat(b);
    assert SplitsAt(s, k);
    ParseDimsSplits(s);
  }

  /** A string with no 'x' and no '*' is never a dimension string. */
  lemma NoSeparatorRejected(s: string)
    requires forall j :: 0 <= j < |s| ==> !IsSeparator(s[j])
    ensures ParseDims(s) == None
  {
    NoSplitWithoutSeparator(s);
    ParseDimsSplits(s);
  }
}
