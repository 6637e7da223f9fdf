/**
 * The region parser of lambda/index.py: `re.search(r"arn:aws:lambda:([^:]+):", arn)`,
 * returning the captured group of the leftmost match, or "us-east-1" when nothing matches.
 */
module Arn {
  import opened Wrappers

  const Prefix: string := "arn:aws:lambda:"
  const DefaultRegion: string := "us-east-1"

  /** The pattern matches `s` starting at `i`, with its closing colon at `j`:
      the literal prefix, then one or more non-colon characters, then ':'. */
  ghost predicate IsMatch(s: string, i: int, j: int) {
    && 0 <= i
    && i + |Prefix| < j < |s|
    && s[i..i + |Prefix|] == Prefix
    && s[j] == ':'
    && forall k :: i + |Prefix| <= k < j ==> s[k] != ':'
  }

  /** Some match of the pattern starts at `i`. */
  ghost predicate MatchesAt(s: string, i: int) {
    exists j :: IsMatch(s, i, j)
  }

  /** A match starting at `i` has only one possible closing colon. */
  lemma MatchEndUnique(s: string, i: int, j1: int, j2: int)
    requires IsMatch(s, i, j1) && IsMatch(s, i, j2)
    ensures j1 == j2
  {
  }

  /** The first ':' in `s` at or after `from`. */
  function NextColon(s: string, from: nat): (r: Option<nat>)
    decreases |s| - from
    ensures r.Some? ==> from <= r.value < |s| && s[r.value] == ':'
    ensures r.Some? ==> forall k :: from <= k < r.value ==> s[k] != ':'
    ensures r.None? ==> forall k :: from <= k < |s| ==> s[k] != ':'
  {
    if from >= |s| then None
    else if s[from] == ':' then Some(from)
    else NextColon(s, from + 1)
  }

  /** The closing colon of the match starting at `i`, if the pattern matches there.
      Greedy `[^:]+` runs up to the first colon after the prefix; backtracking cannot
      help, so the match at `i` exists exactly when that colon exists and is not
      immediately after the prefix. */
  function MatchAt(s: string, i: nat): (r: Option<nat>)
    ensures r.Some? ==> IsMatch(s, i, r.value)
    ensures r.None? ==> !MatchesAt(s, i)
  {
    if i + |Prefix| <= |s| && s[i..i + |Prefix|] == Prefix then
      match NextColon(s, i + |Prefix|)
      case Some(j) =>
        if j > i + |Prefix| then Some(j) else None
      case None => None
    else None
  }

  /** `re.search` from position `from`: the leftmost start at or after `from` where the
      pattern matches, with that match's closing colon. */
  function Search(s: string, from: nat): (r: Option<(nat, nat)>)
    decreases |s| - from
    ensures r.Some? ==> from <= r.value.0 && IsMatch(s, r.value.0, r.value.1)
    ensures r.Some? ==> forall k :: from <= k < r.value.0 ==> !MatchesAt(s, k)
    ensures r.None? ==> forall k :: from <= k ==> !MatchesAt(s, k)
  {
    if from >= |s| then None
    else
      match MatchAt(s, from)
      case Some(j) => Some((from, j))
      case None => Search(s, from + 1)
  }

  /** `extract_region_from_arn`: the captured group of the leftmost match, else the default.
      Whatever the input, the region is non-empty and holds no colon. */
  function ExtractRegion(arn: string): (region: string)
    ensures |region| > 0
    ensures ':' !in region
    ensures (forall k :: 0 <= k < |arn| ==> !MatchesAt(arn, k)) ==> region == DefaultRegion
  {
    match Search(arn, 0)
    case Some((i, j)) =>
      assert MatchesAt(arn, i);
      var group := arn[i + |Prefix|..j];
      assert forall k :: 0 <= k < |group| ==> group[k] != ':';
      group
    case None => DefaultRegion
  }

  /** When the pattern matches, the region is exactly the text between the prefix of the
      leftmost match and that match's closing colon. */
  lemma ExtractRegionLeftmost(arn: string, i: nat, j: nat)
    requires IsMatch(arn, i, j)
    requires forall k :: 0 <= k < i ==> !MatchesAt(arn, k)
    ensures ExtractRegion(arn) == arn[i + |Prefix|..j]
  {
    assert MatchesAt(arn, i);
    var r := Search(arn, 0);
    assert r.Some?;
    var (i', j') := r.value;
    assert MatchesAt(arn, i');
    assert i' == i;
    MatchEndUnique(arn, i, j, j');
  }

  /** Any Lambda function ARN `arn:aws:lambda:{region}:{rest}` yields its region. */
  lemma RegionOfFunctionArn(region: string, rest: string)
    requires |region| > 0 && ':' !in region
    ensures ExtractRegion(Prefix + region + ":" + rest) == region
  {
    var s := Prefix + region + ":" + rest;
    var j := |Prefix| + |region|;
    assert s[..|Prefix|] == Prefix;
    assert s[|Prefix|..j] == region;
    assert forall k :: |Prefix| <= k < j ==> s[k] == region[k - |Prefix|];
    assert IsMatch(s, 0, j);
    ExtractRegionLeftmost(s, 0, j);
  }

  lemma ExampleRegion()
    ensures ExtractRegion("arn:aws:lambda:eu-west-1:123:function:f") == "eu-west-1"
  {
    assert "arn:aws:lambda:eu-west-1:123:function:f" == Prefix + "eu-west-1" + ":" + "123:function:f";
    RegionOfFunctionArn("eu-west-1", "123:function:f");
  }

  /** A region without a trailing colon does not match. */
  lemma ExampleNoClosingColon()
    ensures ExtractRegion("arn:aws:lambda:us-west-2") == DefaultRegion
  {
  }
}
