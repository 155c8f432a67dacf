/** The six-valued likelihood scale of the Cloud Vision face annotation and
    the human phrase the camera view shows for each value
    (`likelyMap` in src/camera/camera.js). */
module Likelihood {
  import opened Wrappers

  datatype Likelihood =
    | Unknown | VeryUnlikely | Unlikely | Possible | Likely | VeryLikely

  /** The wire spelling of each value, as it appears in the JSON response. */
  function Name(l: Likelihood): string
  {
    match l
    case Unknown => "UNKNOWN"
    case VeryUnlikely => "VERY_UNLIKELY"
    case Unlikely => "UNLIKELY"
    case Possible => "POSSIBLE"
    case Likely => "LIKELY"
    case VeryLikely => "VERY_LIKELY"
  }

  /** Reads a wire spelling back; any other string is not a likelihood. */
  function Parse(s: string): (r: Option<Likelihood>)
    ensures r.Some? ==> Name(r.value) == s
  {
    if s == "UNKNOWN" then Some(Unknown)
    else if s == "VERY_UNLIKELY" then Some(VeryUnlikely)
    else if s == "UNLIKELY" then Some(Unlikely)
    else if s == "POSSIBLE" then Some(Possible)
    else if s == "LIKELY" then Some(Likely)
    else if s == "VERY_LIKELY" then Some(VeryLikely)
    else None
  }

  /** Position on the ordered scale UNKNOWN < VERY_UNLIKELY < ... < VERY_LIKELY. */
  function Rank(l: Likelihood): nat
  {
    match l
    case Unknown => 0
    case VeryUnlikely => 1
    case Unlikely => 2
    case Possible => 3
    case Likely => 4
    case VeryLikely => 5
  }

  /** An emotion counts as present at the two top values of the scale. */
  predicate Present(l: Likelihood)
  {
    l == Likely || l == VeryLikely
  }

  /** The phrase table, written per value of the scale. */
  function Phrase(l: Likelihood): string
  {
    match l
    case Unknown => "not sure"
    case VeryUnlikely => "no"
    case Unlikely => "probably not"
    case Possible => "maybe"
    case Likely => "probably"
    case VeryLikely => "yes"
  }

  /** The phrase table as the source holds it: a lookup keyed by the raw
      wire string. */
  const LikelyMap: map<string, string> := map[
    "UNKNOWN" := "not sure",
    "VERY_UNLIKELY" := "no",
    "UNLIKELY" := "probably not",
    "POSSIBLE" := "maybe",
    "LIKELY" := "probably",
    "VERY_LIKELY" := "yes"
  ]

  /** Looking a raw string up in the phrase table (`likelyMap[s]`). */
  function LookupPhrase(s: string): (r: Option<string>)
    ensures r.Some? <==> Parse(s).Some?
    ensures r.Some? ==> r.value == Phrase(Parse(s).value)
  {
    if s in LikelyMap then Some(LikelyMap[s]) else None
  }

  /** Parsing undoes naming, and naming undoes parsing. */
  lemma ParseName(l: Likelihood, s: string)
    ensures Parse(Name(l)) == Some(l)
    ensures Parse(s) == Some(l) <==> s == Name(l)
  {
  }

  /** The phrase table is total over the six values and gives pairwise
      distinct phrases, so a phrase identifies its value. */
  lemma LikelyMapTotalAndInjective(l: Likelihood, m: Likelihood)
    ensures Name(l) in LikelyMap && LikelyMap[Name(l)] == Phrase(l)
    ensures LikelyMap.Keys == {Name(Unknown), Name(VeryUnlikely), Name(Unlikely),
                               Name(Possible), Name(Likely), Name(VeryLikely)}
    ensures Phrase(l) == Phrase(m) <==> l == m
  {
  }

  /** Presence is exactly "at least LIKELY" on the ordered scale. */
  lemma PresentIsTopOfScale(l: Likelihood)
    ensures Present(l) <==> Rank(l) >= Rank(Likely)
  {
  }
}
