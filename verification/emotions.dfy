/** Which emotions the camera view reports for one face annotation:
    `assess`, `has`, `foundEmotions` and the emoji list of
    src/camera/camera.js. */
module Emotions {
  import opened Wrappers
  import opened Likelihood

  /** The string-valued fields of one face annotation object, by name
      (`joyLikelihood` := "LIKELY", ...). */
  type Annotation = map<string, string>

  /** The fixed list of emotions the view asks about, in display order. */
  const EmotionNames: seq<string> := ["anger", "headwear", "joy", "sorrow", "surprise"]

  /** The annotation field that holds an emotion's likelihood. */
  function Key(mood: string): string
  {
    mood + "Likelihood"
  }

  /** The likelihood an annotation gives an emotion, if it gives a
      recognised one. */
  function LikelihoodOf(ann: Annotation, mood: string): Option<Likelihood>
  {
    if Key(mood) in ann then Parse(ann[Key(mood)]) else None
  }

  /** `assess(mood)`: the phrase for the emotion's likelihood; missing when
      the field is absent or holds an unrecognised value. */
  function Assess(ann: Annotation, mood: string): (r: Option<string>)
    ensures r.Some? <==> LikelihoodOf(ann, mood).Some?
    ensures r.Some? ==> r.value == Phrase(LikelihoodOf(ann, mood).value)
  {
    if Key(mood) in ann then LookupPhrase(ann[Key(mood)]) else None
  }

  /** `has(mood)`: whether an emotion is shown as present. There may be no
      annotation at all (before any photo, or when the service found no face). */
  function Has(ann: Option<Annotation>, mood: string): (b: bool)
    ensures b <==> ann.Some? && LikelihoodOf(ann.value, mood).Some?
                   && Present(LikelihoodOf(ann.value, mood).value)
  {
    if ann.None? then false
    else
      var chance := if Key(mood) in ann.value then ann.value[Key(mood)] else "";
      chance == "VERY_LIKELY" || chance == "LIKELY"
  }

  /** `xs` is `ys` with some elements left out and the rest in their order. */
  ghost predicate IsSubsequence(xs: seq<string>, ys: seq<string>)
    decreases |ys|
  {
    |xs| == 0 ||
    (|ys| > 0 &&
      ((xs[0] == ys[0] && IsSubsequence(xs[1..], ys[1..])) || IsSubsequence(xs, ys[1..])))
  }

  /** `moods.filter(has)`: keeps exactly the present emotions, in order. */
  function FilterPresent(ann: Option<Annotation>, moods: seq<string>): (r: seq<string>)
    ensures IsSubsequence(r, moods)
    ensures forall m :: m in r <==> m in moods && Has(ann, m)
  {
    if |moods| == 0 then []
    else if Has(ann, moods[0]) then [moods[0]] + FilterPresent(ann, moods[1..])
    else FilterPresent(ann, moods[1..])
  }

  /** `filter(has)` keeps a present mood as often as the input lists it, and
      an absent one never. */
  lemma {:induction false} FilterPresentCounts(ann: Option<Annotation>, moods: seq<string>, m: string)
    ensures multiset(FilterPresent(ann, moods))[m] == if Has(ann, m) then multiset(moods)[m] else 0
  {
    if |moods| > 0 {
      assert moods == [moods[0]] + moods[1..];
      FilterPresentCounts(ann, moods[1..], m);
    }
  }

  /** `foundEmotions`: the present emotions of the fixed list. */
  function FoundEmotions(ann: Option<Annotation>): (r: seq<string>)
    ensures IsSubsequence(r, EmotionNames)
    ensures forall m :: m in r <==> m in EmotionNames && Has(ann, m)
    ensures |r| <= |EmotionNames|
  {
    var r := FilterPresent(ann, EmotionNames);
    SubsequenceNoLonger(r, EmotionNames);
    r
  }

  /** One emoji image of the view: its `alt`, `key` and `src` attributes. */
  datatype Emoji = Emoji(alt: string, key: string, src: string)

  function EmotionEmoji(mood: string): Emoji
  {
    Emoji(mood, mood, "images/" + mood + ".svg")
  }

  const NoneEmoji: Emoji := Emoji("none", "none", "images/none.svg")

  /** `emojis`: one image per present emotion, or the single "none" image
      when no emotion is present. */
  function Emojis(ann: Option<Annotation>): (r: seq<Emoji>)
    ensures |r| >= 1
    ensures NoneEmoji in r <==> forall m :: m in EmotionNames ==> !Has(ann, m)
    ensures NoneEmoji in r ==> r == [NoneEmoji]
    ensures NoneEmoji !in r ==> |r| == |FoundEmotions(ann)| <= 5
    ensures NoneEmoji !in r ==>
      forall i :: 0 <= i < |r| ==> r[i].alt in EmotionNames && Has(ann, r[i].alt)
    ensures NoneEmoji !in r ==>
      forall i :: 0 <= i < |r| ==> r[i] == EmotionEmoji(FoundEmotions(ann)[i])
    ensures forall m :: m in EmotionNames && Has(ann, m) ==> EmotionEmoji(m) in r
  {
    var found := FoundEmotions(ann);
    if |found| == 0 then [NoneEmoji]
    else
      var r := seq(|found|, i requires 0 <= i < |found| => EmotionEmoji(found[i]));
      assert r[0] == EmotionEmoji(found[0]) && found[0] in found;
      assert NoneEmoji !in r by {
        forall i | 0 <= i < |r| ensures r[i] != NoneEmoji {
          assert found[i] in found;
        }
      }
      assert forall m :: m in found ==> EmotionEmoji(m) in r by {
        forall m | m in found ensures EmotionEmoji(m) in r {
          var i :| 0 <= i < |found| && found[i] == m;
          assert r[i] == EmotionEmoji(m);
        }
      }
      r
  }

  /** A subsequence is never longer than the sequence it is taken from. */
  lemma {:induction false} SubsequenceNoLonger(xs: seq<string>, ys: seq<string>)
    requires IsSubsequence(xs, ys)
    ensures |xs| <= |ys|
    decreases |ys|
  {
    if |xs| == 0 {
    } else if xs[0] == ys[0] && IsSubsequence(xs[1..], ys[1..]) {
      SubsequenceNoLonger(xs[1..], ys[1..]);
    } else {
      SubsequenceNoLonger(xs, ys[1..]);
    }
  }

  /** Every element of a subsequence occurs in the sequence it is taken from. */
  lemma {:induction false} SubsequenceMembers(xs: seq<string>, ys: seq<string>, m: string)
    requires IsSubsequence(xs, ys)
    requires m in xs
    ensures m in ys
    decreases |ys|
  {
    if xs[0] == ys[0] && IsSubsequence(xs[1..], ys[1..]) {
      if m != xs[0] {
        assert m in xs[1..] by { var k :| 0 <= k < |xs| && xs[k] == m; assert xs[1..][k - 1] == m; }
        SubsequenceMembers(xs[1..], ys[1..], m);
      }
    } else {
      SubsequenceMembers(xs, ys[1..], m);
    }
  }

  predicate NoDuplicates(xs: seq<string>)
  {
    forall i, j :: 0 <= i < j < |xs| ==> xs[i] != xs[j]
  }

  /** Over a list without repetitions, an order-preserving selection is fixed
      by which elements it keeps: two subsequences with the same members are
      equal. */
  lemma {:induction false} SubsequenceDeterminedByMembers(xs: seq<string>, zs: seq<string>, ys: seq<string>)
    requires NoDuplicates(ys)
    requires IsSubsequence(xs, ys) && IsSubsequence(zs, ys)
    requires forall m :: m in xs <==> m in zs
    ensures xs == zs
    decreases |ys|
  {
    if |ys| == 0 {
      assert |xs| == 0 by { if |xs| > 0 { assert IsSubsequence(xs, ys); } }
      assert |zs| == 0 by { if |zs| > 0 { assert IsSubsequence(zs, ys); } }
    } else {
      var y := ys[0];
      assert NoDuplicates(ys[1..]);
      assert y !in ys[1..];
      if y in xs {
        var xs' := TakeHead(xs, ys);
        var zs' := TakeHead(zs, ys);
        SubsequenceDeterminedByMembers(xs', zs', ys[1..]);
        assert xs == [y] + xs' && zs == [y] + zs';
      } else {
        SkipHead(xs, ys);
        SkipHead(zs, ys);
        SubsequenceDeterminedByMembers(xs, zs, ys[1..]);
      }
    }
  }

  /** When the first element of a repetition-free list is kept, it heads the
      subsequence, and the rest is a subsequence of the rest. */
  lemma TakeHead(xs: seq<string>, ys: seq<string>) returns (xs': seq<string>)
    requires NoDuplicates(ys) && |ys| > 0
    requires IsSubsequence(xs, ys) && ys[0] in xs
    ensures xs == [ys[0]] + xs' && IsSubsequence(xs', ys[1..])
    ensures forall m :: m in xs' <==> m in xs && m != ys[0]
  {
    assert ys[0] !in ys[1..];
    if !(xs[0] == ys[0] && IsSubsequence(xs[1..], ys[1..])) {
      SubsequenceMembers(xs, ys[1..], ys[0]);
    }
    xs' := xs[1..];
    assert xs == [ys[0]] + xs';
    forall m | m in xs' ensures m != ys[0] {
      SubsequenceMembers(xs', ys[1..], m);
    }
  }

  /** When the first element of a list is not kept, the subsequence comes
      from the rest of the list. */
  lemma SkipHead(xs: seq<string>, ys: seq<string>)
    requires |ys| > 0 && IsSubsequence(xs, ys) && ys[0] !in xs
    ensures IsSubsequence(xs, ys[1..])
  {
    if |xs| > 0 {
      assert xs[0] in xs;
    }
  }

  /** `foundEmotions` is THE order-preserving selection of the present
      emotions: any subsequence of the emotion list holding exactly the
      present emotions equals it. */
  lemma FoundEmotionsUnique(ann: Option<Annotation>, xs: seq<string>)
    requires IsSubsequence(xs, EmotionNames)
    requires forall m :: m in xs <==> m in EmotionNames && Has(ann, m)
    ensures xs == FoundEmotions(ann)
  {
    SubsequenceDeterminedByMembers(xs, FoundEmotions(ann), EmotionNames);
  }

  /** Joy LIKELY, surprise UNLIKELY and headwear VERY_LIKELY show headwear
      and joy, in list order, and leave surprise out. */
  lemma PresenceExample()
    ensures var ann := Some(map["joyLikelihood" := "LIKELY", "surpriseLikelihood" := "UNLIKELY",
                                "headwearLikelihood" := "VERY_LIKELY"]);
      FoundEmotions(ann) == ["headwear", "joy"]
  {
    var ann := Some(map["joyLikelihood" := "LIKELY", "surpriseLikelihood" := "UNLIKELY",
                        "headwearLikelihood" := "VERY_LIKELY"]);
    assert !Has(ann, "anger") by { assert Key("anger") == "angerLikelihood"; }
    assert Has(ann, "headwear") by { assert Key("headwear") == "headwearLikelihood"; }
    assert Has(ann, "joy") by { assert Key("joy") == "joyLikelihood"; }
    assert !Has(ann, "sorrow") by { assert Key("sorrow") == "sorrowLikelihood"; }
    assert !Has(ann, "surprise") by { assert Key("surprise") == "surpriseLikelihood"; }
    var e := EmotionNames;
    assert FilterPresent(ann, e[4..]) == [] by { assert e[4..][1..] == []; }
    assert FilterPresent(ann, e[3..]) == [] by { assert e[3..][1..] == e[4..]; }
    assert FilterPresent(ann, e[2..]) == ["joy"] by { assert e[2..][1..] == e[3..]; }
    assert FilterPresent(ann, e[1..]) == ["headwear", "joy"] by { assert e[1..][1..] == e[2..]; }
    assert FilterPresent(ann, e) == ["headwear", "joy"];
  }

  /** For that annotation the view shows the headwear and joy emojis. */
  lemma PresenceEmojiExample()
    ensures Emojis(Some(map["joyLikelihood" := "LIKELY", "surpriseLikelihood" := "UNLIKELY",
                            "headwearLikelihood" := "VERY_LIKELY"]))
            == [EmotionEmoji("headwear"), EmotionEmoji("joy")]
  {
    PresenceExample();
  }

  /** Without an annotation nothing is present and the emoji list is the
      single "none" image. */
  lemma NoAnnotationShowsNone()
    ensures FoundEmotions(None) == []
    ensures Emojis(None) == [NoneEmoji]
  {
  }
}
