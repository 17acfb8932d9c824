/**
 * The eight emotion categories, the score vectors indexed by them, and the
 * fixed table that says where a negated category's weight is credited.
 */
module Emotions {
  import opened Wrappers

  /** The closed set of categories, one per key of the emotion lexicon. */
  datatype Emotion = Joy | Sadness | Anger | Fear | Surprise | Disgust | Anticipation | Trust

  /** The category at position `k` of the lexicon's key order; positions run from 0 to 7. */
  function KeyAt(k: int): Emotion {
    if k <= 0 then Joy
    else if k == 1 then Sadness
    else if k == 2 then Anger
    else if k == 3 then Fear
    else if k == 4 then Surprise
    else if k == 5 then Disgust
    else if k == 6 then Anticipation
    else Trust
  }

  /** The categories at positions `k` to 7, in order. */
  function KeysFrom(k: nat): (r: seq<Emotion>)
    requires k <= 8
    ensures |r| == 8 - k
    ensures forall j :: 0 <= j < |r| ==> r[j] == KeyAt(k + j)
    decreases 8 - k
  {
    if k == 8 then [] else [KeyAt(k)] + KeysFrom(k + 1)
  }

  /** Every category once, in the order the lexicon lists its keys. */
  const AllEmotions: seq<Emotion> := KeysFrom(0)

  /** The position of category `e` in the lexicon's key order. */
  function KeyIndex(e: Emotion): (k: nat)
    ensures k < |AllEmotions| && AllEmotions[k] == e
  {
    match e
    case Joy => 0
    case Sadness => 1
    case Anger => 2
    case Fear => 3
    case Surprise => 4
    case Disgust => 5
    case Anticipation => 6
    case Trust => 7
  }

  /** Every category occurs in `AllEmotions`, exactly once. */
  lemma AllEmotionsListsEvery()
    ensures forall e: Emotion :: e in AllEmotions
    ensures forall i, j :: 0 <= i < j < |AllEmotions| ==> AllEmotions[i] != AllEmotions[j]
  {
    forall e: Emotion ensures e in AllEmotions {
      assert AllEmotions[KeyIndex(e)] == e;
    }
  }

  /** A score vector: one real per category. */
  type Scores = map<Emotion, real>

  /** Every category has an entry. */
  predicate Complete(s: Scores) {
    forall e: Emotion :: e in s
  }

  /** Every entry lies in the closed unit interval. */
  predicate InUnitRange(s: Scores)
    requires Complete(s)
  {
    forall e: Emotion :: 0.0 <= s[e] <= 1.0
  }

  /** The vector giving category `e` the value `f(e)`. */
  function Tabulate(f: Emotion -> real): (r: Scores)
    ensures Complete(r)
    ensures forall e: Emotion :: r[e] == f(e)
  {
    map e: Emotion | true :: f(e)
  }

  /** The vector with every category at zero. */
  function ZeroScores(): (r: Scores)
    ensures Complete(r)
    ensures forall e: Emotion :: r[e] == 0.0
  {
    Tabulate(_ => 0.0)
  }

  /**
   * The category credited when a word of category `e` is negated. The
   * table is hard-coded and not symmetric; anger and surprise
   * have no target.
   */
  function Redirect(e: Emotion): (r: Option<Emotion>)
    ensures r != Some(e)
    ensures r.None? <==> e == Anger || e == Surprise
  {
    match e
    case Joy => Some(Sadness)
    case Trust => Some(Disgust)
    case Anticipation => Some(Fear)
    case Sadness => Some(Joy)
    case Fear => Some(Trust)
    case Disgust => Some(Joy)
    case Anger => None
    case Surprise => None
  }

  /** The categories whose negation credits `f`. */
  function RedirectSources(f: Emotion): (r: set<Emotion>)
    ensures forall e: Emotion :: e in r <==> Redirect(e) == Some(f)
  {
    set e: Emotion | Redirect(e) == Some(f)
  }

  /**
   * The table is not an involution: negated fear credits trust, yet
   * negated trust credits disgust, and two categories (sadness and
   * disgust) both credit joy.
   */
  lemma RedirectNotSymmetric()
    ensures exists e, f :: Redirect(e) == Some(f) && Redirect(f) != Some(e)
    ensures RedirectSources(Joy) == {Sadness, Disgust}
    ensures RedirectSources(Anger) == {} && RedirectSources(Surprise) == {}
  {
    assert Redirect(Fear) == Some(Trust) && Redirect(Trust) != Some(Fear);
    assert RedirectSources(Joy) == {Sadness, Disgust} by {
      forall e: Emotion ensures e in RedirectSources(Joy) <==> e in {Sadness, Disgust} {
      }
    }
  }
}
