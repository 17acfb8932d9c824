/**
 * The lexicon emotion scorer: one left-to-right pass over a token sequence
 * with a one-token negation window, a two-token degree-adverb window and a
 * fixed redirect table, followed by clipping to [0, 5] and scaling to [0, 1].
 *
 * The word segmenter that turns text into tokens is not part of the model:
 * the scorer starts from the token sequence.
 */
module Scorer {
  import opened Wrappers
  import opened Emotions
  import opened Lexicon

  /** The bound each running total is clipped to before scaling. */
  const MaxScore: real := 5.0

  // ---------------------------------------------------------------------------
  // Degree adverbs
  // ---------------------------------------------------------------------------

  /** The first level of `levels`, in order, whose adverb list holds `w`. */
  function FirstLevel(cfg: Config, w: string, levels: seq<Level>): (r: Option<Level>)
    ensures r.Some? ==> w in cfg.degrees(r.value)
    ensures r.Some? ==> exists k :: 0 <= k < |levels| && levels[k] == r.value &&
                                    forall j :: 0 <= j < k ==> w !in cfg.degrees(levels[j])
    ensures r.None? ==> forall k :: 0 <= k < |levels| ==> w !in cfg.degrees(levels[k])
  {
    if levels == [] then None
    else if w in cfg.degrees(levels[0]) then Some(levels[0])
    else
      var r := FirstLevel(cfg, w, levels[1..]);
      assert r.Some? ==> exists k :: 0 <= k < |levels| && levels[k] == r.value &&
                                     forall j :: 0 <= j < k ==> w !in cfg.degrees(levels[j]) by {
        if r.Some? {
          var k :| 0 <= k < |levels[1..]| && levels[1..][k] == r.value &&
                   forall j :: 0 <= j < k ==> w !in cfg.degrees(levels[1..][j]);
          assert levels[k + 1] == r.value;
          forall j | 0 <= j < k + 1 ensures w !in cfg.degrees(levels[j]) {
            if j > 0 { assert levels[j] == levels[1..][j - 1]; }
          }
        }
      }
      r
  }

  /**
   * The level of an adverb: the levels are consulted extreme, high, moderate,
   * low, and the first whose list holds `w` wins.
   */
  function LevelOf(cfg: Config, w: string): (r: Option<Level>)
    ensures r.Some? ==> w in cfg.degrees(r.value)
    ensures r.Some? ==> forall l: Level :: Rank(l) < Rank(r.value) ==> w !in cfg.degrees(l)
    ensures r.None? <==> forall l: Level :: w !in cfg.degrees(l)
  {
    var r := FirstLevel(cfg, w, LevelOrder);
    assert r.Some? ==> forall l: Level :: Rank(l) < Rank(r.value) ==> w !in cfg.degrees(l) by {
      if r.Some? {
        var k :| 0 <= k < |LevelOrder| && LevelOrder[k] == r.value &&
                 forall j :: 0 <= j < k ==> w !in cfg.degrees(LevelOrder[j]);
        assert Rank(r.value) == k;
      }
    }
    assert r.None? ==> forall l: Level :: w !in cfg.degrees(l) by {
      if r.None? {
        forall l: Level ensures w !in cfg.degrees(l) {
          assert LevelOrder[Rank(l)] == l;
        }
      }
    }
    r
  }

  /** The multiplier an adverb word applies, 1.0 for a word of no level. */
  function AdverbValue(cfg: Config, w: string): real {
    match LevelOf(cfg, w)
    case Some(l) => LevelValue(l)
    case None => 1.0
  }

  /** An adverb that changes the multiplier: any level but the moderate one. */
  predicate Strong(cfg: Config, w: string) {
    LevelOf(cfg, w).Some? && LevelOf(cfg, w).value != Moderate
  }

  /**
   * The lookback over offsets `offset`..2 before token `i`, carrying the
   * current multiplier `mult`; it stops as soon as the multiplier differs
   * from 1.0, so a moderate adverb does not end it.
   */
  function Lookback(cfg: Config, words: seq<string>, i: nat, offset: nat, mult: real): (r: real)
    requires i < |words| && 1 <= offset
    ensures 0.5 <= mult <= 2.0 ==> 0.5 <= r <= 2.0
    ensures i < offset ==> r == mult
    decreases 3 - offset
  {
    if offset > 2 then mult
    else if i >= offset then
      var m := match LevelOf(cfg, words[i - offset]) case Some(l) => LevelValue(l) case None => mult;
      if m != 1.0 then m else Lookback(cfg, words, i, offset + 1, m)
    else Lookback(cfg, words, i, offset + 1, mult)
  }

  /** The degree multiplier of token `i`: within [0.5, 2.0], and 1.0 for the first token. */
  function Multiplier(cfg: Config, words: seq<string>, i: nat): (r: real)
    requires i < |words|
    ensures 0.5 <= r <= 2.0
    ensures i == 0 ==> r == 1.0
  {
    Lookback(cfg, words, i, 1, 1.0)
  }

  /**
   * The degree rule: a strong adverb right before token `i` decides;
   * otherwise the adverb two tokens before it, if any, decides (so a
   * moderate adverb right before does not shadow it); otherwise the
   * multiplier is 1.0.
   */
  lemma MultiplierRule(cfg: Config, words: seq<string>, i: nat)
    requires i < |words|
    ensures i >= 1 && Strong(cfg, words[i - 1]) ==>
              Multiplier(cfg, words, i) == LevelValue(LevelOf(cfg, words[i - 1]).value)
    ensures !(i >= 1 && Strong(cfg, words[i - 1])) ==>
              Multiplier(cfg, words, i) == (if i >= 2 then AdverbValue(cfg, words[i - 2]) else 1.0)
    ensures 0.5 <= Multiplier(cfg, words, i) <= 2.0
  {
  }

  /** Token `i` is negated when the token right before it is a negation word. */
  predicate Negated(cfg: Config, words: seq<string>, i: nat)
    requires i < |words|
  {
    i > 0 && words[i - 1] in cfg.negations
  }

  // ---------------------------------------------------------------------------
  // Running totals
  // ---------------------------------------------------------------------------

  /** The running totals and the number of (token, category) matches so far. */
  datatype Tally = Tally(totals: Scores, matched: nat)

  /** The state before the first token. */
  function Start(): (r: Tally)
    ensures Complete(r.totals) && r.matched == 0
    ensures forall e: Emotion :: r.totals[e] == 0.0
  {
    Tally(ZeroScores(), 0)
  }

  /**
   * Credits weight `m` for a word of category `e`: added to `e` when not
   * negated; when negated, taken from `e` and given to its redirect target.
   */
  function Credit(t: Scores, e: Emotion, negated: bool, m: real): (r: Scores)
    requires Complete(t)
    ensures Complete(r)
    ensures !negated ==> r[e] == t[e] + m
    ensures negated ==> r[e] == t[e] - m
    ensures negated && Redirect(e).Some? ==> r[Redirect(e).value] == t[Redirect(e).value] + m
    ensures forall f: Emotion :: f != e && (!negated || Redirect(e) != Some(f)) ==> r[f] == t[f]
  {
    if negated then
      var t1 := match Redirect(e) case Some(g) => t[g := t[g] + m] case None => t;
      t1[e := t1[e] - m]
    else
      t[e := t[e] + m]
  }

  /** One category's turn for word `w`: credit and count it if `w` is one of its words. */
  function Consider(cfg: Config, w: string, negated: bool, m: real, t: Tally, e: Emotion): (r: Tally)
    requires Complete(t.totals)
    ensures Complete(r.totals)
    ensures t.matched <= r.matched <= t.matched + 1
  {
    if w in cfg.lexicon(e) then Tally(Credit(t.totals, e, negated, m), t.matched + 1) else t
  }

  /** The categories of `cats` take their turns for word `w`, in order. */
  function ConsiderAll(cfg: Config, w: string, negated: bool, m: real, t: Tally, cats: seq<Emotion>): (r: Tally)
    requires Complete(t.totals)
    ensures Complete(r.totals)
    ensures t.matched <= r.matched <= t.matched + |cats|
    decreases |cats|
  {
    if cats == [] then t
    else ConsiderAll(cfg, w, negated, m, Consider(cfg, w, negated, m, t, cats[0]), cats[1..])
  }

  /** Processes token `i` against every category: at most one match per category. */
  function Step(cfg: Config, words: seq<string>, i: nat, t: Tally): (r: Tally)
    requires i < |words| && Complete(t.totals)
    ensures Complete(r.totals)
    ensures t.matched <= r.matched <= t.matched + |AllEmotions|
  {
    ConsiderAll(cfg, words[i], Negated(cfg, words, i), Multiplier(cfg, words, i), t, AllEmotions)
  }

  /** The rest of the pass: tokens `i`.. processed in order, starting from `t`; the counter never goes down. */
  function Pass(cfg: Config, words: seq<string>, i: nat, t: Tally): (r: Tally)
    requires Complete(t.totals)
    ensures Complete(r.totals)
    ensures r.matched >= t.matched
    decreases |words| - i
  {
    if i >= |words| then t else Pass(cfg, words, i + 1, Step(cfg, words, i, t))
  }

  // ---------------------------------------------------------------------------
  // Normalisation and the score
  // ---------------------------------------------------------------------------

  /**
   * Clips a total to [0, MaxScore] and scales it by 1 / MaxScore: a total of
   * zero or less maps to 0, one of MaxScore or more maps to 1, and one in
   * between keeps its proportion.
   */
  function Normalize(x: real): (r: real)
    ensures 0.0 <= r <= 1.0
    ensures r == 0.0 <==> x <= 0.0
    ensures r == 1.0 <==> x >= MaxScore
    ensures 0.0 < x < MaxScore ==> r * MaxScore == x
  {
    var clipped := if x < 0.0 then 0.0 else if x > MaxScore then MaxScore else x;
    clipped / MaxScore
  }

  /** The score vector of a finished pass; all zeros when nothing matched. */
  function Finish(t: Tally): (r: Scores)
    requires Complete(t.totals)
    ensures Complete(r) && InUnitRange(r)
    ensures t.matched == 0 ==> forall e: Emotion :: r[e] == 0.0
    ensures t.matched > 0 ==> forall e: Emotion :: r[e] == Normalize(t.totals[e])
  {
    if t.matched == 0 then ZeroScores() else map e: Emotion | true :: Normalize(t.totals[e])
  }

  /**
   * The emotion scores of a token sequence: every category present, each
   * in [0, 1], and all zero when no token matched a lexicon word.
   */
  function Score(cfg: Config, words: seq<string>): (r: Scores)
    ensures Complete(r) && InUnitRange(r)
    ensures Pass(cfg, words, 0, Start()).matched == 0 ==> forall e: Emotion :: r[e] == 0.0
    ensures Pass(cfg, words, 0, Start()).matched > 0 ==>
              forall e: Emotion :: r[e] == Normalize(Pass(cfg, words, 0, Start()).totals[e])
  {
    Finish(Pass(cfg, words, 0, Start()))
  }

  // ---------------------------------------------------------------------------
  // What one token does
  // ---------------------------------------------------------------------------

  /**
   * What token `i` does depends on the token itself and the two before it
   * only: negation looks one token back, the degree lookback two.
   */
  lemma StepWindow(cfg: Config, words: seq<string>, other: seq<string>, i: nat, t: Tally)
    requires i < |words| && i < |other| && Complete(t.totals)
    requires forall k :: 0 <= k <= i && i <= k + 2 ==> words[k] == other[k]
    ensures Negated(cfg, words, i) == Negated(cfg, other, i)
    ensures Multiplier(cfg, words, i) == Multiplier(cfg, other, i)
    ensures Step(cfg, words, i, t) == Step(cfg, other, i, t)
  {
    MultiplierRule(cfg, words, i);
    MultiplierRule(cfg, other, i);
  }

  /** How many entries of `cats` list `w` among their trigger words. */
  function Matches(cfg: Config, w: string, cats: seq<Emotion>): nat
    decreases |cats|
  {
    if cats == [] then 0
    else (if w in cfg.lexicon(cats[0]) then 1 else 0) + Matches(cfg, w, cats[1..])
  }

  /** Weight `m` for each entry of `cats` that is `f` and lists `w`. */
  function HitWeight(cfg: Config, w: string, cats: seq<Emotion>, f: Emotion, m: real): real
    decreases |cats|
  {
    if cats == [] then 0.0
    else (if cats[0] == f && w in cfg.lexicon(f) then m else 0.0) + HitWeight(cfg, w, cats[1..], f, m)
  }

  /** Weight `m` for each entry of `cats` that lists `w` and redirects to `f` when negated. */
  function RedirectWeight(cfg: Config, w: string, cats: seq<Emotion>, f: Emotion, m: real): real
    decreases |cats|
  {
    if cats == [] then 0.0
    else (if w in cfg.lexicon(cats[0]) && Redirect(cats[0]) == Some(f) then m else 0.0)
         + RedirectWeight(cfg, w, cats[1..], f, m)
  }

  /**
   * The visit of `cats` for one word, in closed form: the match counter
   * grows by the number of categories listing the word; a plain word adds
   * `m` per hit on `f`; a negated word takes `m` per hit on `f` and gives
   * `m` per category redirecting to `f`.
   */
  lemma {:induction false} ConsiderAllEffect(cfg: Config, w: string, negated: bool, m: real, t: Tally, cats: seq<Emotion>)
    requires Complete(t.totals)
    ensures ConsiderAll(cfg, w, negated, m, t, cats).matched == t.matched + Matches(cfg, w, cats)
    ensures forall f: Emotion :: ConsiderAll(cfg, w, negated, m, t, cats).totals[f] ==
              t.totals[f] + (if negated then RedirectWeight(cfg, w, cats, f, m) - HitWeight(cfg, w, cats, f, m)
                             else HitWeight(cfg, w, cats, f, m))
    decreases |cats|
  {
    if cats != [] {
      var t1 := Consider(cfg, w, negated, m, t, cats[0]);
      ConsiderAllEffect(cfg, w, negated, m, t1, cats[1..]);
    }
  }

  /** In a list without repeats, `f` gains weight once if present and listing `w`. */
  lemma {:induction false} HitWeightDistinct(cfg: Config, w: string, cats: seq<Emotion>, f: Emotion, m: real)
    requires forall i, j :: 0 <= i < j < |cats| ==> cats[i] != cats[j]
    ensures HitWeight(cfg, w, cats, f, m) == if f in cats && w in cfg.lexicon(f) then m else 0.0
    decreases |cats|
  {
    if cats != [] {
      HitWeightDistinct(cfg, w, cats[1..], f, m);
      if cats[0] == f {
        assert f !in cats[1..] by {
          forall j | 0 <= j < |cats[1..]| ensures cats[1..][j] != f {
            assert cats[1..][j] == cats[j + 1];
          }
        }
      }
    }
  }

  /** Each category is visited once: `f` gains weight exactly when it lists `w`. */
  lemma HitWeightAll(cfg: Config, w: string, f: Emotion, m: real)
    ensures HitWeight(cfg, w, AllEmotions, f, m) == if w in cfg.lexicon(f) then m else 0.0
  {
    AllEmotionsListsEvery();
    HitWeightDistinct(cfg, w, AllEmotions, f, m);
  }

  /** No category of `cats` is matched exactly when none of them lists `w`. */
  lemma {:induction false} MatchesZero(cfg: Config, w: string, cats: seq<Emotion>)
    ensures Matches(cfg, w, cats) == 0 <==> forall k :: 0 <= k < |cats| ==> w !in cfg.lexicon(cats[k])
    decreases |cats|
  {
    if cats != [] {
      MatchesZero(cfg, w, cats[1..]);
      assert forall k :: 0 < k < |cats| ==> cats[k] == cats[1..][k - 1];
    }
  }

  /** A word counts as matched at least once exactly when some category lists it. */
  lemma MatchesAll(cfg: Config, w: string)
    ensures Matches(cfg, w, AllEmotions) == 0 <==> forall e: Emotion :: w !in cfg.lexicon(e)
  {
    AllEmotionsListsEvery();
    MatchesZero(cfg, w, AllEmotions);
    if Matches(cfg, w, AllEmotions) == 0 {
      forall e: Emotion ensures w !in cfg.lexicon(e) {
        var k := KeyIndex(e);
        assert w !in cfg.lexicon(AllEmotions[k]);
      }
    }
  }

  /** With no category of `cats` listing `w`, no weight moves at all. */
  lemma {:induction false} ZeroMatchesZeroWeight(cfg: Config, w: string, cats: seq<Emotion>, f: Emotion, m: real)
    requires Matches(cfg, w, cats) == 0
    ensures HitWeight(cfg, w, cats, f, m) == 0.0
    ensures RedirectWeight(cfg, w, cats, f, m) == 0.0
    decreases |cats|
  {
    if cats != [] {
      ZeroMatchesZeroWeight(cfg, w, cats[1..], f, m);
    }
  }

  /**
   * The visit of all eight categories for word `w`: each category listing
   * `w` gains `m` (loses `m` when negated), and when negated `f` also gains
   * `m` for each category listing `w` that redirects to `f`.
   */
  lemma VisitAll(cfg: Config, w: string, negated: bool, m: real, t: Tally)
    requires Complete(t.totals)
    ensures ConsiderAll(cfg, w, negated, m, t, AllEmotions).matched == t.matched + Matches(cfg, w, AllEmotions)
    ensures forall f: Emotion :: ConsiderAll(cfg, w, negated, m, t, AllEmotions).totals[f] ==
              t.totals[f] + (if w in cfg.lexicon(f) then (if negated then -m else m) else 0.0)
              + (if negated then RedirectWeight(cfg, w, AllEmotions, f, m) else 0.0)
  {
    ConsiderAllEffect(cfg, w, negated, m, t, AllEmotions);
    forall f: Emotion {
      HitWeightAll(cfg, w, f, m);
    }
  }

  /**
   * A token that is not negated adds its multiplier to every category
   * listing it, once per category, and leaves every other category alone;
   * the match counter grows by one per category listing it.
   */
  lemma PlainStep(cfg: Config, words: seq<string>, i: nat, t: Tally)
    requires i < |words| && Complete(t.totals) && !Negated(cfg, words, i)
    ensures Step(cfg, words, i, t).matched == t.matched + Matches(cfg, words[i], AllEmotions)
    ensures forall f: Emotion :: Step(cfg, words, i, t).totals[f] ==
              t.totals[f] + (if words[i] in cfg.lexicon(f) then Multiplier(cfg, words, i) else 0.0)
  {
    VisitAll(cfg, words[i], false, Multiplier(cfg, words, i), t);
  }

  /**
   * A token right after a negation word takes its multiplier from every
   * category listing it and gives the multiplier to `f` once for each
   * category listing it whose redirect target is `f`.
   */
  lemma NegatedStep(cfg: Config, words: seq<string>, i: nat, t: Tally)
    requires i < |words| && Complete(t.totals) && Negated(cfg, words, i)
    ensures Step(cfg, words, i, t).matched == t.matched + Matches(cfg, words[i], AllEmotions)
    ensures forall f: Emotion :: Step(cfg, words, i, t).totals[f] ==
              t.totals[f] - (if words[i] in cfg.lexicon(f) then Multiplier(cfg, words, i) else 0.0)
              + RedirectWeight(cfg, words[i], AllEmotions, f, Multiplier(cfg, words, i))
  {
    VisitAll(cfg, words[i], true, Multiplier(cfg, words, i), t);
  }

  /** When only category `c` lists `w`, only `c`'s redirect target is credited, once per visit of `c`. */
  lemma {:induction false} RedirectOnly(cfg: Config, w: string, cats: seq<Emotion>, c: Emotion, f: Emotion, m: real)
    requires forall e: Emotion :: e != c ==> w !in cfg.lexicon(e)
    ensures RedirectWeight(cfg, w, cats, f, m) == if Redirect(c) == Some(f) then HitWeight(cfg, w, cats, c, m) else 0.0
    decreases |cats|
  {
    if cats != [] {
      RedirectOnly(cfg, w, cats[1..], c, f, m);
    }
  }

  /**
   * A negated token listed under category `c` alone: its weight leaves
   * `c`, goes to `c`'s redirect target if `c` has one, and no other total
   * moves; the counter still grows by one.
   */
  lemma NegatedSingleCategory(cfg: Config, words: seq<string>, i: nat, t: Tally, c: Emotion)
    requires i < |words| && Complete(t.totals) && Negated(cfg, words, i)
    requires words[i] in cfg.lexicon(c) && forall e: Emotion :: e != c ==> words[i] !in cfg.lexicon(e)
    ensures Step(cfg, words, i, t).matched == t.matched + 1
    ensures Step(cfg, words, i, t).totals[c] == t.totals[c] - Multiplier(cfg, words, i)
    ensures Redirect(c).Some? ==>
              Step(cfg, words, i, t).totals[Redirect(c).value] == t.totals[Redirect(c).value] + Multiplier(cfg, words, i)
    ensures forall f: Emotion :: f != c && Redirect(c) != Some(f) ==> Step(cfg, words, i, t).totals[f] == t.totals[f]
  {
    NegatedVisitOnly(cfg, words[i], Multiplier(cfg, words, i), t, c);
  }

  /** A negated visit of every category by a word that category `c` alone lists. */
  lemma NegatedVisitOnly(cfg: Config, w: string, m: real, t: Tally, c: Emotion)
    requires Complete(t.totals)
    requires w in cfg.lexicon(c) && forall e: Emotion :: e != c ==> w !in cfg.lexicon(e)
    ensures ConsiderAll(cfg, w, true, m, t, AllEmotions).matched == t.matched + 1
    ensures ConsiderAll(cfg, w, true, m, t, AllEmotions).totals[c] == t.totals[c] - m
    ensures Redirect(c).Some? ==>
              ConsiderAll(cfg, w, true, m, t, AllEmotions).totals[Redirect(c).value] == t.totals[Redirect(c).value] + m
    ensures forall f: Emotion :: f != c && Redirect(c) != Some(f) ==> ConsiderAll(cfg, w, true, m, t, AllEmotions).totals[f] == t.totals[f]
  {
    VisitAll(cfg, w, true, m, t);
    MatchesSingle(cfg, w, c);
    RedirectSingle(cfg, w, c, m);
  }

  /** A word that category `c` alone lists matches exactly once. */
  lemma MatchesSingle(cfg: Config, w: string, c: Emotion)
    requires w in cfg.lexicon(c) && forall e: Emotion :: e != c ==> w !in cfg.lexicon(e)
    ensures Matches(cfg, w, AllEmotions) == 1
  {
    MatchesOnly(cfg, w, AllEmotions, c);
    HitWeightAll(cfg, w, c, 1.0);
  }

  /** A word that category `c` alone lists sends its whole weight to `c`'s redirect target. */
  lemma RedirectSingle(cfg: Config, w: string, c: Emotion, m: real)
    requires w in cfg.lexicon(c) && forall e: Emotion :: e != c ==> w !in cfg.lexicon(e)
    ensures forall f: Emotion :: RedirectWeight(cfg, w, AllEmotions, f, m) == if Redirect(c) == Some(f) then m else 0.0
  {
    forall f: Emotion
      ensures RedirectWeight(cfg, w, AllEmotions, f, m) == if Redirect(c) == Some(f) then m else 0.0
    {
      RedirectOnly(cfg, w, AllEmotions, c, f, m);
      HitWeightAll(cfg, w, c, m);
    }
  }

  /** When only category `c` lists `w`, the matches are the visits of `c`. */
  lemma {:induction false} MatchesOnly(cfg: Config, w: string, cats: seq<Emotion>, c: Emotion)
    requires w in cfg.lexicon(c) && forall e: Emotion :: e != c ==> w !in cfg.lexicon(e)
    ensures Matches(cfg, w, cats) as real == HitWeight(cfg, w, cats, c, 1.0)
    decreases |cats|
  {
    if cats != [] {
      MatchesOnly(cfg, w, cats[1..], c);
    }
  }

  /**
   * A token grows the counter by the number of categories listing it, and
   * a token no category lists leaves every total as it was.
   */
  lemma StepCounts(cfg: Config, words: seq<string>, i: nat, t: Tally)
    requires i < |words| && Complete(t.totals)
    ensures Step(cfg, words, i, t).matched == t.matched + Matches(cfg, words[i], AllEmotions)
    ensures Matches(cfg, words[i], AllEmotions) == 0 ==>
              forall f: Emotion :: Step(cfg, words, i, t).totals[f] == t.totals[f]
  {
    var m := Multiplier(cfg, words, i);
    var neg := Negated(cfg, words, i);
    ConsiderAllEffect(cfg, words[i], neg, m, t, AllEmotions);
    if Matches(cfg, words[i], AllEmotions) == 0 {
      forall f: Emotion ensures Step(cfg, words, i, t).totals[f] == t.totals[f] {
        ZeroMatchesZeroWeight(cfg, words[i], AllEmotions, f, m);
      }
    }
  }

  // ---------------------------------------------------------------------------
  // What the whole pass does
  // ---------------------------------------------------------------------------

  /** No token is a trigger word of any category. */
  predicate NoTriggers(cfg: Config, words: seq<string>) {
    forall i, e: Emotion :: 0 <= i < |words| ==> words[i] !in cfg.lexicon(e)
  }

  /** No token from `i` on is a trigger word of any category. */
  predicate SilentFrom(cfg: Config, words: seq<string>, i: nat) {
    forall j, e: Emotion :: i <= j < |words| ==> words[j] !in cfg.lexicon(e)
  }

  /** Silence from `i` is silence of token `i` and silence from `i + 1`. */
  lemma SilentSplit(cfg: Config, words: seq<string>, i: nat)
    requires i < |words|
    ensures SilentFrom(cfg, words, i) <==>
              (forall e: Emotion :: words[i] !in cfg.lexicon(e)) && SilentFrom(cfg, words, i + 1)
  {
  }

  /**
   * The match counter ends at 0 exactly when it starts at 0 and none of
   * tokens `i`.. is a trigger word of any category.
   */
  lemma {:induction false} MatchedZeroIff(cfg: Config, words: seq<string>, i: nat, t: Tally)
    requires Complete(t.totals)
    ensures Pass(cfg, words, i, t).matched == 0 <==> t.matched == 0 && SilentFrom(cfg, words, i)
    decreases |words| - i
  {
    if i < |words| {
      var t1 := Step(cfg, words, i, t);
      MatchedZeroIff(cfg, words, i + 1, t1);
      StepCounts(cfg, words, i, t);
      MatchesAll(cfg, words[i]);
      SilentSplit(cfg, words, i);
      assert Pass(cfg, words, i, t) == Pass(cfg, words, i + 1, t1);
    }
  }

  /** Totals that start at 0 are still 0 if the counter did not move. */
  lemma {:induction false} UnmatchedStaysZero(cfg: Config, words: seq<string>, i: nat, t: Tally)
    requires Complete(t.totals) && forall e: Emotion :: t.totals[e] == 0.0
    ensures Pass(cfg, words, i, t).matched == t.matched ==>
              forall e: Emotion :: Pass(cfg, words, i, t).totals[e] == 0.0
    decreases |words| - i
  {
    if i < |words| {
      StepCounts(cfg, words, i, t);
      var t1 := Step(cfg, words, i, t);
      if Matches(cfg, words[i], AllEmotions) == 0 {
        UnmatchedStaysZero(cfg, words, i + 1, t1);
      }
    }
  }

  /**
   * The whole pass: the match counter stays 0 exactly when no token is a
   * trigger word, and then every running total and every score is 0.
   */
  lemma NoTriggersScoreZero(cfg: Config, words: seq<string>)
    ensures Pass(cfg, words, 0, Start()).matched == 0 <==> NoTriggers(cfg, words)
    ensures NoTriggers(cfg, words) ==>
              forall e: Emotion :: Pass(cfg, words, 0, Start()).totals[e] == 0.0 && Score(cfg, words)[e] == 0.0
  {
    MatchedZeroIff(cfg, words, 0, Start());
    UnmatchedStaysZero(cfg, words, 0, Start());
  }

  // ---------------------------------------------------------------------------
  // The pass as a loop
  // ---------------------------------------------------------------------------

  /**
   * The degree lookback as the Python loop writes it: offsets 1 then 2, the
   * levels in order for each, leaving the offset loop only once the
   * multiplier differs from 1.0.
   */
  method DegreeMultiplier(cfg: Config, words: seq<string>, i: nat) returns (mult: real)
    requires i < |words|
    ensures mult == Multiplier(cfg, words, i)
  {
    mult := 1.0;
    var offset := 1;
    var stop := false;
    while offset <= 2 && !stop
      invariant 1 <= offset <= 3
      invariant stop ==> mult == Multiplier(cfg, words, i)
      invariant !stop ==> Lookback(cfg, words, i, offset, mult) == Multiplier(cfg, words, i)
      decreases 3 - offset + (if stop then 0 else 1)
    {
      if i - offset >= 0 {
        match LevelOf(cfg, words[i - offset]) {
          case Some(l) => mult := LevelValue(l);
          case None =>
        }
        if mult != 1.0 {
          stop := true;
        }
      }
      if !stop {
        offset := offset + 1;
      }
    }
  }

  /**
   * One category's turn, with the redirect written as the code's
   * chain of tests on the category.
   */
  method CreditCategory(cfg: Config, w: string, negated: bool, mult: real, totals: Scores, matched: nat, e: Emotion)
    returns (totals': Scores, matched': nat)
    requires Complete(totals)
    ensures Complete(totals')
    ensures Tally(totals', matched') == Consider(cfg, w, negated, mult, Tally(totals, matched), e)
  {
    totals', matched' := totals, matched;
    if w in cfg.lexicon(e) {
      var score := 1.0 * mult;
      assert score == mult;
      if negated {
        totals' := RedirectChain(totals', e, score);
        totals' := totals'[e := totals'[e] - score];
      } else {
        totals' := totals'[e := totals'[e] + score];
      }
      matched' := matched' + 1;
      CreditHit(cfg, w, negated, mult, Tally(totals, matched), e);
    }
  }

  /** A category that lists the word is credited and counted. */
  lemma CreditHit(cfg: Config, w: string, negated: bool, m: real, t: Tally, e: Emotion)
    requires Complete(t.totals) && w in cfg.lexicon(e)
    ensures Consider(cfg, w, negated, m, t, e) == Tally(Credit(t.totals, e, negated, m), t.matched + 1)
  {
  }

  /** The code's chain of tests on a negated category: it credits exactly the redirect target. */
  method RedirectChain(totals: Scores, e: Emotion, score: real) returns (totals': Scores)
    requires Complete(totals)
    ensures Complete(totals')
    ensures Redirect(e).Some? ==> totals' == totals[Redirect(e).value := totals[Redirect(e).value] + score]
    ensures Redirect(e).None? ==> totals' == totals
    ensures totals'[e := totals'[e] - score] == Credit(totals, e, true, score)
  {
    totals' := totals;
    if e == Joy {
      totals' := totals'[Sadness := totals'[Sadness] + score];
    } else if e == Trust {
      totals' := totals'[Disgust := totals'[Disgust] + score];
    } else if e == Anticipation {
      totals' := totals'[Fear := totals'[Fear] + score];
    } else if e == Sadness {
      totals' := totals'[Joy := totals'[Joy] + score];
    } else if e == Fear {
      totals' := totals'[Trust := totals'[Trust] + score];
    } else if e == Disgust {
      totals' := totals'[Joy := totals'[Joy] + score];
    }
    CreditNegated(totals, e, score, totals');
  }

  /** A negated credit is the redirect followed by the deduction from the category itself. */
  lemma CreditNegated(t: Scores, e: Emotion, m: real, t1: Scores)
    requires Complete(t)
    requires Redirect(e).Some? ==> t1 == t[Redirect(e).value := t[Redirect(e).value] + m]
    requires Redirect(e).None? ==> t1 == t
    ensures t1[e := t1[e] - m] == Credit(t, e, true, m)
  {
  }

  /** One token against every category, in the lexicon's order. */
  method ProcessToken(cfg: Config, words: seq<string>, i: nat, totals: Scores, matched: nat)
    returns (totals': Scores, matched': nat)
    requires i < |words| && Complete(totals)
    ensures Complete(totals')
    ensures Tally(totals', matched') == Step(cfg, words, i, Tally(totals, matched))
  {
    var negated := i > 0 && words[i - 1] in cfg.negations;
    var mult := DegreeMultiplier(cfg, words, i);
    var w := words[i];
    totals', matched' := totals, matched;
    var k := 0;
    assert AllEmotions[k..] == AllEmotions;
    while k < |AllEmotions|
      invariant k <= |AllEmotions|
      invariant Complete(totals')
      invariant ConsiderAll(cfg, w, negated, mult, Tally(totals', matched'), AllEmotions[k..])
                == Step(cfg, words, i, Tally(totals, matched))
    {
      ghost var before := Tally(totals', matched');
      assert AllEmotions[k..][1..] == AllEmotions[k + 1..];
      assert ConsiderAll(cfg, w, negated, mult, before, AllEmotions[k..])
             == ConsiderAll(cfg, w, negated, mult, Consider(cfg, w, negated, mult, before, AllEmotions[k]), AllEmotions[k + 1..]);
      totals', matched' := CreditCategory(cfg, w, negated, mult, totals', matched', AllEmotions[k]);
      k := k + 1;
    }
    assert AllEmotions[k..] == [];
  }

  /** Clipping and scaling of every total, then the all-zero override. */
  method Normalise(totals: Scores, matched: nat) returns (scores: Scores)
    requires Complete(totals)
    ensures scores == Finish(Tally(totals, matched))
  {
    scores := map e: Emotion | true :: Normalize(totals[e]);
    if matched == 0 {
      scores := ZeroScores();
    }
  }

  /**
   * The scorer as one imperative pass shaped like the Python loop: the
   * negation check, the degree lookback, every category's turn, then
   * clipping, scaling and the all-zero override.
   */
  method AnalyzeEmotionTypes(cfg: Config, words: seq<string>) returns (scores: Scores)
    ensures Complete(scores) && InUnitRange(scores)
    ensures scores == Score(cfg, words)
  {
    var totals := ZeroScores();
    var matched := 0;
    var i := 0;
    while i < |words|
      invariant i <= |words|
      invariant Complete(totals)
      invariant Pass(cfg, words, i, Tally(totals, matched)) == Pass(cfg, words, 0, Start())
    {
      totals, matched := ProcessToken(cfg, words, i, totals, matched);
      i := i + 1;
    }
    scores := Normalise(totals, matched);
  }
}
