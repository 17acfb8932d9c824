/**
 * Worked cases of the scorer on the shipped configuration. Each lemma pins
 * down one behaviour of the degree lookback, the negation redirect or the
 * per-category credit on concrete token lists.
 */
module ScorerExamples {
  import opened Wrappers
  import opened Emotions
  import opened Lexicon
  import opened Scorer

  /** "開心" is a joy word and nothing else. */
  lemma HappyOnlyJoy()
    ensures "開心" in EmotionWords(Joy)
    ensures forall e: Emotion :: e != Joy ==> "開心" !in EmotionWords(e)
  {
    assert EmotionWords(Joy)[0] == "開心";
    HappyNotSadAnger();
    HappyNotFearSurprise();
    HappyNotDisgustAnticipation();
    HappyNotTrust();
  }

  /** "開心" is not a sadness or anger word. */
  lemma HappyNotSadAnger()
    ensures "開心" !in EmotionWords(Sadness) && "開心" !in EmotionWords(Anger)
  {
  }

  /** "開心" is not a fear or surprise word. */
  lemma HappyNotFearSurprise()
    ensures "開心" !in EmotionWords(Fear) && "開心" !in EmotionWords(Surprise)
  {
  }

  /** "開心" is not a disgust or anticipation word. */
  lemma HappyNotDisgustAnticipation()
    ensures "開心" !in EmotionWords(Disgust) && "開心" !in EmotionWords(Anticipation)
  {
  }

  /** "開心" is not a trust word. */
  lemma HappyNotTrust()
    ensures "開心" !in EmotionWords(Trust)
  {
  }

  /** "不" is a negation word, not a degree adverb and not a joy or sadness word. */
  lemma NotIsPlainNegation()
    ensures "不" in NegationWords
    ensures LevelOf(Default, "不").None?
    ensures "不" !in EmotionWords(Joy) && "不" !in EmotionWords(Sadness)
  {
    assert NegationWords[0] == "不";
    NotStrongLevels();
    NotWeakLevels();
    forall l: Level ensures "不" !in DegreeWords(l) {
      match l
      case Extreme =>
      case High =>
      case Moderate =>
      case Low =>
    }
    NotJoySadness();
  }

  /** "不" is not an extreme or high adverb. */
  lemma NotStrongLevels()
    ensures "不" !in DegreeWords(Extreme) && "不" !in DegreeWords(High)
  {
  }

  /** "不" is not a moderate or low adverb. */
  lemma NotWeakLevels()
    ensures "不" !in DegreeWords(Moderate) && "不" !in DegreeWords(Low)
  {
  }

  /** "不" is not a joy or sadness word. */
  lemma NotJoySadness()
    ensures "不" !in EmotionWords(Joy) && "不" !in EmotionWords(Sadness)
  {
  }

  /**
   * "略微" is listed under both the moderate and the low level; the moderate
   * entry is found first, so the word is neutral (multiplier 1.0).
   */
  lemma SlightlyIsModerate()
    ensures "略微" in DegreeWords(Moderate) && "略微" in DegreeWords(Low)
    ensures LevelOf(Default, "略微") == Some(Moderate)
    ensures AdverbValue(Default, "略微") == 1.0 && !Strong(Default, "略微")
  {
    SharedWords();
    SlightlyNotStrong();
  }

  /** "略微" is not an extreme or high adverb. */
  lemma SlightlyNotStrong()
    ensures "略微" !in DegreeWords(Extreme) && "略微" !in DegreeWords(High)
  {
  }

  /** "非常" is an extreme adverb and doubles the word after it. */
  lemma VeryIsExtreme()
    ensures LevelOf(Default, "非常") == Some(Extreme)
    ensures AdverbValue(Default, "非常") == 2.0 && Strong(Default, "非常")
  {
    assert DegreeWords(Extreme)[5] == "非常";
  }

  /**
   * A moderate adverb right before the trigger does not stop the lookback:
   * the extreme adverb two tokens back still applies.
   */
  lemma ModerateDoesNotShadow()
    ensures Multiplier(Default, ["非常", "有點", "開心"], 2) == 2.0
  {
    var words := ["非常", "有點", "開心"];
    assert DegreeWords(Moderate)[9] == "有點";
    ALittleNotStrong();
    assert LevelOf(Default, words[1]) == Some(Moderate);
    VeryIsExtreme();
    MultiplierRule(Default, words, 2);
  }

  /** A strong adverb right before the trigger hides the one before it. */
  lemma StrongShadows()
    ensures Multiplier(Default, ["非常", "一點點", "開心"], 2) == 0.5
  {
    var words := ["非常", "一點點", "開心"];
    assert DegreeWords(Low)[0] == "一點點";
    TinyNotAbove();
    assert LevelOf(Default, words[1]) == Some(Low);
    MultiplierRule(Default, words, 2);
  }

  /** "有點" is not an extreme or high adverb. */
  lemma ALittleNotStrong()
    ensures "有點" !in DegreeWords(Extreme) && "有點" !in DegreeWords(High)
  {
  }

  /** "一點點" is not an extreme, high or moderate adverb. */
  lemma TinyNotAbove()
    ensures "一點點" !in DegreeWords(Extreme) && "一點點" !in DegreeWords(High)
    ensures "一點點" !in DegreeWords(Moderate)
  {
  }

  /** A word listed under two categories credits both of them. */
  lemma HateCountsTwice()
    ensures Score(Default, ["討厭"])[Anger] == 0.2
    ensures Score(Default, ["討厭"])[Disgust] == 0.2
  {
    var words := ["討厭"];
    assert EmotionWords(Anger)[18] == "討厭";
    assert EmotionWords(Disgust)[8] == "討厭";
    MultiplierRule(Default, words, 0);
    PlainStep(Default, words, 0, Start());
    HitWeightAll(Default, "討厭", Anger, 1.0);
    HitWeightAll(Default, "討厭", Disgust, 1.0);
    MatchesAll(Default, "討厭");
    var t := Step(Default, words, 0, Start());
    assert Pass(Default, words, 0, Start()) == t;
    assert t.totals[Anger] == 1.0 && t.totals[Disgust] == 1.0;
  }

  /** A lone trigger word scores one fifth in its category. */
  lemma PlainHappy()
    ensures Score(Default, ["開心"])[Joy] == 0.2
  {
    var words := ["開心"];
    MultiplierRule(Default, words, 0);
    PlainStep(Default, words, 0, Start());
    HitWeightAll(Default, "開心", Joy, 1.0);
    assert EmotionWords(Joy)[0] == "開心";
    MatchesAll(Default, "開心");
    assert Pass(Default, words, 0, Start()) == Step(Default, words, 0, Start());
  }

  /** "非常" is neither a negation nor a joy word. */
  lemma VeryIsPlainAdverb()
    ensures "非常" !in NegationWords && "非常" !in EmotionWords(Joy)
  {
  }

  /** A pass over two tokens is the step of the second after the step of the first. */
  lemma PassTwo(cfg: Config, words: seq<string>)
    requires |words| == 2
    ensures Pass(cfg, words, 0, Start()) == Step(cfg, words, 1, Step(cfg, words, 0, Start()))
  {
    var t := Step(cfg, words, 0, Start());
    var u := Step(cfg, words, 1, t);
    assert Pass(cfg, words, 2, u) == u;
    assert Pass(cfg, words, 1, t) == u;
  }

  /** The first token is never negated, so a category it does not list stays at 0. */
  lemma FirstStepUntouched(cfg: Config, words: seq<string>, f: Emotion)
    requires |words| >= 1 && words[0] !in cfg.lexicon(f)
    ensures Step(cfg, words, 0, Start()).totals[f] == 0.0
  {
    PlainStep(cfg, words, 0, Start());
  }

  /** The pass over the same two tokens: `c`'s total is the multiplier and the counter moved. */
  lemma TriggerAfterPass(cfg: Config, words: seq<string>, c: Emotion)
    requires |words| == 2 && words[0] !in cfg.lexicon(c) && words[1] in cfg.lexicon(c)
    requires !Negated(cfg, words, 1)
    ensures Pass(cfg, words, 0, Start()).matched > 0
    ensures Pass(cfg, words, 0, Start()).totals[c] == Multiplier(cfg, words, 1)
  {
    PassTwo(cfg, words);
    var t := Step(cfg, words, 0, Start());
    FirstStepUntouched(cfg, words, c);
    PlainStep(cfg, words, 1, t);
    MatchesAll(cfg, words[1]);
  }

  /**
   * Two tokens, the second a trigger of `c` and not negated, the first not
   * a trigger of `c`: category `c` scores the normalised multiplier of the
   * second token.
   */
  lemma TriggerAfter(cfg: Config, words: seq<string>, c: Emotion)
    requires |words| == 2 && words[0] !in cfg.lexicon(c) && words[1] in cfg.lexicon(c)
    requires !Negated(cfg, words, 1)
    ensures Score(cfg, words)[c] == Normalize(Multiplier(cfg, words, 1))
  {
    TriggerAfterPass(cfg, words, c);
  }

  /**
   * Two tokens, the first a negation word that triggers neither `c` nor its
   * redirect target, the second a trigger of `c` alone: `c` loses the
   * multiplier (clipped at zero) and the redirect target gains it.
   */
  lemma NegatedTriggerAfter(cfg: Config, words: seq<string>, c: Emotion)
    requires |words| == 2 && words[0] in cfg.negations && Redirect(c).Some?
    requires words[0] !in cfg.lexicon(c) && words[0] !in cfg.lexicon(Redirect(c).value)
    requires words[1] in cfg.lexicon(c) && forall e: Emotion :: e != c ==> words[1] !in cfg.lexicon(e)
    ensures Score(cfg, words)[c] == 0.0
    ensures Score(cfg, words)[Redirect(c).value] == Normalize(Multiplier(cfg, words, 1))
  {
    var g := Redirect(c).value;
    var m := Multiplier(cfg, words, 1);
    PassTwo(cfg, words);
    var t := Step(cfg, words, 0, Start());
    FirstStepUntouched(cfg, words, c);
    FirstStepUntouched(cfg, words, g);
    MultiplierRule(cfg, words, 1);
    NegatedSingleCategory(cfg, words, 1, t, c);
    var u := Step(cfg, words, 1, t);
    assert u.matched > 0 && u.totals[c] == -m && u.totals[g] == m;
  }

  /** An extreme adverb doubles the trigger word after it. */
  lemma VeryHappy()
    ensures Score(Default, ["非常", "開心"])[Joy] == 0.4
  {
    var words := ["非常", "開心"];
    VeryIsExtreme();
    VeryIsPlainAdverb();
    assert EmotionWords(Joy)[0] == "開心";
    MultiplierRule(Default, words, 1);
    TriggerAfter(Default, words, Joy);
  }

  /**
   * A negated joy word removes joy and credits sadness; joy is clipped at
   * zero.
   */
  lemma NotHappy()
    ensures Score(Default, ["不", "開心"])[Joy] == 0.0
    ensures Score(Default, ["不", "開心"])[Sadness] == 0.2
  {
    var words := ["不", "開心"];
    NotIsPlainNegation();
    HappyOnlyJoy();
    MultiplierRule(Default, words, 1);
    NegatedTriggerAfter(Default, words, Joy);
  }
}
