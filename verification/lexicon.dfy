/**
 * The static configuration the scorer reads: the emotion lexicon, the
 * negation words and the degree-adverb table, together with the
 * configuration the system ships with.
 */
module Lexicon {
  import opened Emotions

  /** Intensity levels of the degree-adverb table. */
  datatype Level = Extreme | High | Moderate | Low

  /** The order in which the levels are consulted for one word. */
  const LevelOrder: seq<Level> := [Extreme, High, Moderate, Low]

  /** Position of a level in `LevelOrder`. */
  function Rank(l: Level): (r: nat)
    ensures r < |LevelOrder| && LevelOrder[r] == l
  {
    match l
    case Extreme => 0
    case High => 1
    case Moderate => 2
    case Low => 3
  }

  /** The multiplier a level applies; only the moderate level is neutral. */
  function LevelValue(l: Level): (r: real)
    ensures 0.5 <= r <= 2.0
    ensures r == 1.0 <==> l == Moderate
  {
    match l
    case Extreme => 2.0
    case High => 1.5
    case Moderate => 1.0
    case Low => 0.5
  }

  /**
   * A configuration bundle: trigger words per category, negation words and
   * adverbs per intensity level. Word lists are sequences, as in the
   * shipped tables, and may repeat a word.
   */
  datatype Config = Config(
    lexicon: Emotion -> seq<string>,
    negations: seq<string>,
    degrees: Level -> seq<string>)

  /** The trigger words of each category: at least twenty of them. */
  function EmotionWords(e: Emotion): (r: seq<string>)
    ensures |r| >= 20
  {
    match e
    case Joy => ["開心", "高興", "愉快", "喜悅", "快樂", "興奮", "歡喜", "欣慰", "歡樂", "幸福", "欣喜", "滿足",
                 "美好", "享受", "愜意", "舒暢", "樂觀", "愉悅", "笑", "歡笑", "微笑", "興高采烈", "眉飛色舞"]
    case Sadness => ["悲傷", "難過", "傷心", "哀痛", "憂愁", "痛苦", "悲痛", "哀傷", "悲哀", "憂鬱", "沮喪", "失落",
                     "消沉", "哭", "淚", "嘆息", "心酸", "惋惜", "遺憾", "失望", "無奈", "苦惱", "憂傷", "低落"]
    case Anger => ["憤怒", "生氣", "惱火", "氣憤", "火大", "怒氣", "暴怒", "發火", "憤恨", "怨恨", "惱怒", "不滿",
                   "不爽", "不快", "不悅", "煩躁", "惱人", "可惡", "討厭", "煩人", "忿忿不平", "義憤", "怒髮沖冠"]
    case Fear => ["恐懼", "害怕", "擔憂", "恐慌", "驚恐", "憂慮", "焦慮", "緊張", "懼怕", "畏懼", "膽怯", "提心吊膽",
                  "擔心", "怕", "憂心", "不安", "戰戰兢兢", "心驚肉跳", "惶恐", "危險", "威脅", "戰慄", "畏縮"]
    case Surprise => ["驚訝", "驚奇", "驚喜", "意外", "震驚", "吃驚", "詫異", "驚嘆", "難以置信", "目瞪口呆", "大吃一驚",
                      "出乎意料", "沒想到", "不可思議", "嚇一跳", "愕然", "錯愕", "驚詫", "驚愕", "出人意料"]
    case Disgust => ["厭惡", "噁心", "反感", "嫌棄", "排斥", "鄙視", "蔑視", "嫌惡", "討厭", "憎恨", "憎惡", "不屑",
                     "輕蔑", "唾棄", "看不起", "瞧不起", "齟齬", "作嘔", "不堪入目", "惡劣", "不齒", "痛恨"]
    case Anticipation => ["期待", "希望", "盼望", "憧憬", "展望", "向往", "渴望", "企盼", "嚮往", "預期", "等待",
                          "期盼", "指望", "冀望", "預測", "預感", "預想", "預見", "盼", "迫不及待"]
    case Trust => ["信任", "信賴", "相信", "信心", "確信", "依賴", "依靠", "信念", "忠誠", "忠實", "真誠", "可靠",
                   "坦率", "坦誠", "誠實", "誠懇", "誠意", "坦白", "篤定", "肯定", "篤信", "堅信"]
  }

  /** Words that negate the word right after them. */
  const NegationWords: seq<string> :=
    ["不", "沒", "無", "非", "別", "莫", "勿", "毫無", "不要", "不能", "不可", "不必", "未", "反"]

  /** The adverbs of each intensity level: at least five of them. */
  function DegreeWords(l: Level): (r: seq<string>)
    ensures |r| >= 5
  {
    match l
    case Extreme => ["極其", "極度", "極為", "極端", "極", "非常", "十分", "萬分", "極為", "異常", "格外", "超級", "頂級",
                     "最為", "無比", "最", "至極", "極致", "史無前例", "絕對", "徹底", "完全", "全然"]
    case High => ["很", "太", "特別", "相當", "尤其", "越發", "更加", "更為", "更", "挺", "蠻", "頗", "尤為",
                  "不少", "不小", "不乏", "甚", "甚為", "特", "之極", "分外"]
    case Moderate => ["比較", "較為", "略為", "略微", "略", "稍微", "稍稍", "稍", "稍許", "有點", "有些", "有一點",
                      "多少", "幾分"]
    case Low => ["一點點", "一絲", "一毫", "微微", "略微"]
  }

  /** The configuration the system ships with. */
  const Default: Config := Config(EmotionWords, NegationWords, DegreeWords)

  /**
   * The shipped negation list holds fourteen words, "不" first, and the
   * extreme level lists "極為" twice.
   */
  lemma ShippedTables()
    ensures |NegationWords| == 14 && NegationWords[0] == "不"
    ensures DegreeWords(Extreme)[2] == DegreeWords(Extreme)[8] == "極為"
  {
  }

  /** "討厭" is both an anger and a disgust word; "略微" is both a moderate and a low adverb. */
  lemma SharedWords()
    ensures "討厭" in EmotionWords(Anger) && "討厭" in EmotionWords(Disgust)
    ensures "略微" in DegreeWords(Moderate) && "略微" in DegreeWords(Low)
  {
    assert EmotionWords(Anger)[18] == "討厭" && EmotionWords(Disgust)[8] == "討厭";
    assert DegreeWords(Moderate)[3] == "略微" && DegreeWords(Low)[4] == "略微";
  }
}
