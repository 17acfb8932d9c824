/**
 * The path from articles to hourly buckets: each article's tokens are
 * scored, the scores become the article's numeric cells, and the scored
 * articles are aggregated by hour.
 */
module Pipeline {
  import opened Emotions
  import opened Lexicon
  import opened Scorer
  import opened Aggregator

  /** An article: its timestamp in seconds and its segmented words. */
  datatype Article = Article(timestamp: int, words: seq<string>)

  /** The scored document of an article: every category a numeric cell. */
  function ScoreArticle(cfg: Config, a: Article): (r: Doc)
    ensures r.timestamp == a.timestamp
    ensures forall e: Emotion :: Value(r, e) == Score(cfg, a.words)[e]
  {
    Doc(a.timestamp, map e: Emotion | true :: Num(Score(cfg, a.words)[e]))
  }

  /** Every article scored, in order. */
  function ScoreAll(cfg: Config, articles: seq<Article>): (r: seq<Doc>)
    ensures |r| == |articles|
    ensures forall k :: 0 <= k < |r| ==> r[k] == ScoreArticle(cfg, articles[k])
  {
    if |articles| == 0 then [] else [ScoreArticle(cfg, articles[0])] + ScoreAll(cfg, articles[1..])
  }

  /** Every hourly value computed from scored articles lies in [0, 1]. */
  lemma PipelineInUnit(cfg: Config, articles: seq<Article>)
    ensures forall k :: 0 <= k < |Aggregate(ScoreAll(cfg, articles))| ==>
      Complete(Aggregate(ScoreAll(cfg, articles))[k].means) && InUnitRange(Aggregate(ScoreAll(cfg, articles))[k].means)
  {
    var docs := ScoreAll(cfg, articles);
    forall k, e: Emotion | 0 <= k < |docs| ensures 0.0 <= Value(docs[k], e) <= 1.0 {
      assert Value(docs[k], e) == Score(cfg, articles[k].words)[e];
    }
    AggregateInUnit(docs);
  }
}
