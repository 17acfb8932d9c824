# PTT sentiment core in Dafny

This project models the two computations at the heart of the PTT board
sentiment analyser:

- the **lexicon emotion scorer** (`analyze_emotion_types`);
- the **hourly aggregator** (`aggregate_emotions_by_hour`).

It also models the nearest-bucket lookup behind the time slider and the
paragraph splitter (`split_paragraphs`).

The scorer makes one left-to-right pass over the tokens of a document:

- A token is **negated** when the token right before it is a negation word.
- A token's **degree multiplier** comes from a degree adverb one or two
  tokens back. The values are extreme 2.0, high 1.5, moderate 1.0 and
  low 0.5.
- For every category whose word list holds the token:
  - the multiplier is added to that category's running total, or, when the
    token is negated, subtracted from it;
  - when negated, the multiplier is also added to the category's fixed
    redirect target;
  - a match counter goes up by one.
- After the pass, each total is clipped to [0, 5] and divided by 5.
- If nothing matched, every score is 0.

The aggregator works on documents that carry a timestamp and eight score
cells:

- Missing and non-numeric cells count as 0.
- Documents are grouped by the hour their timestamp falls in.
- Every category is averaged within its hour.
- Every hour from the earliest to the latest document gets a bucket, in
  ascending order. Hours without documents read 0.

The slider shows the bucket whose start is closest to the selected time. On a
tie it shows the first such bucket.

Modules, one per file:

- `Wrappers`: `Option`.
- `Emotions`: the eight categories, score vectors and the redirect table.
- `Lexicon`:
  - the configuration bundle (emotion lexicon, negation words, degree
    adverbs);
  - the tables the system ships with, as `Lexicon.Default`.
- `Scorer`:
  - the pass as pure functions, with lemmas about single steps and the whole
    pass;
  - the same pass as methods shaped like the Python loop, proved equal to
    the functions.
- `ScorerExamples`: worked cases on the shipped tables.
- `Paragraphs`: splitting on blank lines.
- `Aggregator`: hourly means, the hour range, order independence, coercion
  and range preservation.
- `AggregatorExamples`: worked cases.
- `Timeline`: the first-closest search over bucket start times.
- `Pipeline`: articles scored and aggregated end to end.

Behaviour of the code worth noting:

- **The redirect table is not symmetric.** Negated joy credits sadness and
  negated sadness credits joy. But negated trust credits disgust while negated
  disgust credits joy, and negated anticipation credits fear while negated
  fear credits trust. Anger and surprise have no target.
  See sentiment_analyzer.py:167-181.
- **The degree lookback does not always stop at the first adverb.** The offset
  loop ends only when the multiplier differs from 1.0. So a moderate adverb
  right before a trigger word does not hide an adverb two tokens back.
  See sentiment_analyzer.py:161-162.
- **"略微" is listed under both the moderate and the low level.** The moderate
  list is consulted first, so its low entry never takes effect.
- **"極為" is listed twice under the extreme level.** The repeat has no
  effect, since a level is matched by membership.
- **The aggregator reads every timestamp as a date.** It has no path that
  skips a document (app.py:29).
- **An empty word list simply matches nothing.** The scorer reads its tables
  as given (sentiment_analyzer.py:122).

## Model

| member | source | states |
|---|---|---|
| Emotions.AllEmotionsListsEvery | sentiment_analyzer.py:10-34 | the category order lists each of the eight lexicon keys, and none twice |
| Emotions.Redirect | sentiment_analyzer.py:167-181 | a negated category never credits itself; exactly anger and surprise have no redirect target |
| Emotions.RedirectNotSymmetric | sentiment_analyzer.py:168-179 | some redirect is not reversed (fear to trust, trust not to fear); joy is credited from sadness and disgust; anger and surprise are credited from nowhere |
| Emotions.ZeroScores | sentiment_analyzer.py:135 | every category is present and at 0 |
| Lexicon.EmotionWords | sentiment_analyzer.py:9-34 | the shipped lexicon gives every category at least twenty trigger words |
| Lexicon.DegreeWords | sentiment_analyzer.py:38-46 | the shipped adverb table gives every level at least five adverbs |
| Lexicon.ShippedTables | sentiment_analyzer.py:36-40 | the shipped negation list has fourteen words, "不" first; "極為" appears twice in the extreme list |
| Lexicon.SharedWords | sentiment_analyzer.py:16-45 | "討厭" is both an anger and a disgust word; "略微" is both a moderate and a low adverb |
| Lexicon.Rank | sentiment_analyzer.py:38-46 | each level sits at its own position of the consultation order extreme, high, moderate, low |
| Lexicon.LevelValue | sentiment_analyzer.py:152-159 | multipliers lie in [0.5, 2.0] and only the moderate level is neutral (1.0) |
| Scorer.FirstLevel | sentiment_analyzer.py:150-160 | the result is the first level of the list whose adverbs hold the word; no result exactly when no level holds it |
| Scorer.LevelOf | sentiment_analyzer.py:150-160 | the level found holds the word and no earlier-ranked level does; no level exactly when the word is in no adverb list |
| Scorer.Multiplier | sentiment_analyzer.py:146-162 | a token's multiplier lies in [0.5, 2.0], and the first token's is 1.0 since nothing precedes it |
| Scorer.MultiplierRule | sentiment_analyzer.py:146-162 | a non-moderate adverb at i-1 decides; otherwise the adverb at i-2 (if any) decides; otherwise 1.0; always within [0.5, 2.0] |
| Scorer.DegreeMultiplier | sentiment_analyzer.py:146-162 | the loop over offsets 1 and 2, leaving only on a multiplier other than 1.0, computes the multiplier of the rule |
| Scorer.StepWindow | sentiment_analyzer.py:141-162 | whether a token is negated, its multiplier, and so its whole step, depend only on the token and the two before it |
| Scorer.Start | sentiment_analyzer.py:135-136 | every running total starts at 0 and the match counter at 0 |
| Scorer.Credit | sentiment_analyzer.py:166-183 | a plain hit adds the multiplier to its category; a negated hit subtracts it there and adds it to the redirect target; no other category changes |
| Scorer.CreditCategory | sentiment_analyzer.py:164-184 | the code's chain of category tests gives the same totals and counter as the redirect table |
| Scorer.ConsiderAllEffect | sentiment_analyzer.py:164-184 | visiting the categories for one word grows the counter by the number of categories listing it, and moves each total by the weight of hits on it and of redirects to it |
| Scorer.Step | sentiment_analyzer.py:141-184 | one token raises the match counter by at most one per category and never lowers it |
| Scorer.Pass | sentiment_analyzer.py:141-184 | over the rest of the tokens the match counter never goes down |
| Scorer.PlainStep | sentiment_analyzer.py:164-184 | a token that is not negated adds its multiplier to exactly the categories listing it and counts one match per such category |
| Scorer.NegatedStep | sentiment_analyzer.py:142-184 | a negated token takes its multiplier from every category listing it and gives it to those categories' redirect targets |
| Scorer.NegatedSingleCategory | sentiment_analyzer.py:167-184 | a negated word of one category moves its weight from that category to the redirect target, changes nothing else and counts once |
| Scorer.StepCounts | sentiment_analyzer.py:164-184 | a token grows the counter by the number of categories listing it; a token listed nowhere changes no total |
| Scorer.MatchedZeroIff | sentiment_analyzer.py:164-184 | the counter ends at 0 exactly when it started at 0 and no remaining token is a trigger word of any category |
| Scorer.UnmatchedStaysZero | sentiment_analyzer.py:164-184 | totals that start at 0 stay at 0 if the counter did not move |
| Scorer.NoTriggersScoreZero | sentiment_analyzer.py:164-197 | the counter ends at 0 exactly when no token is a trigger word, and then every total and every score is 0 |
| Scorer.Normalize | sentiment_analyzer.py:190-193 | the value lies in [0, 1]; it is 0 exactly for totals at most 0, 1 exactly for totals at least 5, and proportional in between |
| Scorer.Finish | sentiment_analyzer.py:190-197 | every category present and in [0, 1]; all 0 when nothing matched, else each the normalised total |
| Scorer.Score | sentiment_analyzer.py:122-199 | the scores of a token list: complete, in [0, 1], all 0 without a match, else the normalised totals of the pass |
| Scorer.RedirectChain | sentiment_analyzer.py:167-179 | the code's chain of tests on a negated category adds the score to exactly the category's redirect target, and changes nothing for anger and surprise |
| Scorer.ProcessToken | sentiment_analyzer.py:141-184 | the loop over the categories for one token computes the step of the pass |
| Scorer.Normalise | sentiment_analyzer.py:192-197 | clipping and scaling followed by the all-zero override gives the finished scores |
| Scorer.AnalyzeEmotionTypes | sentiment_analyzer.py:122-199 | the imperative pass yields complete scores in [0, 1], equal to the functional score |
| ScorerExamples.HappyOnlyJoy | sentiment_analyzer.py:11-33 | "開心" is a joy word and a word of no other category |
| ScorerExamples.NotIsPlainNegation | sentiment_analyzer.py:36-46 | "不" is a negation word, no degree adverb, and neither a joy nor a sadness word |
| ScorerExamples.SlightlyIsModerate | sentiment_analyzer.py:43-45 | "略微" is listed as moderate and as low, resolves to moderate, and is neutral |
| ScorerExamples.VeryIsExtreme | sentiment_analyzer.py:39 | "非常" is an extreme adverb with multiplier 2.0 |
| ScorerExamples.ModerateDoesNotShadow | sentiment_analyzer.py:147-162 | in 非常 有點 開心 the extreme adverb two back still applies: multiplier 2.0 |
| ScorerExamples.StrongShadows | sentiment_analyzer.py:147-162 | in 非常 一點點 開心 the low adverb right before wins: multiplier 0.5 |
| ScorerExamples.HateCountsTwice | sentiment_analyzer.py:164-197 | "討厭" alone scores 0.2 in both anger and disgust |
| ScorerExamples.PlainHappy | sentiment_analyzer.py:164-197 | "開心" alone scores 0.2 in joy |
| ScorerExamples.TriggerAfter | sentiment_analyzer.py:141-197 | for two tokens whose second is an unnegated trigger of `c`, `c` scores the normalised multiplier |
| ScorerExamples.NegatedTriggerAfter | sentiment_analyzer.py:141-197 | a negation word followed by a single-category trigger: that category scores 0 and its redirect target the normalised multiplier |
| ScorerExamples.VeryHappy | sentiment_analyzer.py:146-197 | 非常 開心 scores 0.4 in joy |
| ScorerExamples.NotHappy | sentiment_analyzer.py:141-197 | 不 開心 scores 0 in joy and 0.2 in sadness |
| Paragraphs.FindBreak | sentiment_analyzer.py:74-77 | the leftmost separator at or after a position, or none exactly when there is no separator from there on |
| Paragraphs.SplitParagraphs | sentiment_analyzer.py:74-77 | at least one piece; the pieces joined with the separator give the text back; no piece holds a separator; no piece but the last ends with a newline |
| Paragraphs.SplitUnique | sentiment_analyzer.py:74-77 | any decomposition with those properties is the split |
| Paragraphs.SplitJoin | sentiment_analyzer.py:74-77 | splitting the join of well-formed pieces returns the pieces |
| Paragraphs.NoBreakOnePiece | sentiment_analyzer.py:74-77 | a text is a single paragraph exactly when it holds no separator |
| Paragraphs.ThreeNewlines | sentiment_analyzer.py:74-77 | "a\n\n\nb" splits as "a", "\nb"; the empty text is one empty paragraph; a bare separator gives two empty ones |
| Aggregator.HourOf | app.py:38 | a timestamp lies in the hour whose start is at most the timestamp and whose successor starts after it |
| Aggregator.Value | app.py:32-35 | a missing column or non-numeric cell reads 0, a number reads itself |
| Aggregator.TotalPermutation | app.py:37-38 | hourly counts and sums depend only on the multiset of documents |
| Aggregator.CountZero | app.py:37-38 | an hour's count is 0 exactly when no document falls in it, and then every sum there is 0 |
| Aggregator.MeanIn | app.py:37-38 | an hour that no document falls in has mean 0 in every category |
| Aggregator.MeanTimesCount | app.py:37-38 | an hour's mean times its document count is its sum, so the mean is the arithmetic mean |
| Aggregator.MinHour | app.py:38 | no document's hour is earlier than the result |
| Aggregator.MaxHour | app.py:38 | no document's hour is later than the result |
| Aggregator.HoursAttained | app.py:38 | the earliest and the latest hour are each some document's hour |
| Aggregator.Aggregate | app.py:24-39 | the output is empty exactly when the input is |
| Aggregator.AggregateLength | app.py:38 | one bucket for each hour from the earliest to the latest document, both included |
| Aggregator.AggregateHours | app.py:38 | bucket `k` starts `k` hours after the earliest document's hour: ascending, one hour apart, no gaps |
| Aggregator.AggregateMeans | app.py:37-38 | each bucket holds its hour's mean of every category |
| Aggregator.AggregateAt | app.py:37-38 | bucket `k` is the bucket of the `k`-th hour of the range |
| Aggregator.EmptyHourAllZero | app.py:37-38 | a bucket whose hour holds no document is complete and reads 0 in every category |
| Aggregator.AggregateSame | app.py:37-38 | lists with the same hour range and the same hourly counts and sums aggregate alike |
| Aggregator.AggregatePermutation | app.py:37-38 | reordering the input documents does not change the buckets |
| Aggregator.CoercionInvariant | app.py:32-35 | documents agreeing on timestamps and coerced values aggregate alike, so missing, non-numeric and 0 are interchangeable |
| Aggregator.MeanInUnit | app.py:37-38 | a mean of values in [0, 1] lies in [0, 1] |
| Aggregator.AggregateInUnit | app.py:37-38 | if every input value lies in [0, 1], every bucket is complete and in [0, 1] |
| Aggregator.AppendDoc | app.py:37-38 | an added document raises its hour's count by one and its sums by its values; a duplicate counts twice |
| AggregatorExamples.SameHourMean | app.py:37-38 | two documents in one hour give one bucket with their mean, and 0 for a category neither carries |
| AggregatorExamples.DuplicateWeighsTwice | app.py:37-38 | a document present twice weighs twice in the hour's mean |
| AggregatorExamples.MissingIsZero | app.py:32-35 | a missing column counts as 0 in the mean |
| AggregatorExamples.NonNumericIsMissing | app.py:35 | a non-numeric cell aggregates exactly like a missing column |
| AggregatorExamples.GapHoursReadZero | app.py:37-38 | documents three hours apart give four buckets, the two empty hours reading 0 in every category |
| AggregatorExamples.GapHoursLastBucket | app.py:37-38 | in the same input the third bucket starts two hours after the first, and the last holds the later document's value |
| AggregatorExamples.EmptyInput | app.py:26-27 | no documents, no buckets |
| Timeline.Distance | app.py:199-200 | the absolute difference in seconds: 0 exactly for equal instants |
| Timeline.ClosestIndex | app.py:199-201 | the index returned is closest to the selection and no earlier index is as close |
| Timeline.FirstClosestUnique | app.py:201 | at most one index is the first closest |
| Timeline.ExactTimeSelected | app.py:199-202 | on strictly ascending times, selecting a listed time picks that time's index |
| Timeline.SliderShowsBucket | app.py:184-202 | selecting the start of an aggregated bucket shows that very bucket |
| Timeline.TieGoesToEarlier | app.py:144-147 | a selection halfway between two buckets shows the earlier one |
| Pipeline.ScoreArticle | sentiment_analyzer.py:227-232 | a scored article keeps its timestamp and carries its eight scores as numeric cells |
| Pipeline.ScoreAll | sentiment_analyzer.py:227-232 | every article is scored, in order |
| Pipeline.PipelineInUnit | app.py:121-123 | every hourly value computed from scored articles is complete and lies in [0, 1] |

## Left out

- Word segmentation (`SnowNLP(text).words`, sentiment_analyzer.py:138-139) is a foreign library. The scorer starts from the token sequence.
- The SnowNLP polarity score (`analyze_article_sentiment`) is a foreign call.
- data_fetcher.py is HTTP fetching, scraping, date parsing and session caching.
- config.py is not part of this model. Its category list is taken to be the eight lexicon keys in lexicon order.
- `analyze_sentiment_batch` is a progress-bar loop over DataFrame rows. Only its effect is modelled: `Pipeline.ScoreAll` scores every article.
- Font lookup, colour, emoji and coordinate tables, radar charts, Streamlit widgets, and CSV export and download are presentation only.
- The slider widget itself is not modelled. The selected time is a parameter of `Timeline.ClosestIndex`.
- Floating point is not modelled. Multipliers, totals, clipping and means are exact reals, so rounding in sums and divisions is not represented.
- Timestamps are integer seconds. Parsing (`pd.to_datetime`), its errors, time zones and sub-second precision are not modelled. A parse error raises in the code, which has no rejection path.
- The cache decorator on the aggregator and the session state between reruns are not modelled.
- Aggregator.Aggregate: buckets are indexed by hour number from the epoch. The datetime index labels of the output frame are represented by each bucket's first second.
