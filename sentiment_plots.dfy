/** The chart projections of the customer-sentiment response models
    (models/response/customer_sentiment.py). Each record keeps only the
    fields its `get_plot_data` reads. */
module SentimentPlots {
  import opened Wrappers
  import opened Charts

  datatype SentimentPoint = SentimentPoint(periodStart: string, sentimentScore: real)
  datatype FeedbackItem = FeedbackItem(feedback: string, sentiment: string)
  datatype CompanySentiment = CompanySentiment(company: string, sentimentScore: real)
  datatype ReputationPoint = ReputationPoint(periodStart: string, reputationScore: real)

  /** `SentimentSummaryResponse.get_plot_data`: a line of the score per period. */
  function SentimentSummaryPlot(companyName: string, series: seq<SentimentPoint>): (r: ChartData)
    ensures WellFormed(r) && r.kind == Line && r.x == Some("period_start") && r.y == Some("sentiment_score")
    ensures |r.data| == |series|
    ensures forall i :: 0 <= i < |series| ==>
      Column(r.data[i], "period_start") == CStr(series[i].periodStart)
      && Column(r.data[i], "sentiment_score") == CReal(series[i].sentimentScore)
  {
    var rows := Project(series, "period_start", (t: SentimentPoint) => CStr(t.periodStart),
                        "sentiment_score", (t: SentimentPoint) => CReal(t.sentimentScore));
    ChartData(rows, Some("Sentiment Score Over Time for " + companyName), Some("period_start"), Some("sentiment_score"), Line)
  }

  /** The three sentiments the feedback chart counts, in the dict's order. */
  const FeedbackKeys: seq<string> := ["positive", "negative", "neutral"]

  function Sentiments(items: seq<FeedbackItem>): (r: seq<string>)
    ensures |r| == |items| && forall i :: 0 <= i < |items| ==> r[i] == items[i].sentiment
  {
    seq(|items|, i requires 0 <= i < |items| => items[i].sentiment)
  }

  /** How many items carry a sentiment other than the three exact keys
      (`"Positive"` included). */
  function Unrecognised(items: seq<FeedbackItem>): nat
    decreases |items|
  {
    if items == [] then 0
    else Unrecognised(items[..|items| - 1]) + (if items[|items| - 1].sentiment in FeedbackKeys then 0 else 1)
  }

  /** `{"positive": 0, "negative": 0, "neutral": 0}` */
  function ZeroCounts(): (c: Counts)
    ensures Keys(c) == FeedbackKeys
    ensures forall k :: CountOf(c, k) == 0
  {
    var c: Counts := [("positive", 0), ("negative", 0), ("neutral", 0)];
    forall k | k in FeedbackKeys
      ensures CountOf(c, k) == 0
    {
      assert c[1..][1..] == [("neutral", 0)];
    }
    forall k | k !in FeedbackKeys
      ensures CountOf(c, k) == 0
    {
      CountAbsent(c, k);
    }
    c
  }

  /** What the counts hold once the first `i` sentiments are counted. */
  ghost predicate CountedUpTo(counts: Counts, sentiments: seq<string>, i: nat)
    requires i <= |sentiments|
  {
    Keys(counts) == FeedbackKeys
    && forall k :: CountOf(counts, k) == if k in FeedbackKeys then Occurrences(sentiments[..i], k) else 0
  }

  /** Counting one more sentiment: only one of the three keys is incremented. */
  lemma FeedbackStep(counts: Counts, sentiments: seq<string>, i: nat)
    requires i < |sentiments| && CountedUpTo(counts, sentiments, i)
    ensures CountedUpTo(if sentiments[i] in FeedbackKeys then Bump(counts, sentiments[i]) else counts, sentiments, i + 1)
  {
    assert sentiments[..i + 1][..i] == sentiments[..i];
    BumpCounts(counts, sentiments[i]);
  }

  /** The loop of `CustomerFeedbackResponse.get_plot_data`. */
  method CountFeedback(items: seq<FeedbackItem>) returns (counts: Counts)
    ensures Keys(counts) == FeedbackKeys
    ensures forall k :: CountOf(counts, k) == if k in FeedbackKeys then Occurrences(Sentiments(items), k) else 0
  {
    counts := ZeroCounts();
    ghost var sentiments := Sentiments(items);
    var i := 0;
    while i < |items|
      invariant 0 <= i <= |items|
      invariant CountedUpTo(counts, sentiments, i)
    {
      FeedbackStep(counts, sentiments, i);
      if items[i].sentiment in Keys(counts) {
        counts := Bump(counts, items[i].sentiment);
      }
      i := i + 1;
    }
    assert sentiments[..i] == sentiments;
  }

  /** `CustomerFeedbackResponse.get_plot_data`: starts from the three keys at
      0 and increments only exact matches, so the pie always has the same
      three slices in the same order. */
  method FeedbackPlot(companyName: string, items: seq<FeedbackItem>) returns (r: ChartData)
    ensures WellFormed(r) && r.kind == Pie && r.x == Some("sentiment") && r.y == Some("count")
    ensures |r.data| == 3
    ensures forall i :: 0 <= i < 3 ==>
      Column(r.data[i], "sentiment") == CStr(FeedbackKeys[i])
      && Column(r.data[i], "count") == CInt(Occurrences(Sentiments(items), FeedbackKeys[i]))
  {
    var counts := CountFeedback(items);
    forall j | 0 <= j < 3
      ensures counts[j].1 == CountOf(counts, FeedbackKeys[j])
    {
      CountAt(counts, j);
    }
    var rows := CountRows(counts, "sentiment", "count");
    r := ChartData(rows, Some("Customer Feedback Sentiment Distribution for " + companyName), Some("sentiment"), Some("count"), Pie);
  }

  /** The three counts and the unrecognised items partition the items, so
      the counts add up to `len(feedback_items)` exactly when every
      sentiment is one of the three keys, and never to more. */
  lemma {:induction false} FeedbackCountsPartition(items: seq<FeedbackItem>)
    ensures Occurrences(Sentiments(items), "positive") + Occurrences(Sentiments(items), "negative")
      + Occurrences(Sentiments(items), "neutral") + Unrecognised(items) == |items|
    ensures Unrecognised(items) == 0 <==> forall i :: 0 <= i < |items| ==> items[i].sentiment in FeedbackKeys
    decreases |items|
  {
    if items != [] {
      var init := items[..|items| - 1];
      FeedbackCountsPartition(init);
      assert Sentiments(items)[..|items| - 1] == Sentiments(init);
      assert forall i :: 0 <= i < |init| ==> init[i] == items[i];
    }
  }

  /** `BrandReputationResponse.get_plot_data`: a line of the reputation per period. */
  function BrandReputationPlot(companyName: string, series: seq<ReputationPoint>): (r: ChartData)
    ensures WellFormed(r) && r.kind == Line && r.x == Some("period_start") && r.y == Some("reputation_score")
    ensures |r.data| == |series|
    ensures forall i :: 0 <= i < |series| ==>
      Column(r.data[i], "period_start") == CStr(series[i].periodStart)
      && Column(r.data[i], "reputation_score") == CReal(series[i].reputationScore)
  {
    var rows := Project(series, "period_start", (t: ReputationPoint) => CStr(t.periodStart),
                        "reputation_score", (t: ReputationPoint) => CReal(t.reputationScore));
    ChartData(rows, Some("Brand Reputation Over Time for " + companyName), Some("period_start"), Some("reputation_score"), Line)
  }

  /** `SentimentComparisonResponse.get_plot_data`: the target company (under
      the response's `company_name`) first, then each competitor in order. */
  function SentimentComparisonPlot(companyName: string, target: CompanySentiment, competitors: seq<CompanySentiment>): (r: ChartData)
    ensures WellFormed(r) && r.kind == Bar && r.x == Some("company") && r.y == Some("sentiment_score")
    ensures |r.data| == 1 + |competitors|
    ensures Column(r.data[0], "company") == CStr(companyName)
    ensures Column(r.data[0], "sentiment_score") == CReal(target.sentimentScore)
    ensures forall i :: 0 <= i < |competitors| ==>
      Column(r.data[i + 1], "company") == CStr(competitors[i].company)
      && Column(r.data[i + 1], "sentiment_score") == CReal(competitors[i].sentimentScore)
  {
    var head := Row2("company", CStr(companyName), "sentiment_score", CReal(target.sentimentScore));
    var tail := Project(competitors, "company", (c: CompanySentiment) => CStr(c.company),
                        "sentiment_score", (c: CompanySentiment) => CReal(c.sentimentScore));
    var rows := [head] + tail;
    assert rows[0] == head;
    assert forall i :: 0 < i < |rows| ==> rows[i] == tail[i - 1];
    ChartData(rows, Some("Sentiment Comparison for " + companyName + " vs Competitors"), Some("company"), Some("sentiment_score"), Bar)
  }
}
