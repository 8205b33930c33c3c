/** Review sentiment analysis (components/FeedbackInsight.tsx).

    The view's two pieces of state are the fields of `FeedbackView`;
    `runAnalysis` is split at its `await` into `BeginRun` and `CompleteRun`.
    The `alert` shown on failure is returned as a value. */
module FeedbackInsight {
  import opened Wrappers
  import opened Types
  import JsStrings
  import GeminiService

  const AlertText := "分析失败，请检查 API Key"
  const PositiveSentiment := "正面"
  const PositiveClass := "text-green-600"
  const OtherClass := "text-orange-600"
  const StarCount := 5

  /** The five reviews the view analyses. Each text is written as a
      concatenation of short literals, equal to the original text, because the
      verifier cannot decide membership of '\n' in one long literal; the
      `ContentSingleLine` lemmas check the pieces one by one. */
  const MockReviews := [
    Review(1, "王先生", 5,
      "这次保养体验非常好，" + "通过微信提前预约，" + "到了之后完全不用排队。" + "接待的小李非常热情，" + "AI预估的价格和" + "最后结算几乎一样，透明度很高！",
      "2023-10-05"),
    Review(2, "张女士", 3,
      "维修技术没问题，但是休息区的咖啡机坏了也没人修，" + "等待时间有点长，希望改进环境设施。",
      "2023-10-06"),
    Review(3, "李先生", 4,
      "师傅很专业，一眼就看出了异响的问题。" + "不过配件调货等了两天，比预期的慢了一点。",
      "2023-10-08"),
    Review(4, "赵先生", 2,
      "价格偏贵，工时费比外面修理厂高太多了。" + "虽然服务态度还可以，但是性价比不高。",
      "2023-10-09"),
    Review(5, "孙女士", 5,
      "非常棒！车漆修复得完美无瑕，完全看不出来。" + "而且还免费帮忙洗了车，很贴心。",
      "2023-10-10")
  ]

  /** `reviews.map(r => r.content)`: the same length, each review's text in place. */
  function ReviewTexts(reviews: seq<Review>): (texts: seq<string>)
    ensures |texts| == |reviews|
    ensures forall i :: 0 <= i < |reviews| ==> texts[i] == reviews[i].content
  {
    if reviews == [] then [] else [reviews[0].content] + ReviewTexts(reviews[1..])
  }

  /** No mock review text contains a line break. */
  lemma MockContentsSingleLine()
    ensures forall i :: 0 <= i < |MockReviews| ==> '\n' !in MockReviews[i].content
  {
    ContentSingleLine0();
    ContentSingleLine1();
    ContentSingleLine2();
    ContentSingleLine3();
    ContentSingleLine4();
  }

  lemma ContentSingleLine0()
    ensures '\n' !in MockReviews[0].content
  {
    assert '\n' !in "这次保养体验非常好，";
    assert '\n' !in "通过微信提前预约，";
    assert '\n' !in "到了之后完全不用排队。";
    assert '\n' !in "接待的小李非常热情，";
    assert '\n' !in "AI预估的价格和";
    assert '\n' !in "最后结算几乎一样，透明度很高！";
  }

  lemma ContentSingleLine1()
    ensures '\n' !in MockReviews[1].content
  {
    assert '\n' !in "维修技术没问题，但是休息区的咖啡机坏了也没人修，";
    assert '\n' !in "等待时间有点长，希望改进环境设施。";
  }

  lemma ContentSingleLine2()
    ensures '\n' !in MockReviews[2].content
  {
    assert '\n' !in "师傅很专业，一眼就看出了异响的问题。";
    assert '\n' !in "不过配件调货等了两天，比预期的慢了一点。";
  }

  lemma ContentSingleLine3()
    ensures '\n' !in MockReviews[3].content
  {
    assert '\n' !in "价格偏贵，工时费比外面修理厂高太多了。";
    assert '\n' !in "虽然服务态度还可以，但是性价比不高。";
  }

  lemma ContentSingleLine4()
    ensures '\n' !in MockReviews[4].content
  {
    assert '\n' !in "非常棒！车漆修复得完美无瑕，完全看不出来。";
    assert '\n' !in "而且还免费帮忙洗了车，很贴心。";
  }

  /** The batch is five reviews with ratings between 1 and 5, and no review text
      contains a line break, so the prompt separates them unambiguously: its
      body splits back into exactly the review texts, in list order. */
  lemma MockBatch()
    ensures |MockReviews| == 5
    ensures forall i :: 0 <= i < |MockReviews| ==> 1 <= MockReviews[i].rating <= StarCount
    ensures var prompt := GeminiService.FeedbackPrompt(ReviewTexts(MockReviews));
      JsStrings.Split(prompt[|GeminiService.FeedbackPromptPrefix|..], GeminiService.ReviewSeparator) == ReviewTexts(MockReviews)
  {
    var texts := ReviewTexts(MockReviews);
    MockContentsSingleLine();
    GeminiService.FeedbackPromptRoundTrip(texts);
  }

  datatype FeedbackState = FeedbackState(analysis: Option<FeedbackAnalysis>, loading: bool)

  const Initial := FeedbackState(None, false)

  /** `runAnalysis` up to the `await`: loading is set and the review texts are
      handed to `analyzeCustomerFeedback`. There is no guard of its own. */
  function StartRun(s: FeedbackState): (FeedbackState, seq<string>) {
    (s.(loading := true), ReviewTexts(MockReviews))
  }

  /** `runAnalysis` after the `await`, including its `finally`; the second
      component is the text of the alert raised, if any. */
  function FinishRun(s: FeedbackState, outcome: Result<FeedbackAnalysis, string>): (FeedbackState, Option<string>)
    requires s.loading
  {
    match outcome
    case Success(result) => (FeedbackState(Some(result), false), None)
    case Failure(_) => (s.(loading := false), Some(AlertText))
  }

  /** The run button's `disabled`. */
  predicate RunDisabled(s: FeedbackState) {
    s.loading
  }

  /** A run sends the content of every mock review, in list order. */
  lemma StartRunSendsBatch(s: FeedbackState)
    ensures var (t, batch) := StartRun(s);
      && t.loading && RunDisabled(t) && t.analysis == s.analysis
      && |batch| == |MockReviews| == 5
      && forall i :: 0 <= i < |batch| ==> batch[i] == MockReviews[i].content
  {
  }

  /** Loading is over after either outcome; success supersedes the analysis
      and raises nothing, failure keeps the earlier analysis and raises the alert. */
  lemma FinishRunOutcome(s: FeedbackState, outcome: Result<FeedbackAnalysis, string>)
    requires s.loading
    ensures var (t, alert) := FinishRun(s, outcome);
      && !t.loading && !RunDisabled(t)
      && (outcome.Success? ==> t.analysis == Some(outcome.value) && alert.None?)
      && (outcome.Failure? ==> t.analysis == s.analysis && alert == Some(AlertText))
  {
  }

  /** A run through the gateway: the model sees the five reviews in the
      prompt; a missing key, a failed call or an empty response keeps the
      earlier analysis and raises the alert. */
  lemma RunThroughGateway(
    s: FeedbackState, apiKey: Option<string>,
    generate: GeminiService.GenerateRequest -> GeminiService.SdkReply,
    parse: string -> Result<FeedbackAnalysis, string>)
    ensures var (started, batch) := StartRun(s);
      var reply := generate(GeminiService.FeedbackRequest(batch));
      var (done, alert) := FinishRun(started, GeminiService.AnalyzeCustomerFeedback(apiKey, batch, generate, parse));
      && !done.loading
      && (!GeminiService.HasApiKey(apiKey) || reply.Failed? || !JsStrings.Truthy(reply.text) ==>
            done.analysis == s.analysis && alert == Some(AlertText))
      && (GeminiService.HasApiKey(apiKey) && reply.Replied? && JsStrings.Truthy(reply.text)
          && parse(reply.text.value).Success? ==>
            done.analysis == Some(parse(reply.text.value).value) && alert.None?)
  {
  }

  /** `[...Array(n)].map((_, i) => i < rating)`: whether each of the first n stars is filled. */
  function Fills(n: nat, rating: int): (fills: seq<bool>)
    ensures |fills| == n
    ensures forall i :: 0 <= i < n ==> (fills[i] <==> i < rating)
  {
    if n == 0 then [] else Fills(n - 1, rating) + [n - 1 < rating]
  }

  function StarFills(rating: int): seq<bool> {
    Fills(StarCount, rating)
  }

  function CountFilled(fills: seq<bool>): nat {
    if fills == [] then 0
    else CountFilled(fills[..|fills| - 1]) + (if fills[|fills| - 1] then 1 else 0)
  }

  /** Of n stars, as many are filled as the rating, cut to the range 0..n. */
  lemma {:induction false} FilledCount(n: nat, rating: int)
    ensures CountFilled(Fills(n, rating)) == if rating <= 0 then 0 else if rating >= n then n else rating
  {
    if n > 0 {
      FilledCount(n - 1, rating);
      assert Fills(n, rating)[..n - 1] == Fills(n - 1, rating);
    }
  }

  /** A rating r between 0 and 5 shows exactly r filled stars, the first r. */
  lemma StarFillsRating(rating: int)
    requires 0 <= rating <= StarCount
    ensures CountFilled(StarFills(rating)) == rating
    ensures forall i :: 0 <= i < StarCount ==> (StarFills(rating)[i] <==> i < rating)
  {
    FilledCount(StarCount, rating);
  }

  /** The sentiment is shown green exactly when it is the string "正面", and
      orange otherwise. */
  function SentimentClass(sentiment: string): (cls: string)
    ensures cls == PositiveClass <==> sentiment == PositiveSentiment
    ensures cls == PositiveClass || cls == OtherClass
  {
    if sentiment == PositiveSentiment then PositiveClass else OtherClass
  }

  class FeedbackView {
    var analysis: Option<FeedbackAnalysis>
    var loading: bool

    function State(): FeedbackState
      reads this
    {
      FeedbackState(analysis, loading)
    }

    constructor ()
      ensures State() == Initial
    {
      analysis, loading := None, false;
    }

    /** Returns the batch handed to the gateway. */
    method BeginRun() returns (batch: seq<string>)
      modifies this
      ensures (State(), batch) == StartRun(old(State()))
    {
      loading := true;
      batch := ReviewTexts(MockReviews);
    }

    /** Settles the run with the outcome of `analyzeCustomerFeedback`;
        returns the alert text shown, if any. */
    method CompleteRun(outcome: Result<FeedbackAnalysis, string>) returns (alert: Option<string>)
      requires loading
      modifies this
      ensures (State(), alert) == FinishRun(old(State()), outcome)
    {
      alert := None;
      match outcome {
        case Success(result) => analysis := Some(result);
        case Failure(_) => alert := Some(AlertText);
      }
      loading := false;
    }
  }
}
