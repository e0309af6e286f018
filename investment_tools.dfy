/**
 * The deterministic portfolio calculators: metrics over a ticker-to-amount
 * mapping, the profile-based stock/bond split, the count-based
 * diversification score and the keyword-based recommendation text.
 */
module InvestmentTools {
  import opened Wrappers

  // ---------------------------------------------------------------------
  // Holdings
  // ---------------------------------------------------------------------

  /** One entry of a holdings dictionary: a ticker and the amount held. */
  datatype Holding = Holding(ticker: string, amount: real)

  /**
   * A ticker-to-amount dictionary, listed in its iteration (insertion)
   * order. A dictionary has each key once, see DistinctTickers.
   */
  type Holdings = seq<Holding>

  predicate DistinctTickers(h: Holdings) {
    forall i, j :: 0 <= i < j < |h| ==> h[i].ticker != h[j].ticker
  }

  /** The key set of the dictionary. */
  function Tickers(h: Holdings): set<string> {
    set i | 0 <= i < |h| :: h[i].ticker
  }

  /**
   * `sum(holdings.values())`: 0 for no holdings; when no amount is
   * negative, the total is at least every single amount.
   */
  function Total(h: Holdings): (t: real)
    ensures h == [] ==> t == 0.0
    ensures (forall i :: 0 <= i < |h| ==> h[i].amount >= 0.0) ==>
      t >= 0.0 && forall i :: 0 <= i < |h| ==> h[i].amount <= t
  {
    if h == [] then 0.0
    else
      assert forall i :: 0 <= i < |h[1..]| ==> h[1..][i] == h[i + 1];
      h[0].amount + Total(h[1..])
  }

  /** The percentage of `total` that `amount` makes up: `amount / total * 100`. */
  function Percentage(amount: real, total: real): real
    requires total != 0.0
  {
    amount / total * 100.0
  }

  /**
   * `k` is the position `max(holdings.items(), key=amount)` picks: its
   * amount is maximal, and every earlier amount is strictly smaller
   * (so on a tie the first such key in iteration order wins).
   */
  predicate LargestAt(h: Holdings, k: nat) {
    && k < |h|
    && (forall i :: 0 <= i < |h| ==> h[i].amount <= h[k].amount)
    && (forall i :: 0 <= i < k ==> h[i].amount < h[k].amount)
  }

  /**
   * The scan `max` performs: keep the first candidate, replace it only by a
   * strictly larger amount.
   */
  function FirstLargestIndex(h: Holdings): (k: nat)
    requires h != []
    ensures LargestAt(h, k)
  {
    if |h| == 1 then 0
    else
      var k := FirstLargestIndex(h[..|h| - 1]);
      if h[|h| - 1].amount > h[k].amount then |h| - 1 else k
  }

  /** At most one position satisfies LargestAt, so it pins down `largest_position`. */
  lemma LargestAtIsUnique(h: Holdings, k1: nat, k2: nat)
    requires LargestAt(h, k1) && LargestAt(h, k2)
    ensures k1 == k2
  {
    assert h[k2].amount <= h[k1].amount && h[k1].amount <= h[k2].amount;
  }

  /** A dictionary has as many keys as entries. */
  lemma {:induction false} TickerCount(h: Holdings)
    requires DistinctTickers(h)
    ensures |Tickers(h)| == |h|
  {
    if h != [] {
      var rest := h[1..];
      assert DistinctTickers(rest) by {
        forall i, j | 0 <= i < j < |rest| ensures rest[i].ticker != rest[j].ticker {
          assert rest[i] == h[i + 1] && rest[j] == h[j + 1];
        }
      }
      TickerCount(rest);
      assert Tickers(h) == {h[0].ticker} + Tickers(rest) by {
        forall t | t in Tickers(h) ensures t in {h[0].ticker} + Tickers(rest) {
          var i :| 0 <= i < |h| && h[i].ticker == t;
          if i > 0 { assert rest[i - 1] == h[i]; }
        }
        forall t | t in Tickers(rest) ensures t in Tickers(h) {
          var i :| 0 <= i < |rest| && rest[i].ticker == t;
          assert h[i + 1] == rest[i];
        }
      }
      forall i | 0 <= i < |rest| ensures rest[i].ticker != h[0].ticker {
        assert rest[i] == h[i + 1];
      }
    }
  }

  // ---------------------------------------------------------------------
  // calculate_portfolio_metrics
  // ---------------------------------------------------------------------

  datatype PortfolioMetrics = PortfolioMetrics(
    totalValue: real,
    allocation: map<string, real>,
    numHoldings: nat,
    largestPosition: Option<string>)

  /** `{ticker: amount / total * 100 for ticker, amount in holdings.items()}`. */
  function Allocation(h: Holdings, total: real): (m: map<string, real>)
    requires DistinctTickers(h)
    requires h != [] ==> total != 0.0
    ensures m.Keys == Tickers(h)
    ensures forall i :: 0 <= i < |h| ==> m[h[i].ticker] == Percentage(h[i].amount, total)
  {
    var m := map i | 0 <= i < |h| :: h[i].ticker := Percentage(h[i].amount, total);
    assert forall i :: 0 <= i < |h| ==> m[h[i].ticker] == Percentage(h[i].amount, total) by {
      forall i | 0 <= i < |h| ensures m[h[i].ticker] == Percentage(h[i].amount, total) {
        assert h[i].ticker in m;
      }
    }
    m
  }

  /** The arithmetic fault the Python function raises. */
  datatype MetricsError = DivisionByZero

  /**
   * Total value, per-ticker percentage allocation, number of holdings and
   * the largest position. Empty holdings divide by nothing and report
   * total 0 and no largest position; non-empty holdings that sum to zero
   * fail with a division by zero, as `amount / total_value` does.
   */
  function CalculatePortfolioMetrics(h: Holdings): (r: Result<PortfolioMetrics, MetricsError>)
    requires DistinctTickers(h)
    ensures r.Failure? <==> h != [] && Total(h) == 0.0
    ensures r.Success? ==> r.value.totalValue == Total(h)
    ensures r.Success? ==> r.value.allocation.Keys == Tickers(h)
    ensures r.Success? ==> forall i :: 0 <= i < |h| ==>
      r.value.allocation[h[i].ticker] == Percentage(h[i].amount, Total(h))
    ensures r.Success? ==> r.value.numHoldings == |h| == |r.value.allocation|
    ensures r.Success? ==> (r.value.largestPosition == None <==> h == [])
    ensures r.Success? && h != [] ==>
      exists k: nat :: LargestAt(h, k) && r.value.largestPosition == Some(h[k].ticker)
  {
    var total := Total(h);
    if h != [] && total == 0.0 then Failure(DivisionByZero)
    else
      var allocation := Allocation(h, total);
      TickerCount(h);
      var largest := if h == [] then None else Some(h[FirstLargestIndex(h)].ticker);
      Success(PortfolioMetrics(total, allocation, |h|, largest))
  }

  /** The sum of the values `m` gives the tickers of `h`, in order. */
  function SumOver(h: Holdings, m: map<string, real>): real
    requires forall i :: 0 <= i < |h| ==> h[i].ticker in m
  {
    if h == [] then 0.0 else m[h[0].ticker] + SumOver(h[1..], m)
  }

  lemma {:induction false} PercentagesSum(h: Holdings, m: map<string, real>, total: real)
    requires total != 0.0
    requires forall i :: 0 <= i < |h| ==> h[i].ticker in m && m[h[i].ticker] == Percentage(h[i].amount, total)
    ensures SumOver(h, m) == Percentage(Total(h), total)
  {
    if h != [] {
      assert forall i :: 0 <= i < |h[1..]| ==> h[1..][i] == h[i + 1];
      PercentagesSum(h[1..], m, total);
      PercentageAdds(h[0].amount, Total(h[1..]), total);
    }
  }

  lemma PercentageAdds(a: real, b: real, total: real)
    requires total != 0.0
    ensures Percentage(a, total) + Percentage(b, total) == Percentage(a + b, total)
  {
  }

  lemma WholeIsHundredPercent(total: real)
    requires total != 0.0
    ensures Percentage(total, total) == 100.0
  {
  }

  /** With a non-zero total the allocation percentages add up to 100. */
  lemma AllocationSumsToHundred(h: Holdings)
    requires DistinctTickers(h)
    requires h != [] && Total(h) != 0.0
    ensures CalculatePortfolioMetrics(h).Success?
    ensures SumOver(h, CalculatePortfolioMetrics(h).value.allocation) == 100.0
  {
    var r := CalculatePortfolioMetrics(h);
    PercentagesSum(h, r.value.allocation, Total(h));
    WholeIsHundredPercent(Total(h));
  }

  /** The holdings of the repository's own metrics test. */
  const ExampleHoldings: Holdings :=
    [Holding("AAPL", 10000.0), Holding("MSFT", 5000.0), Holding("GOOGL", 3000.0)]

  lemma ExampleFacts()
    ensures DistinctTickers(ExampleHoldings)
    ensures Total(ExampleHoldings) == 18000.0
    ensures LargestAt(ExampleHoldings, 0)
  {
    var h := ExampleHoldings;
    assert h[1..] == [Holding("MSFT", 5000.0), Holding("GOOGL", 3000.0)];
    assert h[1..][1..] == [Holding("GOOGL", 3000.0)];
  }

  /** What the repository's metrics test expects of those holdings. */
  lemma ExamplePortfolioMetrics()
    ensures DistinctTickers(ExampleHoldings)
    ensures var r := CalculatePortfolioMetrics(ExampleHoldings);
      && r.Success?
      && r.value.totalValue == 18000.0
      && |r.value.allocation| == 3
      && r.value.numHoldings == 3
      && r.value.allocation["AAPL"] == 500.0 / 9.0
      && r.value.largestPosition == Some("AAPL")
  {
    ExampleFacts();
    var h := ExampleHoldings;
    var r := CalculatePortfolioMetrics(h);
    assert r.value.allocation[h[0].ticker] == Percentage(10000.0, 18000.0);
    var k: nat :| LargestAt(h, k) && r.value.largestPosition == Some(h[k].ticker);
    LargestAtIsUnique(h, k, 0);
  }

  // ---------------------------------------------------------------------
  // analyze_risk
  // ---------------------------------------------------------------------

  /** A recommended stock/bond split, in whole percent. */
  datatype Split = Split(stocks: nat, bonds: nat)

  /** The profile table; 0.3/0.7 and so on, as percentages. */
  const RiskFactors: map<string, Split> := map[
    "conservative" := Split(30, 70),
    "moderate" := Split(60, 40),
    "aggressive" := Split(90, 10)]

  /** The profile `analyze_risk` uses when none is given, and the split used for unknown profiles. */
  const DefaultRiskProfile: string := "moderate"

  datatype RiskAnalysis = RiskAnalysis(riskProfile: string, recommendedAllocation: Split)

  /**
   * The split for `riskProfile`, falling back to the moderate split for any
   * profile the table does not know. The holdings are accepted and ignored.
   */
  function AnalyzeRisk(holdings: Holdings, riskProfile: string := DefaultRiskProfile): (r: RiskAnalysis)
    ensures r.riskProfile == riskProfile
    ensures r.recommendedAllocation.stocks + r.recommendedAllocation.bonds == 100
    ensures riskProfile == "conservative" ==> r.recommendedAllocation == Split(30, 70)
    ensures riskProfile == "moderate" ==> r.recommendedAllocation == Split(60, 40)
    ensures riskProfile == "aggressive" ==> r.recommendedAllocation == Split(90, 10)
    ensures riskProfile !in {"conservative", "moderate", "aggressive"} ==>
      r.recommendedAllocation == Split(60, 40)
  {
    var allocation := if riskProfile in RiskFactors then RiskFactors[riskProfile]
                      else RiskFactors[DefaultRiskProfile];
    RiskAnalysis(riskProfile, allocation)
  }

  /** Called without a profile, the analysis is for the moderate profile. */
  lemma RiskDefaultsToModerate(holdings: Holdings)
    ensures AnalyzeRisk(holdings).riskProfile == "moderate"
    ensures AnalyzeRisk(holdings).recommendedAllocation == Split(60, 40)
  {
  }

  /** What the holdings contain has no influence on the analysis. */
  lemma RiskIgnoresHoldings(h1: Holdings, h2: Holdings, riskProfile: string)
    ensures AnalyzeRisk(h1, riskProfile) == AnalyzeRisk(h2, riskProfile)
  {
  }

  // ---------------------------------------------------------------------
  // get_diversification_score
  // ---------------------------------------------------------------------

  const FewHoldingsAdvice: string := "Consider adding more holdings for better diversification"
  const ModerateAdvice: string := "Your portfolio is moderately diversified"
  const GoodAdvice: string := "Your portfolio shows good diversification"

  datatype DiversificationReport = DiversificationReport(
    diversificationScore: nat,
    numHoldings: nat,
    recommendation: string)

  /**
   * The score is a step function of the number of holdings (the sectors
   * are not looked at): below 3 it is 20, below 8 it is 60, else 85.
   */
  function GetDiversificationScore(holdings: map<string, string>): (r: DiversificationReport)
    ensures r.numHoldings == |holdings|
    ensures r.diversificationScore == 20 <==> |holdings| < 3
    ensures r.diversificationScore == 60 <==> 3 <= |holdings| < 8
    ensures r.diversificationScore == 85 <==> 8 <= |holdings|
    ensures r.recommendation ==
      if r.diversificationScore == 20 then FewHoldingsAdvice
      else if r.diversificationScore == 60 then ModerateAdvice
      else GoodAdvice
  {
    var n := |holdings|;
    if n < 3 then DiversificationReport(20, n, FewHoldingsAdvice)
    else if n < 8 then DiversificationReport(60, n, ModerateAdvice)
    else DiversificationReport(85, n, GoodAdvice)
  }

  /** More holdings never lower the score. */
  lemma DiversificationMonotone(a: map<string, string>, b: map<string, string>)
    requires |a| <= |b|
    ensures GetDiversificationScore(a).diversificationScore <= GetDiversificationScore(b).diversificationScore
  {
  }

  // ---------------------------------------------------------------------
  // generate_investment_recommendation
  // ---------------------------------------------------------------------

  /** A keyword and the canned text returned when it occurs in the query. */
  datatype Rule = Rule(keyword: string, text: string)

  /** The keyword table, in the dictionary's iteration order. */
  const Recommendations: seq<Rule> := [
    Rule("diversification", "Diversification is key to managing risk. Consider allocating your investments across different asset classes, sectors, and geographies."),
    Rule("long-term", "For long-term investing, consider dollar-cost averaging and maintaining a disciplined investment strategy."),
    Rule("risk", "Understanding your risk tolerance is crucial. Align your portfolio with your financial goals and time horizon."),
    Rule("bonds", "Bonds can provide stability and income. Consider your duration and credit risk carefully."),
    Rule("stocks", "Stocks offer growth potential but come with volatility. Focus on quality companies and long-term prospects.")]

  const BalancedAdvice: string := "I recommend taking a balanced approach to investing that aligns with your financial goals and risk tolerance."

  /**
   * ASCII lower-casing of one character: capitals A-Z become the matching
   * small letter, every other character is kept.
   */
  function LowerChar(c: char): (r: char)
    ensures !('A' <= r <= 'Z')
    ensures 'A' <= c <= 'Z' ==> 'a' <= r <= 'z' && r as int - c as int == 'a' as int - 'A' as int
    ensures !('A' <= c <= 'Z') ==> r == c
  {
    if 'A' <= c <= 'Z' then (c as int + 32) as char else c
  }

  /**
   * `str.lower()`, restricted to ASCII letters: same length, no capital
   * left, and every character that is not a capital unchanged.
   */
  function Lower(s: string): (r: string)
    ensures |r| == |s|
    ensures forall i :: 0 <= i < |r| ==> !('A' <= r[i] <= 'Z')
    ensures forall i :: 0 <= i < |s| && !('A' <= s[i] <= 'Z') ==> r[i] == s[i]
  {
    seq(|s|, i requires 0 <= i < |s| => LowerChar(s[i]))
  }

  /** Python's `k in s` on strings: `k` occurs in `s` as a contiguous substring. */
  predicate Contains(s: string, k: string) {
    exists i | 0 <= i <= |s| - |k| :: OccursAt(s, k, i)
  }

  predicate OccursAt(s: string, k: string, i: int) {
    0 <= i <= |s| - |k| && s[i..i + |k|] == k
  }

  /** The position of the first rule whose keyword occurs in `q`, if any. */
  function FirstMatch(rules: seq<Rule>, q: string): (r: Option<nat>)
    ensures r.Some? ==> r.value < |rules| && Contains(q, rules[r.value].keyword)
    ensures r.Some? ==> forall j :: 0 <= j < r.value ==> !Contains(q, rules[j].keyword)
    ensures r.None? ==> forall j :: 0 <= j < |rules| ==> !Contains(q, rules[j].keyword)
  {
    if rules == [] then None
    else if Contains(q, rules[0].keyword) then Some(0)
    else match FirstMatch(rules[1..], q)
      case None => None
      case Some(k) => Some(k + 1)
  }

  /** Every text the recommendation can return. */
  function Replies(): set<string> {
    set i | 0 <= i < |Recommendations| :: Recommendations[i].text
  }

  /**
   * The canned text for the first keyword, in table order, that occurs in
   * the lower-cased query; the balanced-approach text when none does. The
   * context is accepted and not used.
   */
  function GenerateInvestmentRecommendation<C>(query: string, context: C): (r: string)
    ensures r in Replies() || r == BalancedAdvice
    ensures r == BalancedAdvice <==>
      forall j :: 0 <= j < |Recommendations| ==> !Contains(Lower(query), Recommendations[j].keyword)
    ensures forall i :: 0 <= i < |Recommendations| ==>
      (r == Recommendations[i].text <==>
        && Contains(Lower(query), Recommendations[i].keyword)
        && forall j :: 0 <= j < i ==> !Contains(Lower(query), Recommendations[j].keyword))
  {
    match FirstMatch(Recommendations, Lower(query))
    case Some(k) => Recommendations[k].text
    case None => BalancedAdvice
  }

  /** Queries that agree up to ASCII case get the same recommendation. */
  lemma RecommendationIgnoresCase<C>(q1: string, q2: string, context: C)
    requires |q1| == |q2|
    requires forall i :: 0 <= i < |q1| ==> LowerChar(q1[i]) == LowerChar(q2[i])
    ensures GenerateInvestmentRecommendation(q1, context) == GenerateInvestmentRecommendation(q2, context)
  {
    assert Lower(q1) == Lower(q2);
  }

  /** A query naming both bonds and risk gets the risk text: "risk" comes first in the table. */
  lemma RiskBeforeBonds()
    ensures GenerateInvestmentRecommendation<map<string, string>>("Risk or bonds", map[]) == Recommendations[2].text
  {
    var q := Lower("Risk or bonds");
    assert q == "risk or bonds";
    assert OccursAt(q, "risk", 0);
    assert !Contains(q, "long-term") by {
      forall i | 0 <= i <= |q| - 9 ensures !OccursAt(q, "long-term", i) {
        assert q[i..i + 9][0] != 'l';
      }
    }
  }

  /** The context has no influence on the recommendation. */
  lemma RecommendationIgnoresContext<C, D>(query: string, c: C, d: D)
    ensures GenerateInvestmentRecommendation(query, c) == GenerateInvestmentRecommendation(query, d)
  {
  }
}
