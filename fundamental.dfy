/** The scoring side of the fundamental analyser (src/market/fundamental.py): the symbol code
    used for lookups, the net change accumulated over recent holder trades, and the three
    scores and the rating built from the fetched fund-flow, holder and holder-change data.
    The fetchers themselves talk to a market-data service; their results are inputs here. */
module Fundamental {
  import opened Wrappers
  import opened Types
  import Text

  /** The code used for lookups: the text before the first '.', or the whole symbol. */
  function SymbolCode(symbol: string): (code: string)
    ensures '.' !in code
    ensures code <= symbol
    ensures '.' !in symbol ==> code == symbol
    ensures '.' in symbol ==> |code| < |symbol| && symbol[|code|] == '.'
  {
    if '.' in symbol then
      var parts := Text.Split(symbol, '.');
      assert symbol == parts[0] + ['.'] + Text.Join(parts[1..], '.');
      parts[0]
    else symbol
  }

  /** The code of a suffixed symbol is the part before the suffix. */
  lemma SymbolCodeOfSuffixed(code: string, suffix: string)
    requires '.' !in code
    ensures SymbolCode(code + ['.'] + suffix) == code
  {
    var s := code + ['.'] + suffix;
    assert s[|code|] == '.';
    var c := SymbolCode(s);
    assert forall i :: 0 <= i < |code| ==> s[i] == code[i];
    assert c == s[..|c|] == code;
  }

  /** The direction labels the holder-change table uses. */
  const Increase: string := "增持"
  const Decrease: string := "减持"

  /** How many of the most recent holder-change rows are considered. */
  const RecentRows: nat := 10

  /** One row of the holder-change table. The share and percentage cells are None when the
      table has no such column, which the source reads as 0. */
  datatype ChangeRow = ChangeRow(
    date: Date,
    holderName: string,
    direction: string,
    changeShares: Option<real>,
    changePct: Option<real>)

  /** One entry of `recent_changes`. */
  datatype ChangeInfo = ChangeInfo(
    date: Date,
    holderName: string,
    changeType: string,
    changeShares: real,
    changePct: real)

  /** What `get_holder_changes` returns for a non-empty table. */
  datatype HolderChanges = HolderChanges(recentChanges: seq<ChangeInfo>, netChangeSummary: real)

  function InfoOf(row: ChangeRow): ChangeInfo
  {
    ChangeInfo(row.date, row.holderName, row.direction,
               row.changeShares.GetOr(0.0), row.changePct.GetOr(0.0))
  }

  /** The contribution of one row to the net change: its percentage, added for an increase,
      subtracted for a decrease, nothing for any other direction. */
  function SignedPct(row: ChangeRow): (d: real)
    ensures row.direction == Increase ==> d == row.changePct.GetOr(0.0)
    ensures row.direction == Decrease ==> d == -row.changePct.GetOr(0.0)
    ensures row.direction != Increase && row.direction != Decrease ==> d == 0.0
  {
    if row.direction == Increase then row.changePct.GetOr(0.0)
    else if row.direction == Decrease then -row.changePct.GetOr(0.0)
    else 0.0
  }

  /** The net change of a run of rows: the sum of their signed percentages. */
  function NetChange(rows: seq<ChangeRow>): real
  {
    if |rows| == 0 then 0.0 else NetChange(rows[..|rows| - 1]) + SignedPct(rows[|rows| - 1])
  }

  /** The net change of two runs together is the sum of their net changes. */
  lemma {:induction false} NetChangeAppend(a: seq<ChangeRow>, b: seq<ChangeRow>)
    ensures NetChange(a + b) == NetChange(a) + NetChange(b)
    decreases |b|
  {
    if |b| > 0 {
      var b' := b[..|b| - 1];
      assert (a + b)[..|a + b| - 1] == a + b';
      NetChangeAppend(a, b');
    } else {
      assert a + b == a;
    }
  }

  /** Rows whose direction is neither an increase nor a decrease leave the net change at 0. */
  lemma {:induction false} NetChangeOfNeutralRows(rows: seq<ChangeRow>)
    requires forall i :: 0 <= i < |rows| ==> rows[i].direction != Increase && rows[i].direction != Decrease
    ensures NetChange(rows) == 0.0
  {
    if |rows| > 0 {
      NetChangeOfNeutralRows(rows[..|rows| - 1]);
    }
  }

  /** Increases with non-negative percentages never give a negative net change. */
  lemma {:induction false} NetChangeOfIncreases(rows: seq<ChangeRow>)
    requires forall i :: 0 <= i < |rows| ==> rows[i].direction == Increase && rows[i].changePct.GetOr(0.0) >= 0.0
    ensures NetChange(rows) >= 0.0
  {
    if |rows| > 0 {
      NetChangeOfIncreases(rows[..|rows| - 1]);
    }
  }

  function Min(a: nat, b: nat): nat { if a <= b then a else b }

  /** `get_holder_changes` on a fetched table: None for an empty table; otherwise the first
      `RecentRows` rows, each recorded as a `ChangeInfo`, and their net change. */
  method GetHolderChanges(rows: seq<ChangeRow>) returns (r: Option<HolderChanges>)
    ensures r.None? <==> |rows| == 0
    ensures r.Some? ==>
      var recent := rows[..Min(|rows|, RecentRows)];
      && |r.value.recentChanges| == |recent|
      && (forall i :: 0 <= i < |recent| ==> r.value.recentChanges[i] == InfoOf(recent[i]))
      && r.value.netChangeSummary == NetChange(recent)
  {
    if |rows| == 0 {
      return None;
    }
    var n := Min(|rows|, RecentRows);
    var recent: seq<ChangeInfo> := [];
    var net := 0.0;
    var i := 0;
    while i < n
      invariant 0 <= i <= n
      invariant |recent| == i
      invariant forall j :: 0 <= j < i ==> recent[j] == InfoOf(rows[j])
      invariant net == NetChange(rows[..i])
    {
      var row := rows[i];
      recent := recent + [InfoOf(row)];
      if row.direction == Increase {
        net := net + row.changePct.GetOr(0.0);
      } else if row.direction == Decrease {
        net := net - row.changePct.GetOr(0.0);
      }
      assert rows[..i + 1][..i] == rows[..i];
      i := i + 1;
    }
    return Some(HolderChanges(recent, net));
  }

  /** The part of the holder-information dict the score reads. */
  datatype HolderInfo = HolderInfo(totalTop10Holders: nat, institutionalHolders: nat)

  /** The fund score: the sign of the main net inflow, or 0 without fund-flow data. */
  function FundScore(mainNetInflow: Option<real>): (s: real)
    ensures mainNetInflow.None? ==> s == 0.0
    ensures mainNetInflow.Some? ==>
      (s == 1.0 <==> mainNetInflow.value > 0.0) && (s == -1.0 <==> mainNetInflow.value < 0.0)
      && (s == 0.0 <==> mainNetInflow.value == 0.0)
  {
    match mainNetInflow
    case None => 0.0
    case Some(inflow) => if inflow > 0.0 then 1.0 else if inflow < 0.0 then -1.0 else 0.0
  }

  /** The institutional share of the top holders; the divisor is never below 1. */
  function InstitutionalRatio(info: HolderInfo): real
  {
    info.institutionalHolders as real / (if info.totalTop10Holders >= 1 then info.totalTop10Holders else 1) as real
  }

  /** The holder score: 1 above half institutional, 0.5 above 30 percent, else 0. */
  function HolderScore(info: Option<HolderInfo>): (s: real)
    ensures info.None? ==> s == 0.0
    ensures info.Some? ==>
      (s == 1.0 <==> InstitutionalRatio(info.value) > 0.5)
      && (s == 0.5 <==> 0.3 < InstitutionalRatio(info.value) <= 0.5)
      && (s == 0.0 <==> InstitutionalRatio(info.value) <= 0.3)
  {
    match info
    case None => 0.0
    case Some(h) =>
      var ratio := InstitutionalRatio(h);
      if ratio > 0.5 then 1.0 else if ratio > 0.3 then 0.5 else 0.0
  }

  /** The holder score reads the counts: more than half of the top holders institutional gives
      the full point. */
  lemma HolderScoreFromCounts(total: nat, institutional: nat)
    requires total >= 1
    ensures HolderScore(Some(HolderInfo(total, institutional))) == 1.0 <==> 2 * institutional > total
  {
    var r := InstitutionalRatio(HolderInfo(total, institutional));
    assert r * total as real == institutional as real;
    assert r > 0.5 <==> r * total as real > 0.5 * total as real;
  }

  /** The change score: 1 above +1 percent, 0.5 above 0, -1 below -1 percent, else 0; 0
      without holder-change data. */
  function ChangeScore(changes: Option<HolderChanges>): (s: real)
    ensures changes.None? ==> s == 0.0
    ensures changes.Some? ==>
      var net := changes.value.netChangeSummary;
      && (s == 1.0 <==> net > 1.0)
      && (s == 0.5 <==> 0.0 < net <= 1.0)
      && (s == -1.0 <==> net < -1.0)
      && (s == 0.0 <==> -1.0 <= net <= 0.0)
  {
    match changes
    case None => 0.0
    case Some(c) =>
      var net := c.netChangeSummary;
      if net > 1.0 then 1.0 else if net > 0.0 then 0.5 else if net < -1.0 then -1.0 else 0.0
  }

  /** The five ratings, from 强烈看好 down to 看空. */
  datatype Rating = StronglyBullish | Bullish | Neutral | Bearish | StronglyBearish

  /** A rating's rank, 4 for the best and 0 for the worst. */
  function Rank(r: Rating): nat
  {
    match r
    case StronglyBullish => 4
    case Bullish => 3
    case Neutral => 2
    case Bearish => 1
    case StronglyBearish => 0
  }

  /** The rating chosen by thresholds 2, 1, 0 and -1 on the total score. */
  function RatingOf(total: real): (r: Rating)
    ensures r == StronglyBullish <==> total >= 2.0
    ensures r == Bullish <==> 1.0 <= total < 2.0
    ensures r == Neutral <==> 0.0 <= total < 1.0
    ensures r == Bearish <==> -1.0 <= total < 0.0
    ensures r == StronglyBearish <==> total < -1.0
  {
    if total >= 2.0 then StronglyBullish
    else if total >= 1.0 then Bullish
    else if total >= 0.0 then Neutral
    else if total >= -1.0 then Bearish
    else StronglyBearish
  }

  /** A higher total score never gives a worse rating. */
  lemma RatingIsMonotone(t1: real, t2: real)
    requires t1 <= t2
    ensures Rank(RatingOf(t1)) <= Rank(RatingOf(t2))
  {
  }

  /** The `fundamental_rating` entry. */
  datatype FundamentalRating = FundamentalRating(
    fundScore: real,
    holderScore: real,
    changeScore: real,
    totalScore: real,
    rating: Rating)

  /** The analysis result: the symbol, the three fetched inputs and the rating. */
  datatype FundamentalAnalysis = FundamentalAnalysis(
    symbol: string,
    mainNetInflow: Option<real>,
    holderInfo: Option<HolderInfo>,
    holderChanges: Option<HolderChanges>,
    rating: FundamentalRating)

  /** `analyze_fundamental` on the fetched data: None stands for an empty dict (no data or a
      failed fetch). */
  function AnalyzeFundamental(symbol: string, mainNetInflow: Option<real>, holderInfo: Option<HolderInfo>,
                              holderChanges: Option<HolderChanges>): (a: FundamentalAnalysis)
    ensures a.symbol == symbol && a.mainNetInflow == mainNetInflow
    ensures a.holderInfo == holderInfo && a.holderChanges == holderChanges
    ensures a.rating.totalScore == a.rating.fundScore + a.rating.holderScore + a.rating.changeScore
    ensures -2.0 <= a.rating.totalScore <= 3.0
    ensures a.rating.rating == RatingOf(a.rating.totalScore)
  {
    var fund := FundScore(mainNetInflow);
    var holder := HolderScore(holderInfo);
    var change := ChangeScore(holderChanges);
    var total := fund + holder + change;
    FundamentalAnalysis(symbol, mainNetInflow, holderInfo, holderChanges,
                        FundamentalRating(fund, holder, change, total, RatingOf(total)))
  }

  /** With no data at all every score is 0 and the rating is neutral. */
  lemma NoDataIsNeutral(symbol: string)
    ensures AnalyzeFundamental(symbol, None, None, None).rating.rating == Neutral
  {
  }

  /** The lowest rating needs both an outflow and net selling above one percent, and rules out
      the full holder point. */
  lemma StronglyBearishNeedsOutflowAndSelling(symbol: string, inflow: Option<real>, info: Option<HolderInfo>,
                                             changes: Option<HolderChanges>)
    ensures AnalyzeFundamental(symbol, inflow, info, changes).rating.rating == StronglyBearish
        <==> (&& inflow.Some? && inflow.value < 0.0
              && changes.Some? && changes.value.netChangeSummary < -1.0
              && HolderScore(info) < 1.0)
  {
  }

  /** The top rating needs a positive contribution from at least two of the three scores. */
  lemma StronglyBullishNeedsTwoSources(symbol: string, inflow: Option<real>, info: Option<HolderInfo>,
                                      changes: Option<HolderChanges>)
    requires AnalyzeFundamental(symbol, inflow, info, changes).rating.rating == StronglyBullish
    ensures var r := AnalyzeFundamental(symbol, inflow, info, changes).rating;
      (r.fundScore > 0.0 && r.holderScore > 0.0) || (r.fundScore > 0.0 && r.changeScore > 0.0)
      || (r.holderScore > 0.0 && r.changeScore > 0.0)
  {
  }
}
