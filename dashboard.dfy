/** The home dashboard (components/Dashboard.tsx): the daily quote, cached per
    calendar day in storage; the mood and stress chart over the latest seven
    entries; and the average stress level shown to one decimal place. */
module Dashboard {
  import opened Types
  import opened Storage

  /** `moodToValue`: the chart's numeric scale; anything not declared is 0. */
  function MoodValue(mood: MoodName): (v: nat)
    ensures v <= 5
    ensures v >= 1 <==> IsDeclaredMood(mood)
    ensures mood == Excellent ==> v == 5
    ensures mood == Good ==> v == 4
    ensures mood == Neutral ==> v == 3
    ensures mood == Fair ==> v == 2
    ensures mood == Poor ==> v == 1
  {
    if mood == Excellent then 5
    else if mood == Good then 4
    else if mood == Neutral then 3
    else if mood == Fair then 2
    else if mood == Poor then 1
    else 0
  }

  /** The scale orders the declared moods from best to worst, one step apart. */
  lemma MoodValueRanksMoods()
    ensures forall i, j :: 0 <= i < j < |DeclaredMoods| ==>
              MoodValue(DeclaredMoods[i]) == MoodValue(DeclaredMoods[j]) + (j - i)
  {
  }

  /** `s.slice(-n)` for n > 0: the last n elements, or all of them if fewer. */
  function Trailing<T>(s: seq<T>, n: nat): (r: seq<T>)
    requires n > 0
    ensures |r| == if |s| < n then |s| else n
    ensures r == s[|s| - |r|..]
  {
    if |s| <= n then s else s[|s| - n..]
  }

  /** One chart point; the weekday label is clock formatting and not kept. */
  datatype ChartPoint = ChartPoint(value: nat, stress: int)

  function Point(e: MoodEntry): ChartPoint {
    ChartPoint(MoodValue(e.mood), e.stressLevel)
  }

  function Points(window: seq<MoodEntry>): (r: seq<ChartPoint>)
    ensures |r| == |window|
    ensures forall i :: 0 <= i < |window| ==> r[i] == Point(window[i])
  {
    if window == [] then [] else [Point(window[0])] + Points(window[1..])
  }

  const ChartSpan: nat := 7

  /** `entries.slice(-7).map(...)`: min(7, |entries|) points, the latest
      entries in their original order. */
  function ChartData(entries: seq<MoodEntry>): (r: seq<ChartPoint>)
    ensures |r| == if |entries| < ChartSpan then |entries| else ChartSpan
    ensures forall i :: 0 <= i < |r| ==> r[i] == Point(entries[|entries| - |r| + i])
  {
    var start := if |entries| <= ChartSpan then 0 else |entries| - ChartSpan;
    var window := Trailing(entries, ChartSpan);
    assert window == entries[start..];
    Points(window)
  }

  /** Dropping the first entry and appending one drops the first point and
      appends that entry's point. */
  lemma PointsSlide(w: seq<MoodEntry>, e: MoodEntry)
    requires w != []
    ensures Points(w[1..] + [e]) == Points(w)[1..] + [Point(e)]
  {
    var a, b := Points(w[1..] + [e]), Points(w)[1..] + [Point(e)];
    assert |a| == |b|;
    forall i | 0 <= i < |a| ensures a[i] == b[i] {
      if i < |a| - 1 {
        assert (w[1..] + [e])[i] == w[i + 1];
      }
    }
  }

  /** Once the window is full, a new entry slides it by one: the oldest point
      leaves and the new one is drawn last. */
  lemma ChartSlides(entries: seq<MoodEntry>, e: MoodEntry)
    requires |entries| >= ChartSpan
    ensures ChartData(entries + [e]) == ChartData(entries)[1..] + [Point(e)]
  {
    var w := entries[|entries| - ChartSpan..];
    var w' := (entries + [e])[|entries| + 1 - ChartSpan..];
    assert w' == w[1..] + [e];
    assert ChartData(entries) == Points(w);
    assert ChartData(entries + [e]) == Points(w');
    PointsSlide(w, e);
  }

  /** `entries.reduce((acc, curr) => acc + curr.stressLevel, 0)`. */
  function SumStress(entries: seq<MoodEntry>): int {
    if entries == [] then 0 else SumStress(entries[..|entries| - 1]) + entries[|entries| - 1].stressLevel
  }

  function MinStress(entries: seq<MoodEntry>): (m: int)
    requires entries != []
    ensures exists i :: 0 <= i < |entries| && entries[i].stressLevel == m
    ensures forall i :: 0 <= i < |entries| ==> m <= entries[i].stressLevel
  {
    if |entries| == 1 then entries[0].stressLevel
    else
      var rest := MinStress(entries[1..]);
      if entries[0].stressLevel <= rest then entries[0].stressLevel else rest
  }

  function MaxStress(entries: seq<MoodEntry>): (m: int)
    requires entries != []
    ensures exists i :: 0 <= i < |entries| && entries[i].stressLevel == m
    ensures forall i :: 0 <= i < |entries| ==> entries[i].stressLevel <= m
  {
    if |entries| == 1 then entries[0].stressLevel
    else
      var rest := MaxStress(entries[1..]);
      if entries[0].stressLevel >= rest then entries[0].stressLevel else rest
  }

  /** Stress levels bounded by lo and hi bound their sum by lo and hi times the count. */
  lemma {:induction false} SumStressBounds(entries: seq<MoodEntry>, lo: int, hi: int)
    requires forall i :: 0 <= i < |entries| ==> lo <= entries[i].stressLevel <= hi
    ensures lo * |entries| <= SumStress(entries) <= hi * |entries|
  {
    if entries != [] {
      var n := |entries|;
      var init := entries[..n - 1];
      assert forall i :: 0 <= i < |init| ==> init[i] == entries[i];
      SumStressBounds(init, lo, hi);
      assert SumStress(entries) == SumStress(init) + entries[n - 1].stressLevel;
      assert lo * n == lo * (n - 1) + lo;
      assert hi * n == hi * (n - 1) + hi;
    }
  }

  /** The exact mean stress (the quotient before it is formatted). */
  function MeanStress(entries: seq<MoodEntry>): real
    requires entries != []
  {
    SumStress(entries) as real / |entries| as real
  }

  /** The mean lies between the least and the greatest stress level present. */
  lemma MeanWithinRange(entries: seq<MoodEntry>)
    requires entries != []
    ensures MinStress(entries) as real <= MeanStress(entries) <= MaxStress(entries) as real
  {
    var n, lo, hi := |entries|, MinStress(entries), MaxStress(entries);
    SumStressBounds(entries, lo, hi);
    QuotientBetween(SumStress(entries), n, lo);
    QuotientBetween(SumStress(entries), n, hi);
  }

  lemma QuotientBetween(sum: int, n: int, b: int)
    requires n > 0
    ensures b * n <= sum ==> b as real <= sum as real / n as real
    ensures sum <= b * n ==> sum as real / n as real <= b as real
  {
    var q := sum as real / n as real;
    assert q * n as real == sum as real;
    assert (b * n) as real == b as real * n as real;
  }

  /** `toFixed(1)` of sum / n in whole tenths: the nearest tenth, a tie going
      away from zero. The contract says t / 10 is within half a tenth of
      sum / n (multiplied out by 20 * n). */
  function RoundTenths(sum: int, n: nat): (t: int)
    requires n > 0
    ensures 2 * n * t - n <= 20 * sum <= 2 * n * t + n
  {
    if sum >= 0 then (20 * sum + n) / (2 * n) else -((-20 * sum + n) / (2 * n))
  }

  /** What the "Avg Stress" card shows: the literal '0' for an empty journal,
      otherwise the mean to one decimal place, i.e. tenths t with t / 10 within
      half a tenth of the exact mean (the bound multiplied out by 20 * n). */
  datatype StressDisplay = NoEntries | OneDecimal(tenths: int)

  function AvgStress(entries: seq<MoodEntry>): (d: StressDisplay)
    ensures d.NoEntries? <==> entries == []
    ensures d.OneDecimal? ==>
              2 * |entries| * d.tenths - |entries| <= 20 * SumStress(entries) <= 2 * |entries| * d.tenths + |entries|
  {
    if |entries| > 0 then OneDecimal(RoundTenths(SumStress(entries), |entries|)) else NoEntries
  }

  /** The shown average is never outside the range of stress levels present. */
  lemma {:induction false} AvgStressWithinRange(entries: seq<MoodEntry>)
    requires entries != []
    ensures var t := AvgStress(entries).tenths;
            10 * MinStress(entries) <= t <= 10 * MaxStress(entries)
  {
    var n, lo, hi := |entries|, MinStress(entries), MaxStress(entries);
    var sum, t := SumStress(entries), AvgStress(entries).tenths;
    SumStressBounds(entries, lo, hi);
    assert 2 * n * t - n <= 20 * sum <= 2 * n * t + n;
    TenthsBetween(sum, n, t, lo, hi);
  }

  lemma TenthsBetween(sum: int, n: int, t: int, lo: int, hi: int)
    requires n > 0 && lo * n <= sum <= hi * n
    requires 2 * n * t - n <= 20 * sum <= 2 * n * t + n
    ensures 10 * lo <= t <= 10 * hi
  {
    var below := 20 * lo - 2 * t - 1;
    assert n * below == 20 * (lo * n) - 2 * n * t - n;
    PositiveFactor(n, below);
    var above := 2 * t - 1 - 20 * hi;
    assert n * above == 2 * n * t - n - 20 * (hi * n);
    PositiveFactor(n, above);
  }

  lemma PositiveFactor(n: int, k: int)
    requires n > 0 && n * k <= 0
    ensures k <= 0
  {
  }

  /** The first-run journal's stress levels 3, 2, 1, 4 average to 2.5. */
  lemma SeedStressAverage(a: MoodEntry, b: MoodEntry, c: MoodEntry, d: MoodEntry)
    requires a.stressLevel == 3 && b.stressLevel == 2 && c.stressLevel == 1 && d.stressLevel == 4
    ensures AvgStress([a, b, c, d]) == OneDecimal(25)
  {
    assert [a, b, c, d][..3] == [a, b, c];
    assert [a, b, c][..2] == [a, b];
    assert [a, b][..1] == [a];
    assert [a][..0] == [];
    assert SumStress([a]) == 3;
    assert SumStress([a, b]) == 5;
    assert SumStress([a, b, c]) == 6;
    assert SumStress([a, b, c, d]) == 10;
    assert RoundTenths(10, 4) == 25;
  }

  /** A cached quote is reused only when it was stored for today's date string. */
  function ReusableQuote(cached: Option<DailyQuote>, today: string): (r: Option<DailyQuote>)
    ensures r.Some? <==> cached.Some? && cached.value.date == today
    ensures r.Some? ==> r == cached
  {
    if cached.Some? && cached.value.date == today then cached else None
  }

  class DashboardState {
    var quote: Option<DailyQuote>
    var insight: string
    var isLoading: bool

    constructor ()
      ensures quote == None && insight == "" && isLoading
    {
      quote := None;
      insight := "";
      isLoading := true;
    }

    /** `fetchData`: reuse today's cached quote, or call the quote service
        once (its answer is `fetchedQuote`) and overwrite the cache; then show
        the insight the service gave (`aiInsight`) and stop loading. The
        returned flag says whether the quote service was called. */
    method FetchData(store: LocalStore, today: string, fetchedQuote: DailyQuote, aiInsight: string)
      returns (fetched: bool)
      modifies this, store`dailyQuote
      ensures fetched <==> ReusableQuote(old(store.dailyQuote), today).None?
      ensures !fetched ==> quote == old(store.dailyQuote) && store.dailyQuote == old(store.dailyQuote)
      ensures fetched ==> quote == Some(fetchedQuote) && store.dailyQuote == Some(fetchedQuote)
      ensures quote.Some? && insight == aiInsight && !isLoading
      ensures fetchedQuote.date == today ==> ReusableQuote(store.dailyQuote, today) == quote
    {
      var current: Option<DailyQuote> := None;
      if store.dailyQuote.Some? {
        var parsed := store.dailyQuote.value;
        if parsed.date == today {
          current := Some(parsed);
        }
      }
      fetched := current.None?;
      if fetched {
        current := Some(fetchedQuote);
        store.dailyQuote := current;
      }
      quote := current;
      insight := aiInsight;
      isLoading := false;
    }
  }
}
