/** The display scores `analyze` derives: the clamped pressure, the risk
    percentage banded by the risk level, and the per-tactic bar scores. */
module Scoring {
  import opened Values

  /** `max(0, min(100, v or 0))` for the pressure score `v`: a falsy value
      counts as 0, a number is clamped, and comparing a non-empty string,
      list or object with an integer raises TypeError. A boolean `True`
      compares as 1. */
  function Pressure(v: Json): (r: Result<int>)
    ensures r.Ok? <==> (!Truthy(v) || v.JInt? || v.JBool?)
    ensures r.Ok? ==> 0 <= r.value <= 100
    ensures v.JInt? && 0 <= v.i <= 100 ==> r == Ok(v.i)
    ensures v.JInt? && v.i < 0 ==> r == Ok(0)
    ensures v.JInt? && 100 < v.i ==> r == Ok(100)
    ensures r.Err? ==> r.error == TypeError
  {
    if !Truthy(v) then Ok(0)
    else
      match v
      case JInt(i) => Ok(Clamp(i, 0, 100))
      case JBool(_) => Ok(1)
      case _ => Err(TypeError)
  }

  /** The range of risk percentages a risk level allows. */
  datatype Band = Band(lo: int, hi: int)

  function BandOf(level: Json): (b: Band)
    ensures 0 <= b.lo <= b.hi <= 100
  {
    if level == JStr("high") then Band(75, 100)
    else if level == JStr("medium") then Band(40, 74)
    else Band(0, 39)
  }

  function Max(x: int, y: int): int { if x < y then y else x }
  function Min(x: int, y: int): int { if x < y then x else y }

  /** `risk_pct`: the pressure forced into the band of the risk level, which
      is "high", "medium" or anything else (treated as low). */
  function RiskPct(level: Json, pressure: int): (r: int)
    requires 0 <= pressure <= 100
    ensures BandOf(level).lo <= r <= BandOf(level).hi
    ensures BandOf(level).lo <= pressure <= BandOf(level).hi ==> r == pressure
  {
    if level == JStr("high") then Max(75, pressure)
    else if level == JStr("medium") then Max(40, Min(74, pressure))
    else Min(39, pressure)
  }

  /** Within its band the risk percentage never decreases as the pressure
      grows, and it is the point of the band nearest to the pressure. */
  lemma RiskPctMonotoneNearest(level: Json, p: int, q: int)
    requires 0 <= p <= q <= 100
    ensures RiskPct(level, p) <= RiskPct(level, q)
    ensures forall x :: BandOf(level).lo <= x <= BandOf(level).hi ==>
              Dist(RiskPct(level, p), p) <= Dist(x, p)
  {
  }

  function Dist(x: int, y: int): nat { if x < y then y - x else x - y }

  /** For every integer pressure score, whatever its sign or size, the risk
      percentage lies in the band of the risk level. */
  lemma RiskPctBands(level: Json, score: int)
    ensures Pressure(JInt(score)).Ok?
    ensures var pct := RiskPct(level, Pressure(JInt(score)).value);
            && (level == JStr("high") ==> 75 <= pct <= 100)
            && (level == JStr("medium") ==> 40 <= pct <= 74)
            && (level != JStr("high") && level != JStr("medium") ==> 0 <= pct <= 39)
  {
  }

  /** One bar of the dashboard's tactic chart. */
  datatype TacticScore = TacticScore(name: string, score: int)

  function TacticScoreJson(t: TacticScore): Json {
    JObj(map["name" := JStr(t.name), "score" := JInt(t.score)])
  }

  /** An entry of the API's `tactic_scores` the loop keeps: a dict with
      both a name and a score. */
  predicate IsScoreEntry(item: Json) {
    item.JObj? && "name" in item.fields && "score" in item.fields
  }

  /** The entries the API loop keeps, in their order. */
  function ScoreEntries(items: seq<Json>): (r: seq<map<string, Json>>)
    ensures |r| <= |items|
    ensures forall j :: 0 <= j < |r| ==> "name" in r[j] && "score" in r[j]
    decreases |items|
  {
    if items == [] then []
    else
      var init := ScoreEntries(items[..|items| - 1]);
      var last := items[|items| - 1];
      if IsScoreEntry(last) then init + [last.fields] else init
  }

  /** The scores the API loop appends for `items`, or the exception it
      raises at the first kept entry whose score `int()` rejects. */
  function ApiScores(items: seq<Json>, py: Builtins): (r: Result<seq<TacticScore>>)
    ensures r.Ok? ==> |r.value| <= |items|
    ensures r.Ok? ==> forall j :: 0 <= j < |r.value| ==> 0 <= r.value[j].score <= 100
    ensures r.Err? ==> r.error == TypeError || r.error == ValueError
    decreases |items|
  {
    if items == [] then Ok([])
    else
      match ApiScores(items[..|items| - 1], py)
      case Err(e) => Err(e)
      case Ok(acc) =>
        var item := items[|items| - 1];
        if IsScoreEntry(item) then
          match Int(item.fields["score"], py)
          case Err(e) => Err(e)
          case Ok(n) => Ok(acc + [TacticScore(py.str(item.fields["name"]), Clamp(n, 0, 100))])
        else
          Ok(acc)
  }

  /** The bar score of an API entry, when `int()` accepts its score. */
  function EntryScore(entry: map<string, Json>, py: Builtins): (r: Result<TacticScore>)
    requires "name" in entry && "score" in entry
    ensures r.Ok? <==> Int(entry["score"], py).Ok?
    ensures r.Ok? ==> r.value.name == py.str(entry["name"]) && 0 <= r.value.score <= 100
    ensures r.Ok? && 0 <= Int(entry["score"], py).value <= 100 ==> r.value.score == Int(entry["score"], py).value
  {
    match Int(entry["score"], py)
    case Err(e) => Err(e)
    case Ok(n) => Ok(TacticScore(py.str(entry["name"]), Clamp(n, 0, 100)))
  }

  /** The API loop keeps exactly the dict entries with a name and a score,
      in order, each with its name as a string and its score clamped, and
      succeeds exactly when `int()` accepts every kept score. */
  lemma {:induction false} ApiScoresFilter(items: seq<Json>, py: Builtins)
    ensures ApiScores(items, py).Ok? <==> ScoresConvert(ScoreEntries(items), py)
    ensures var r, es := ApiScores(items, py), ScoreEntries(items);
            r.Ok? ==> (|r.value| == |es| &&
              forall j :: 0 <= j < |es| ==> r.value[j] == EntryScore(es[j], py).value)
    decreases |items|
  {
    if items != [] {
      var init := items[..|items| - 1];
      ApiScoresFilter(init, py);
      var item := items[|items| - 1];
      var es0 := ScoreEntries(init);
      var es := ScoreEntries(items);
      var r0 := ApiScores(init, py);
      if IsScoreEntry(item) {
        assert es == es0 + [item.fields];
        assert forall j :: 0 <= j < |es0| ==> es[j] == es0[j];
        var e := EntryScore(item.fields, py);
        if r0.Err? {
          assert ApiScores(items, py) == r0;
          var j :| 0 <= j < |es0| && !EntryScore(es0[j], py).Ok?;
          assert !EntryScore(es[j], py).Ok?;
          assert ApiScores(items, py).Err?;
        } else if e.Err? {
          assert ApiScores(items, py) == Err(e.error);
          assert !EntryScore(es[|es0|], py).Ok?;
        } else {
          assert ApiScores(items, py).value == r0.value + [e.value];
        }
      } else {
        assert es == es0;
      }
    }
  }

  /** When the API loop raises, it raises the exception of the first kept
      entry whose score `int()` rejects. */
  lemma {:induction false} ApiScoresFirstFailure(items: seq<Json>, py: Builtins)
    ensures var r := ApiScores(items, py);
            r.Err? ==> FirstFailure(ScoreEntries(items), py, r.error)
    decreases |items|
  {
    if items != [] {
      var init := items[..|items| - 1];
      ApiScoresFirstFailure(init, py);
      ApiScoresFilter(init, py);
      var item := items[|items| - 1];
      var es0 := ScoreEntries(init);
      var es := ScoreEntries(items);
      var r0 := ApiScores(init, py);
      if IsScoreEntry(item) {
        assert es == es0 + [item.fields];
        assert forall j :: 0 <= j < |es0| ==> es[j] == es0[j];
        var e := EntryScore(item.fields, py);
        if r0.Err? {
          var j :| 0 <= j < |es0| && EntryScore(es0[j], py) == Err(r0.error)
                   && forall j' :: 0 <= j' < j ==> EntryScore(es0[j'], py).Ok?;
          assert EntryScore(es[j], py) == Err(r0.error);
          assert ApiScores(items, py) == r0;
          assert FirstFailure(es, py, r0.error);
        } else if e.Err? {
          assert EntryScore(es[|es0|], py) == e;
          assert ApiScores(items, py) == Err(e.error);
          assert forall j' :: 0 <= j' < |es0| ==> EntryScore(es[j'], py).Ok?;
          assert FirstFailure(es, py, e.error);
        }
      } else {
        assert es == es0;
      }
    }
  }

  /** `int()` accepts the score of every entry of `es`. */
  predicate ScoresConvert(es: seq<map<string, Json>>, py: Builtins)
    requires forall j :: 0 <= j < |es| ==> "name" in es[j] && "score" in es[j]
  {
    forall j :: 0 <= j < |es| ==> EntryScore(es[j], py).Ok?
  }

  /** `es[j]` is the first entry whose score `int()` rejects, with error `e`. */
  predicate FirstFailure(es: seq<map<string, Json>>, py: Builtins, e: Error)
    requires forall j :: 0 <= j < |es| ==> "name" in es[j] && "score" in es[j]
  {
    exists j :: 0 <= j < |es| && EntryScore(es[j], py) == Err(e)
                && forall j' :: 0 <= j' < j ==> EntryScore(es[j'], py).Ok?
  }

  /** The API loop keeps nothing exactly when no item is a dict with both
      a name and a score. */
  lemma {:induction false} ScoreEntriesEmpty(items: seq<Json>)
    ensures ScoreEntries(items) == [] <==> forall j :: 0 <= j < |items| ==> !IsScoreEntry(items[j])
    decreases |items|
  {
    if items != [] {
      var init := items[..|items| - 1];
      ScoreEntriesEmpty(init);
      assert forall j :: 0 <= j < |init| ==> init[j] == items[j];
    }
  }

  /** Once the API loop has raised, the rest of the list does not matter. */
  lemma {:induction false} ApiScoresRaised(items: seq<Json>, n: nat, py: Builtins)
    requires n <= |items| && ApiScores(items[..n], py).Err?
    ensures ApiScores(items, py) == ApiScores(items[..n], py)
    decreases |items| - n
  {
    if n < |items| {
      assert items[..n + 1][..n] == items[..n];
      ApiScoresRaised(items, n + 1, py);
    } else {
      assert items[..n] == items;
    }
  }

  /** `int(pressure * (1.0 - i * 0.12) + i * 3)` clamped to [0, 100], in
      exact arithmetic: the bar score synthesised for position `i`. */
  function SynthScore(pressure: int, i: nat): (r: int)
    ensures 0 <= r <= 100
    ensures i == 0 && 0 <= pressure <= 100 ==> r == pressure
  {
    Clamp(TruncDiv(SynthNumerator(pressure, i), 100), 0, 100)
  }

  /** A hundred times `pressure * (1.0 - i * 0.12) + i * 3`. */
  function SynthNumerator(pressure: int, i: nat): (r: int)
    ensures i == 0 ==> r == 100 * pressure
    ensures pressure == 25 ==> r == 2500
  {
    pressure * (100 - 12 * i) + 300 * i
  }

  /** The list the synthesis loop builds: one bar per tactic, in order. */
  function Synthesized(tactics: seq<Json>, pressure: int, str: Json -> string): (r: seq<TacticScore>)
    ensures |r| == |tactics|
    ensures forall i :: 0 <= i < |r| ==> r[i].name == str(tactics[i]) && 0 <= r[i].score <= 100
  {
    seq(|tactics|, i requires 0 <= i < |tactics| => TacticScore(str(tactics[i]), SynthScore(pressure, i)))
  }

  /** `tactic_scores`: the kept API entries, or, when none was kept and
      there are tactic names, the synthesised bars. */
  function TacticScores(api: Json, tactics: seq<Json>, pressure: int, py: Builtins): (r: Result<seq<TacticScore>>)
    ensures r.Ok? ==> forall j :: 0 <= j < |r.value| ==> 0 <= r.value[j].score <= 100
    ensures r.Ok? && tactics != [] ==> r.value != []
    ensures r.Err? ==> r.error == TypeError || r.error == ValueError
    ensures !(api.JArr? && |api.items| > 0) ==> r == Ok(Synthesized(tactics, pressure, py.str))
  {
    var fromApi := if api.JArr? && |api.items| > 0 then ApiScores(api.items, py) else Ok([]);
    match fromApi
    case Err(e) => Err(e)
    case Ok(s) => Ok(if s == [] && tactics != [] then Synthesized(tactics, pressure, py.str) else s)
  }

  /** The two loops of `analyze` that build `tactic_scores`. */
  method BuildTacticScores(api: Json, tactics: seq<Json>, pressure: int, py: Builtins)
    returns (r: Result<seq<TacticScore>>)
    ensures r == TacticScores(api, tactics, pressure, py)
  {
    var scores: seq<TacticScore> := [];
    if api.JArr? && |api.items| > 0 {
      var items := api.items;
      var i := 0;
      while i < |items|
        invariant 0 <= i <= |items|
        invariant ApiScores(items[..i], py) == Ok(scores)
      {
        var item := items[i];
        assert items[..i + 1][..i] == items[..i];
        if item.JObj? && "name" in item.fields && "score" in item.fields {
          var n := Int(item.fields["score"], py);
          if n.Err? {
            ApiScoresRaised(items, i + 1, py);
            return Err(n.error);
          }
          scores := scores + [TacticScore(py.str(item.fields["name"]), Clamp(n.value, 0, 100))];
        }
        i := i + 1;
      }
      assert items[..i] == items;
    }
    if scores == [] && tactics != [] {
      var i := 0;
      while i < |tactics|
        invariant 0 <= i <= |tactics|
        invariant |scores| == i
        invariant forall j :: 0 <= j < i ==> scores[j] == TacticScore(py.str(tactics[j]), SynthScore(pressure, j))
      {
        var score := Clamp(TruncDiv(pressure * (100 - 12 * i) + 300 * i, 100), 0, 100);
        assert score == SynthScore(pressure, i);
        scores := scores + [TacticScore(py.str(tactics[i]), score)];
        i := i + 1;
      }
      assert scores == Synthesized(tactics, pressure, py.str);
    }
    r := Ok(scores);
  }

  /** Whether the API's `tactic_scores` holds an entry the loop keeps. */
  predicate HasScoreEntry(api: Json) {
    api.JArr? && exists j :: 0 <= j < |api.items| && IsScoreEntry(api.items[j])
  }

  /** Every bar score lies in [0, 100]; the bars come from the API exactly
      when it supplied an entry with a name and a score, and are otherwise
      synthesised from the tactic names (none without names); only the API
      entries can raise. */
  lemma TacticScoresSource(api: Json, tactics: seq<Json>, pressure: int, py: Builtins)
    ensures var r := TacticScores(api, tactics, pressure, py);
            && (r.Ok? ==> forall j :: 0 <= j < |r.value| ==> 0 <= r.value[j].score <= 100)
            && (r.Ok? && HasScoreEntry(api) ==> r == ApiScores(api.items, py) && |r.value| == |ScoreEntries(api.items)|)
            && (r.Ok? && !HasScoreEntry(api) ==> r.value == Synthesized(tactics, pressure, py.str))
            && (r.Err? ==> HasScoreEntry(api))
  {
    if api.JArr? {
      var items := api.items;
      ApiScoresFilter(items, py);
      ScoreEntriesEmpty(items);
      var r := ApiScores(items, py);
      if r.Ok? {
        forall j | 0 <= j < |r.value| ensures 0 <= r.value[j].score <= 100 {
          assert r.value[j] == EntryScore(ScoreEntries(items)[j], py).value;
        }
      }
    }
  }

  /** The truncating division is monotone. */
  lemma TruncDivMonotone(n: int, m: int, d: int)
    requires d > 0 && n <= m
    ensures TruncDiv(n, d) <= TruncDiv(m, d)
  {
    if 0 <= n {
      DivMonotone(n, m, d);
    } else if m < 0 {
      DivMonotone(-m, -n, d);
    }
  }

  lemma DivMonotone(n: int, m: int, d: int)
    requires d > 0 && 0 <= n <= m
    ensures n / d <= m / d
  {
    var q, q' := n / d, m / d;
    if q' < q {
      MulMonotone(q' + 1, q, d);
      assert false;
    }
  }

  lemma MulMonotone(a: int, b: int, d: int)
    requires a <= b && 0 <= d
    ensures a * d <= b * d
  {
    assert b * d - a * d == (b - a) * d;
  }

  /** With a pressure of at least 25 the synthesised bars never grow along
      the list; below 25 they never shrink. */
  lemma SynthScoreTrend(pressure: int, i: nat, j: nat)
    requires 0 <= pressure <= 100 && i <= j
    ensures 25 <= pressure ==> SynthScore(pressure, j) <= SynthScore(pressure, i)
    ensures pressure <= 25 ==> SynthScore(pressure, i) <= SynthScore(pressure, j)
  {
    SynthNumeratorStep(pressure, i, j);
    var ni, nj := SynthNumerator(pressure, i), SynthNumerator(pressure, j);
    if 25 <= pressure {
      TruncDivMonotone(nj, ni, 100);
    }
    if pressure <= 25 {
      TruncDivMonotone(ni, nj, 100);
    }
  }

  /** Moving `j - i` places along the list changes the numerator by
      `(j - i) * (300 - 12 * pressure)`. */
  lemma SynthNumeratorStep(pressure: int, i: nat, j: nat)
    requires 0 <= pressure <= 100 && i <= j
    ensures 25 <= pressure ==> SynthNumerator(pressure, j) <= SynthNumerator(pressure, i)
    ensures pressure <= 25 ==> SynthNumerator(pressure, i) <= SynthNumerator(pressure, j)
  {
  }

  /** Pressure 80 and three tactic names give the bars 80, 73 and 66:
      80 * 0.88 + 3 = 73.4 and 80 * 0.76 + 6 = 66.8 are truncated. */
  lemma SynthesizedExample(str: Json -> string)
    ensures var r := Synthesized([JStr("Urgency"), JStr("Fear"), JStr("Authority")], 80, str);
            r[0].score == 80 && r[1].score == 73 && r[2].score == 66
  {
  }
}
