/** The part of the `analyze` view that runs once the model has replied:
    parse the reply, complete the record, and derive the dashboard fields
    `risk_pct`, `tactic_scores` and `dashboard_data`. */
module Analysis {
  import opened Values
  import opened Fence
  import opened Schema
  import opened Scoring

  /** How the view ends for a reply. */
  datatype Response =
    | Dashboard(context: map<string, Json>)  // dashboard.html rendered with the derived record
    | InvalidJson                            // the reply did not decode; an error response is sent
    | Raised(error: Error)                   // an exception escapes the view

  /** `x or default`. */
  function Or(x: Json, default: Json): (r: Json)
    ensures Truthy(x) ==> r == x
    ensures !Truthy(x) ==> r == default
  {
    if Truthy(x) then x else default
  }

  /** `d.get(k, default)`: the stored value, even when it is None. */
  function GetOr(d: map<string, Json>, k: string, default: Json): (r: Json)
    ensures k in d ==> r == d[k]
    ensures k !in d ==> r == default
  {
    if k in d then d[k] else default
  }

  /** Every list field of the record holds a list, as `_ensure_schema`
      leaves it. */
  predicate ListFieldsAreLists(d: map<string, Json>) {
    forall k :: k in ListKeys ==> k in d && d[k].JArr?
  }

  /** `manipulation_tactics or primary_tactics or []`, as the names the
      synthesis loop enumerates. After `_ensure_schema` both fields are
      lists; the enumeration of anything else is not modelled. */
  function TacticNames(d: map<string, Json>): (r: seq<Json>)
    ensures ListFieldsAreLists(d) && d["manipulation_tactics"].items != [] ==> r == d["manipulation_tactics"].items
    ensures ListFieldsAreLists(d) && d["manipulation_tactics"].items == [] ==> r == d["primary_tactics"].items
  {
    var v := Or(Or(Get(d, "manipulation_tactics"), Get(d, "primary_tactics")), JArr([]));
    if v.JArr? then v.items else []
  }

  function ScoresJson(ts: seq<TacticScore>): (r: seq<Json>)
    ensures |r| == |ts|
    ensures forall i :: 0 <= i < |ts| ==> r[i] == TacticScoreJson(ts[i])
  {
    seq(|ts|, i requires 0 <= i < |ts| => TacticScoreJson(ts[i]))
  }

  /** The `dashboard_data` payload the dashboard script reads. */
  function DashboardData(d: map<string, Json>): (r: map<string, Json>)
    requires "tactic_scores" in d
    ensures r.Keys == {"risk_level", "risk_pct", "pressure_score", "primary_tactics", "tactic_scores"}
    ensures r["tactic_scores"] == d["tactic_scores"]
    ensures forall k :: k in {"risk_level", "risk_pct", "pressure_score"} && k in d ==> r[k] == d[k]
    ensures "risk_level" !in d ==> r["risk_level"] == JStr("low")
    ensures "risk_pct" !in d ==> r["risk_pct"] == JInt(0)
    ensures "pressure_score" !in d ==> r["pressure_score"] == JInt(0)
    ensures Truthy(Get(d, "primary_tactics")) ==> r["primary_tactics"] == d["primary_tactics"]
    ensures !Truthy(Get(d, "primary_tactics")) ==> r["primary_tactics"] == JArr([])
  {
    map[
      "risk_level" := GetOr(d, "risk_level", JStr("low")),
      "risk_pct" := GetOr(d, "risk_pct", JInt(0)),
      "pressure_score" := GetOr(d, "pressure_score", JInt(0)),
      "primary_tactics" := Or(Get(d, "primary_tactics"), JArr([])),
      "tactic_scores" := d["tactic_scores"]]
  }

  /** The record with the two request fields written into it. */
  function Stamped(s: map<string, Json>, message: string, messageType: string): (r: map<string, Json>)
    ensures "original_message" in r && r["original_message"] == JStr(message)
    ensures "message_type" in r && r["message_type"] == JStr(messageType)
    ensures forall k :: k in s && k != "original_message" && k != "message_type" ==> k in r && r[k] == s[k]
  {
    s["original_message" := JStr(message)]["message_type" := JStr(messageType)]
  }

  /** The record with `risk_pct` set, for the clamped pressure `p`. */
  function WithRisk(e: map<string, Json>, p: int): (r: map<string, Json>)
    requires 0 <= p <= 100
    ensures "risk_pct" in r && r["risk_pct"].JInt?
    ensures BandOf(Get(e, "risk_level")).lo <= r["risk_pct"].i <= BandOf(Get(e, "risk_level")).hi
    ensures forall k :: k in e && k != "risk_pct" ==> k in r && r[k] == e[k]
  {
    e["risk_pct" := JInt(RiskPct(Get(e, "risk_level"), p))]
  }

  /** The record with `tactic_scores` and `dashboard_data` set. */
  function Finished(e: map<string, Json>, ts: seq<TacticScore>): (r: map<string, Json>)
    ensures "tactic_scores" in r && r["tactic_scores"] == JArr(ScoresJson(ts))
    ensures "dashboard_data" in r && r["dashboard_data"].JObj?
    ensures forall k :: k in e && k != "tactic_scores" && k != "dashboard_data" ==> k in r && r[k] == e[k]
  {
    var withScores := e["tactic_scores" := JArr(ScoresJson(ts))];
    withScores["dashboard_data" := JObj(DashboardData(withScores))]
  }

  /** The derivation that follows `_ensure_schema`, applied to its result
      `s`: the record `analyze` renders, or the exception that escapes. */
  function Complete(s: map<string, Json>, message: string, messageType: string, py: Builtins): (r: Result<map<string, Json>>)
    ensures r.Ok? ==> s.Keys + DerivedKeys <= r.value.Keys
    ensures r.Err? ==> r.error == TypeError || r.error == ValueError
  {
    var e := Stamped(s, message, messageType);
    match Pressure(Get(e, "pressure_score"))
    case Err(err) => Err(err)
    case Ok(p) =>
      var e' := WithRisk(e, p);
      match TacticScores(Get(e', "tactic_scores"), TacticNames(e'), p, py)
      case Err(err) => Err(err)
      case Ok(ts) => Ok(Finished(e', ts))
  }

  /** The record `analyze` renders for a decoded reply `d`, or the exception
      that escapes while deriving it. */
  function Derive(d: map<string, Json>, message: string, messageType: string, py: Builtins): (r: Result<map<string, Json>>)
    ensures r.Ok? ==> d.Keys + DerivedKeys <= r.value.Keys
    ensures r.Err? ==> r.error == TypeError || r.error == ValueError
  {
    Complete(Ensured(d, py.str), message, messageType, py)
  }

  /** What the view answers to the reply text `raw`. */
  function AnalyzeReply(raw: string, message: string, messageType: string, py: Builtins): (resp: Response)
    ensures resp == InvalidJson <==> ParseJsonFromResponse(raw, py).Err?
    ensures resp.Raised? ==> resp.error == TypeError || resp.error == ValueError
  {
    match ParseJsonFromResponse(raw, py)
    case Err(_) => InvalidJson
    case Ok(v) =>
      if !v.JObj? then Raised(TypeError)
      else
        match Derive(v.fields, message, messageType, py)
        case Err(err) => Raised(err)
        case Ok(r) => Dashboard(r)
  }


  /** The view as it runs: the reply is parsed, a dict is built from it and
      completed in place, and the derived fields are written into it. */
  method Analyze(raw: string, message: string, messageType: string, py: Builtins)
    returns (resp: Response)
    ensures resp == AnalyzeReply(raw, message, messageType, py)
  {
    var parsed := ParseJsonFromResponse(raw, py);
    if parsed.Err? {
      return InvalidJson;
    }
    if !parsed.value.JObj? {
      return Raised(TypeError);
    }
    var data := new Dict(parsed.value.fields);
    EnsureSchema(data, py.str);
    data.entries := data.entries["original_message" := JStr(message)];
    data.entries := data.entries["message_type" := JStr(messageType)];
    var pressure := Pressure(Get(data.entries, "pressure_score"));
    if pressure.Err? {
      return Raised(pressure.error);
    }
    var p := pressure.value;
    var level := Get(data.entries, "risk_level");
    if level == JStr("high") {
      data.entries := data.entries["risk_pct" := JInt(Max(75, p))];
    } else if level == JStr("medium") {
      data.entries := data.entries["risk_pct" := JInt(Max(40, Min(74, p)))];
    } else {
      data.entries := data.entries["risk_pct" := JInt(Min(39, p))];
    }
    var scores := BuildTacticScores(Get(data.entries, "tactic_scores"), TacticNames(data.entries), p, py);
    if scores.Err? {
      return Raised(scores.error);
    }
    data.entries := data.entries["tactic_scores" := JArr(ScoresJson(scores.value))];
    data.entries := data.entries["dashboard_data" := JObj(DashboardData(data.entries))];
    return Dashboard(data.entries);
  }

  /** The record keys `analyze` writes itself. */
  const DerivedKeys: set<string> := {"original_message", "message_type", "risk_pct", "tactic_scores", "dashboard_data"}

  /** What the derivation relies on in the record `_ensure_schema` returns. */
  predicate Completed(s: map<string, Json>) {
    "risk_level" in s && "pressure_score" in s && ListFieldsAreLists(s)
  }

  /** `_ensure_schema` leaves the record in the shape the derivation relies
      on, and does not touch the API's `tactic_scores`. */
  lemma EnsuredCompleted(d: map<string, Json>, str: Json -> string)
    ensures Completed(Ensured(d, str))
    ensures Get(Ensured(d, str), "tactic_scores") == Get(d, "tactic_scores")
  {
    EnsureSchemaKeys(d, str);
    EnsureSchemaLists(d, str);
    assert Defaults[0].0 == "risk_level" && Defaults[2].0 == "pressure_score";
    assert "tactic_scores" !in KeysOf(Defaults) by {
      forall i | 0 <= i < |Defaults| ensures Defaults[i].0 != "tactic_scores" {
      }
    }
  }

  /** One bar of `tactic_scores` as rendered: a name and a score in [0, 100]. */
  predicate ScoreItem(t: Json) {
    && t.JObj? && t.fields.Keys == {"name", "score"}
    && t.fields["name"].JStr? && t.fields["score"].JInt?
    && 0 <= t.fields["score"].i <= 100
  }

  /** `risk_pct` lies in the band of the record's risk level. */
  predicate RiskInBand(r: map<string, Json>) {
    && "risk_level" in r && "risk_pct" in r && r["risk_pct"].JInt?
    && BandOf(r["risk_level"]).lo <= r["risk_pct"].i <= BandOf(r["risk_level"]).hi
  }

  /** `tactic_scores` is a list of bars. */
  predicate ScoresBounded(r: map<string, Json>) {
    && "tactic_scores" in r && r["tactic_scores"].JArr?
    && forall i :: 0 <= i < |r["tactic_scores"].items| ==> ScoreItem(r["tactic_scores"].items[i])
  }

  /** `dashboard_data` repeats the record's risk level, risk percentage,
      pressure score, primary tactics and tactic scores. */
  predicate DashboardMirrors(r: map<string, Json>) {
    && "dashboard_data" in r && r["dashboard_data"].JObj?
    && var dash := r["dashboard_data"].fields;
    && dash.Keys == {"risk_level", "risk_pct", "pressure_score", "primary_tactics", "tactic_scores"}
    && (forall k :: k in dash ==> k in r && dash[k] == r[k])
    && dash["primary_tactics"].JArr?
  }

  /** Writing the scores and the payload yields a dashboard that mirrors the
      record, and touches no other key. */
  lemma FinishedShape(e: map<string, Json>, ts: seq<TacticScore>)
    requires "risk_level" in e && "risk_pct" in e && "pressure_score" in e
    requires "primary_tactics" in e && e["primary_tactics"].JArr?
    requires forall i :: 0 <= i < |ts| ==> 0 <= ts[i].score <= 100
    ensures var f := Finished(e, ts);
            && ScoresBounded(f) && DashboardMirrors(f)
            && forall k :: k in e && k != "tactic_scores" && k != "dashboard_data" ==> k in f && f[k] == e[k]
  {
  }

  /** A completed derivation keeps every field `_ensure_schema` produced
      except the ones it writes itself, records the message and its type as
      submitted, and keeps `risk_pct` in the band of the risk level. */
  lemma CompleteKeeps(s: map<string, Json>, message: string, messageType: string, py: Builtins)
    requires Completed(s)
    ensures var r := Complete(s, message, messageType, py);
            r.Ok? ==>
              && RiskInBand(r.value)
              && "original_message" in r.value && r.value["original_message"] == JStr(message)
              && "message_type" in r.value && r.value["message_type"] == JStr(messageType)
              && forall k :: k in s && k !in DerivedKeys ==> k in r.value && r.value[k] == s[k]
  {
    var e := Stamped(s, message, messageType);
    var pr := Pressure(Get(e, "pressure_score"));
    if pr.Ok? {
      var e' := WithRisk(e, pr.value);
      var tr := TacticScores(Get(e', "tactic_scores"), TacticNames(e'), pr.value, py);
      if tr.Ok? {
        assert RiskInBand(e');
      }
    }
  }

  /** A completed derivation renders only bars with scores in [0, 100], and
      sends the dashboard the record's own values. */
  lemma CompleteRendered(s: map<string, Json>, message: string, messageType: string, py: Builtins)
    requires Completed(s)
    ensures var r := Complete(s, message, messageType, py);
            r.Ok? ==> ScoresBounded(r.value) && DashboardMirrors(r.value)
  {
    var e := Stamped(s, message, messageType);
    var pr := Pressure(Get(e, "pressure_score"));
    if pr.Ok? {
      var e' := WithRisk(e, pr.value);
      assert ListFieldsAreLists(e') && "primary_tactics" in ListKeys;
      var tr := TacticScores(Get(e', "tactic_scores"), TacticNames(e'), pr.value, py);
      if tr.Ok? {
        TacticScoresSource(Get(e', "tactic_scores"), TacticNames(e'), pr.value, py);
        FinishedShape(e', tr.value);
      }
    }
  }

  /** A completed derivation fails exactly when the pressure score is a
      non-empty string, list or object, or when the API sent a score entry
      whose score `int()` rejects. */
  lemma CompleteSucceeds(s: map<string, Json>, message: string, messageType: string, py: Builtins)
    requires Completed(s)
    ensures var api := Get(s, "tactic_scores");
            Complete(s, message, messageType, py).Ok? <==>
              && Pressure(s["pressure_score"]).Ok?
              && (api.JArr? ==> ScoresConvert(ScoreEntries(api.items), py))
  {
    var e := Stamped(s, message, messageType);
    var api := Get(s, "tactic_scores");
    assert Get(e, "pressure_score") == s["pressure_score"];
    var pr := Pressure(Get(e, "pressure_score"));
    if pr.Ok? {
      var e' := WithRisk(e, pr.value);
      assert Get(e', "tactic_scores") == api;
      TacticScoresSource(api, TacticNames(e'), pr.value, py);
      if api.JArr? {
        ApiScoresFilter(api.items, py);
        if api.items == [] {
          assert ScoreEntries(api.items) == [];
        }
      }
    }
  }

  /** When the API sent no entry with a name and a score, the bars are the
      ones synthesised from the record's tactic names and clamped pressure. */
  lemma CompleteSynthesises(s: map<string, Json>, message: string, messageType: string, py: Builtins)
    requires Completed(s) && Pressure(s["pressure_score"]).Ok?
    requires !HasScoreEntry(Get(s, "tactic_scores"))
    ensures var r := Complete(s, message, messageType, py);
            && r.Ok? && "tactic_scores" in r.value
            && r.value["tactic_scores"] ==
                 JArr(ScoresJson(Synthesized(TacticNames(s), Pressure(s["pressure_score"]).value, py.str)))
  {
    var e := Stamped(s, message, messageType);
    assert Get(e, "pressure_score") == s["pressure_score"];
    var p := Pressure(s["pressure_score"]).value;
    var e' := WithRisk(e, p);
    assert Get(e', "tactic_scores") == Get(s, "tactic_scores");
    assert TacticNames(e') == TacticNames(s);
    TacticScoresSource(Get(s, "tactic_scores"), TacticNames(s), p, py);
  }

  /** In terms of the decoded reply itself: the derivation fails exactly
      when the reply's pressure score is a non-empty string, list or object,
      or when its `tactic_scores` holds an entry whose score `int()`
      rejects. */
  lemma DeriveSucceeds(d: map<string, Json>, message: string, messageType: string, py: Builtins)
    ensures var api := Get(d, "tactic_scores");
            Derive(d, message, messageType, py).Ok? <==>
              && Pressure(Get(d, "pressure_score")).Ok?
              && (api.JArr? ==> ScoresConvert(ScoreEntries(api.items), py))
  {
    var s := Ensured(d, py.str);
    EnsuredCompleted(d, py.str);
    CompleteSucceeds(s, message, messageType, py);
    EnsuredPressure(d, py.str);
  }

  /** `_ensure_schema` replaces an absent or None pressure score by 0, which
      the clamp accepts as the missing value did, and keeps any other. */
  lemma EnsuredPressure(d: map<string, Json>, str: Json -> string)
    ensures "pressure_score" in Ensured(d, str)
    ensures Pressure(Ensured(d, str)["pressure_score"]).Ok? <==> Pressure(Get(d, "pressure_score")).Ok?
  {
    EnsureSchemaKeys(d, str);
    assert Defaults[2] == ("pressure_score", JInt(0));
  }

  /** What the view answers: an error response exactly when the reply does
      not decode, and a rendered dashboard always carries a well-formed
      derived record. */
  lemma AnalyzeOutcomes(raw: string, message: string, messageType: string, py: Builtins)
    ensures var resp := AnalyzeReply(raw, message, messageType, py);
            && (resp.InvalidJson? <==> ParseJsonFromResponse(raw, py).Err?)
            && (resp.Dashboard? ==>
                  && RiskInBand(resp.context) && ScoresBounded(resp.context) && DashboardMirrors(resp.context)
                  && "original_message" in resp.context && resp.context["original_message"] == JStr(message)
                  && "message_type" in resp.context && resp.context["message_type"] == JStr(messageType))
  {
    var parsed := ParseJsonFromResponse(raw, py);
    if parsed.Ok? && parsed.value.JObj? {
      EnsuredCompleted(parsed.value.fields, py.str);
      CompleteKeeps(Ensured(parsed.value.fields, py.str), message, messageType, py);
      CompleteRendered(Ensured(parsed.value.fields, py.str), message, messageType, py);
    }
  }

  /** A decoded reply that is not an object makes `_ensure_schema` raise. */
  lemma NonObjectRaises(raw: string, message: string, messageType: string, py: Builtins)
    requires ParseJsonFromResponse(raw, py).Ok? && !ParseJsonFromResponse(raw, py).value.JObj?
    ensures AnalyzeReply(raw, message, messageType, py) == Raised(TypeError)
  {
  }
}
