# FraudMind reply pipeline — a Dafny model

FraudMind asks a language model to rate a pasted message for social-engineering
risk. The model replies with a JSON object, and the Django view `analyze` turns
that reply into the record the dashboard renders. This project models the part
of `detector/views.py` that runs after the reply has arrived, and proves
properties of it:

- `_parse_json_from_response` (`fence.dfy`). It trims the reply. When the reply
  is wrapped in a markdown code fence, it removes the opening fence
  (`^```(?:json)?\s*`) and the closing fence (`\s*```\s*$`). The rest goes to
  the JSON decoder. Whitespace is Python's `str.isspace` set, the same set
  that `\s` matches.
- `_ensure_schema` (`schema.dfy`). This loop updates the decoded dict in place.
  It fills in the eleven default keys and forces the five list fields to be
  lists. It is modelled as a `Dict` class and a `while` loop, proved against
  the function `Ensured`.
- The derivation in `analyze` (`scoring.dfy`, `analysis.dfy`):
  - the clamped `pressure`;
  - `risk_pct`, banded by `risk_level`;
  - `tactic_scores`, either from the API's own entries or synthesised from the
    tactic names by position;
  - the `dashboard_data` payload.

  The two score loops form the method `BuildTacticScores`. The whole in-place
  sequence is the method `Analyze`, proved equal to the pure `AnalyzeReply`.

`values.dfy` holds the JSON value type and the Python built-ins the code
relies on:
- truthiness;
- `int()` on a decoded value;
- `max(lo, min(hi, x))`;
- truncation of a quotient toward zero.

Three built-ins are parameters (`Builtins`), not definitions:
- `json.loads`, which is `None` when it raises;
- `str()` of an arbitrary value;
- `int()` of a string.

Python exceptions are `Err` results. Examples are the `TypeError` from a
non-empty string pressure score and the `ValueError` from `int("abc")`.

Three behaviours of the code, which the model keeps:
- A synthesised score is truncated, not rounded. For pressure 80 the first
  three bars are 80, 73 and 66, where rounding would make the third 67.
- An API score that `int()` rejects raises. It does not count as 0.
- The API's `tactic_scores` can be a non-empty list in which no entry has both
  a name and a score. The bars are then synthesised from the tactic names, as
  when the API sent none.

## Model

| member | source | states |
|---|---|---|
| Values.Get | detector/views.py:206-217 | `d.get(k)` is the stored value, or None when `k` is absent |
| Values.Int | detector/views.py:223 | `int(v)` succeeds exactly for integers, booleans and strings the parser accepts; an integer passes unchanged; a string failure is ValueError, any other failure TypeError |
| Values.Truthy | detector/views.py:86 | a value is falsy exactly when it is None, False, 0, "", [] or {}; the same test decides the `or` at lines 206, 215 and 237 and the `not tactic_scores` at line 225 |
| Values.Clamp | detector/views.py:206 | `max(lo, min(hi, x))` lies in [lo, hi], is `x` inside the range, and saturates at the bound outside it |
| Values.TruncDiv | detector/views.py:228 | `int()` of the exact quotient truncates toward zero, for negative numerators too |
| Values.DivBounds | detector/views.py:228 | for a non-negative numerator the Euclidean quotient brackets it: `q * d <= n < q * d + d` |
| Fence.IsSpace | detector/views.py:58-62 | whitespace is membership in the code-point ranges of `str.isspace`, the set `\s` matches; ExampleChars shows space and newline inside it and the backtick and braces outside |
| Fence.SkipSpace | detector/views.py:58-61 | the scan stops at the end of the leading whitespace run: everything skipped is whitespace, the next character is not |
| Fence.SkipSpaceBack | detector/views.py:58-62 | the backward scan stops at the start of the trailing whitespace run, never before its lower limit |
| Fence.Strip | detector/views.py:58 | `strip()` never lengthens the text and leaves no whitespace at either end |
| Fence.StripShape | detector/views.py:58 | `strip()` removes only whitespace, from the two ends, and keeps the middle intact |
| Fence.OpeningEnd | detector/views.py:61 | the opening match ends within the text; it is empty when the text does not start with three backticks, and otherwise covers at least the backticks and stops before a non-space |
| Fence.StripOpening | detector/views.py:61 | the opening substitution leaves a suffix of the text, and the whole text when it does not start with three backticks |
| Fence.ClosingStart | detector/views.py:62 | the closing match starts within the text, and when it matches at all at least three characters (the backticks) follow its start |
| Fence.StripClosing | detector/views.py:62 | the closing substitution leaves a prefix of the text: the whole text, or one at least three characters shorter |
| Fence.StripFences | detector/views.py:58-62 | trimmed text that does not start with three backticks goes to the decoder unchanged; the decoded text is never longer than the trimmed reply |
| Fence.ParseJsonFromResponse | detector/views.py:56-63 | succeeds exactly when the decoder accepts the fence-stripped text, with the decoder's value; otherwise raises JSONDecodeError |
| Fence.OpeningEndShape | detector/views.py:61 | the opening strip removes exactly three backticks, the `json` tag when present, and all the whitespace after them |
| Fence.ClosingStartShape | detector/views.py:62 | on text without trailing whitespace, the closing strip removes whitespace, three backticks and whitespace, greedily; when the text does not end in backticks it removes nothing |
| Fence.ClosingSplit | detector/views.py:62 | on the rest of a trimmed reply, the closing match starts right after a non-space and is whitespace, three backticks and whitespace up to the end; when nothing is removed the text does not end in three backticks |
| Fence.FenceSplitOfStripped | detector/views.py:60-62 | the two substitutions keep exactly the text between a greedy opening fence and a greedy closing fence (or the end) |
| Fence.FencedReply | detector/views.py:58-62 | a fenced reply loses exactly its opening fence and, when it ends in one, its closing fence |
| Fence.FencedObjectExample | detector/views.py:58-62 | "```json\n{\"a\":1}\n```" is decoded from `{"a":1}` |
| Fence.UnfencedExample | detector/views.py:58-60 | " {\"a\":1}\n" is decoded from `{"a":1}`, trimmed but otherwise intact |
| Schema.Fixed | detector/views.py:82-86 | the value a key ends with is never None when its default is not, is a list for a list field whose default is a list, and is the stored value for a present, non-None value of a non-list key |
| Schema.Step | detector/views.py:81-86 | one turn of the loop leaves its own key present, and non-None when its default is; StepSetsFixed shows that nothing else changes |
| Schema.ApplyDefaults | detector/views.py:81-86 | the loop never removes a key; ApplyDefaultsEntries gives the value of every key |
| Schema.Ensured | detector/views.py:66-87 | `_ensure_schema` keeps every key it was given; EnsuredEntries, EnsureSchemaKeys and EnsureSchemaLists give the values |
| Schema.AsList | detector/views.py:86 | a present non-list value becomes a list of at most one element, non-empty exactly when the value is truthy |
| Schema.EnsureSchema | detector/views.py:66-87 | the in-place loop over the defaults table leaves the dict equal to `Ensured` of its old contents |
| Schema.StepSetsFixed | detector/views.py:82-86 | one turn of the loop changes only its own key, to its default, its list form, or its old value |
| Schema.ApplyDefaultsEntries | detector/views.py:81-86 | for any table of distinct keys, every key gets its `Fixed` value and every other key is untouched |
| Schema.EnsuredEntries | detector/views.py:68-86 | the same, for the eleven-entry defaults table |
| Schema.EnsureSchemaKeys | detector/views.py:68-83 | all eleven default keys are present and none is None; an absent or None key holds its default; a present value of a non-list key is unchanged; keys outside the table are untouched |
| Schema.ListKeysInTable | detector/views.py:73-84 | the five list fields are table keys, each with the empty list as default |
| Schema.EnsureSchemaLists | detector/views.py:84-86 | every list field ends up a list: an existing list as is, a truthy non-list `v` as `[str(v)]`, a falsy one, None or nothing as `[]` |
| Schema.EnsureSchemaIdempotent | detector/views.py:81-86 | `_ensure_schema` applied to its own result changes nothing |
| Scoring.Pressure | detector/views.py:206 | the pressure lies in [0, 100] and equals an in-range integer score; it is 0 or 100 for scores beyond the range; it raises TypeError exactly for a truthy string, list or object |
| Scoring.BandOf | detector/views.py:207-212 | each band of risk percentages lies within [0, 100] |
| Scoring.RiskPct | detector/views.py:207-212 | `risk_pct` lies in the band of the risk level (high, medium, anything else) and equals the pressure whenever the pressure lies in that band |
| Scoring.RiskPctMonotoneNearest | detector/views.py:207-212 | `risk_pct` never decreases as the pressure grows, and it is the point of the band nearest to the pressure |
| Scoring.RiskPctBands | detector/views.py:206-212 | for every integer pressure score the pressure is defined and `risk_pct` lies in [75,100], [40,74] or [0,39] by risk level |
| Scoring.IsScoreEntry | detector/views.py:220 | the guard of the API loop: a dict with both a `name` and a `score` key; ScoreEntries collects exactly the items it accepts and ScoreEntriesEmpty states when there are none |
| Scoring.ApiScores | detector/views.py:217-224 | on success at most one bar per item, each score in [0, 100]; a failure is a TypeError or ValueError from `int()`; ApiScoresFilter characterises it fully |
| Scoring.EntryScore | detector/views.py:219-224 | one kept entry succeeds exactly when `int()` accepts its score; the bar is named `str(name)`, its score lies in [0, 100] and equals the integer when that is in range |
| Scoring.ScoreEntries | detector/views.py:219-220 | the kept API entries, each with a name and a score, are at most as many as the items |
| Scoring.ApiScoresFilter | detector/views.py:217-224 | the API loop keeps exactly the dicts with both keys, in order, with `str(name)` and the clamped score, and succeeds exactly when `int()` accepts every kept score |
| Scoring.ApiScoresFirstFailure | detector/views.py:219-223 | when the API loop raises, it raises the exception of the first kept entry whose score `int()` rejects |
| Scoring.ScoreEntriesEmpty | detector/views.py:219-220 | no entry is kept exactly when no item is a dict with both a name and a score |
| Scoring.ApiScoresRaised | detector/views.py:219-223 | once an entry has raised, the rest of the list does not change the outcome |
| Scoring.SynthScore | detector/views.py:228 | a synthesised score lies in [0, 100], and the first one equals the pressure |
| Scoring.SynthNumerator | detector/views.py:228 | one hundred times the float expression: the first bar's is 100 times the pressure, and at pressure 25 every bar's is 2500, so all bars are 25 |
| Scoring.TacticScores | detector/views.py:216-229 | every score lies in [0, 100]; with tactic names the bars are never empty; without a non-empty API list they are the synthesised bars; a failure is a TypeError or ValueError |
| Scoring.Synthesized | detector/views.py:225-229 | one bar per tactic name, in order, named `str(name)`, with a score in [0, 100] |
| Scoring.BuildTacticScores | detector/views.py:216-229 | the two loops build exactly `TacticScores`: the API's bars, or the synthesised ones when none was kept and there are names, or the API loop's exception |
| Scoring.TacticScoresSource | detector/views.py:217-229 | every score lies in [0, 100]; the bars come from the API exactly when it sent an entry with both keys; otherwise they are synthesised, so with no names there are none; only API entries can raise |
| Scoring.SynthScoreTrend | detector/views.py:228 | with pressure at least 25 the synthesised bars never grow along the list, and below 25 they never shrink |
| Scoring.SynthesizedExample | detector/views.py:228 | pressure 80 and three names give the bars 80, 73 and 66 |
| Analysis.Or | detector/views.py:215 | `x or default` is `x` when it is truthy and `default` otherwise, as at lines 215 and 237 (the `or 0` of line 206 is part of Pressure) |
| Analysis.GetOr | detector/views.py:234-236 | `d.get(k, default)` is the stored value when `k` is present, even None, and `default` when it is absent |
| Analysis.TacticNames | detector/views.py:215 | the synthesis enumerates `manipulation_tactics` when it is non-empty, else `primary_tactics` |
| Analysis.DashboardData | detector/views.py:233-239 | the payload has exactly the five dashboard keys; `risk_level`, `risk_pct` and `pressure_score` are `d.get(k, default)` with defaults "low", 0 and 0; `primary_tactics` is the stored value when that is truthy and `[]` otherwise; `tactic_scores` is passed through |
| Analysis.Stamped | detector/views.py:203-204 | the record holds the submitted message and its type; every other key is unchanged |
| Analysis.WithRisk | detector/views.py:207-212 | `risk_pct` is an integer in the band of the risk level; every other key is unchanged |
| Analysis.Finished | detector/views.py:230-239 | `tactic_scores` holds the bars as dicts and `dashboard_data` is an object; every other key is unchanged |
| Analysis.Complete | detector/views.py:203-239 | on success the record keeps every key `_ensure_schema` returned and has the five keys `analyze` writes; the only exceptions are TypeError and ValueError |
| Analysis.Derive | detector/views.py:202-239 | the same for the decoded reply: every key the API sent survives, and the only exceptions are TypeError and ValueError |
| Analysis.AnalyzeReply | detector/views.py:181-239 | the view answers with the invalid-JSON response exactly when parsing fails; an exception that escapes is a TypeError or ValueError, never JSONDecodeError |
| Analysis.Analyze | detector/views.py:181-241 | parsing, the in-place completion and the derived writes produce exactly `AnalyzeReply`: an error response for undecodable text, TypeError for a non-object, the escaping exception, or the rendered record |
| Analysis.EnsuredCompleted | detector/views.py:202-217 | after `_ensure_schema` the risk level and pressure score are present, the list fields are lists, and the API's `tactic_scores` is as sent |
| Analysis.FinishedShape | detector/views.py:230-239 | writing the scores and the payload gives bars only, a payload that mirrors the record, and no other change |
| Analysis.CompleteKeeps | detector/views.py:202-212 | the rendered record keeps every completed field except the ones `analyze` writes, holds the message and its type as submitted, and keeps `risk_pct` in the band of the risk level |
| Analysis.CompleteRendered | detector/views.py:214-239 | every rendered bar has a name and a score in [0, 100], and `dashboard_data` carries the record's own risk level, risk percentage, pressure score, primary tactics (a list) and tactic scores |
| Analysis.CompleteSucceeds | detector/views.py:206-224 | the derivation succeeds exactly when the pressure score is not a truthy string, list or object and `int()` accepts every kept API score |
| Analysis.CompleteSynthesises | detector/views.py:215-230 | with no usable API entry, the rendered bars are the synthesised ones for the record's tactic names and clamped pressure |
| Analysis.EnsuredPressure | detector/views.py:202-206 | `_ensure_schema` fills an absent or None pressure score with 0, which the clamp accepts exactly as it accepts the original |
| Analysis.DeriveSucceeds | detector/views.py:202-230 | the same success condition, stated on the decoded reply itself |
| Analysis.AnalyzeOutcomes | detector/views.py:181-241 | the view sends an error response exactly when the reply does not decode; a rendered dashboard always carries a record with `risk_pct` in band, bounded bars, a mirroring payload and the submitted message |
| Analysis.NonObjectRaises | detector/views.py:82-83 | a reply that decodes to something other than an object makes `_ensure_schema` raise TypeError |

## Left out

- The OpenAI calls and the probing of the response object (lines 124-179) are not modelled. They are network I/O against a library that is not shown.
- The Django plumbing is not modelled: `render`, `redirect`, `HttpResponse`, the request method check and the form reading.
- The response to an undecodable reply is reduced to a single outcome, `InvalidJson`. The `Accept` header test, the 502 JSON body with its 500-character preview, and the error page (lines 185-200) are not modelled.
- Logging, printing to stderr, the `OPENAI_API_KEY` variable and the prompt formatting are not modelled. None of them affects the derived record.
- `json.loads`, `str()` of a value and `int()` of a string are parameters of `Builtins`, not definitions. The model proves nothing about what they return.
- JSON floating-point numbers are not modelled. A fractional `pressure_score` or `score` cannot be expressed.
- SynthScore: exact rational arithmetic truncated toward zero stands in for the float expression `pressure * (1.0 - i * 0.12) + i * 3`. Where the exact value is an integer, float error could make `int()` land one lower. The example uses values whose fractional parts (73.4, 66.8) are far from that edge.
- Pressure: a pressure score of `true` is modelled as the integer 1. Python keeps the boolean. For a low risk level it then stores `True` as `risk_pct`, where the model stores 1.
- TacticNames: the enumeration of a truthy non-list value is not modelled. After `_ensure_schema` both tactic fields are always lists (EnsureSchemaLists), so the case cannot arise.
- The order of dict keys is not modelled. Records are maps.
- Writes made before an exception is raised are not modelled. The dict is local to the view, so nothing observes them.
