/** `_ensure_schema`: fill in the eleven keys the dashboard reads, in place,
    from a table of defaults. */
module Schema {
  import opened Values

  /** The defaults table, in the order the loop visits it. */
  const Defaults: seq<(string, Json)> := [
    ("risk_level", JStr("low")),
    ("scam_type", JStr("other")),
    ("pressure_score", JInt(0)),
    ("confidence", JStr("low")),
    ("primary_tactics", JArr([])),
    ("red_flags", JArr([])),
    ("manipulation_tactics", JArr([])),
    ("one_sentence_summary", JStr("")),
    ("safe_reply", JStr("")),
    ("what_to_do", JArr([])),
    ("what_not_to_do", JArr([]))
  ]

  /** The keys whose values are forced to be lists. */
  const ListKeys: set<string> :=
    {"primary_tactics", "red_flags", "manipulation_tactics", "what_to_do", "what_not_to_do"}

  /** A Python dict the pipeline updates in place. */
  class Dict {
    var entries: map<string, Json>

    constructor (entries: map<string, Json>)
      ensures this.entries == entries
    {
      this.entries := entries;
    }
  }

  /** `[str(v)] if v else []`: the list a present non-list value becomes. */
  function AsList(v: Json, str: Json -> string): (r: Json)
    ensures r.JArr? && |r.items| <= 1
    ensures Truthy(v) <==> r.items != []
  {
    if Truthy(v) then JArr([JStr(str(v))]) else JArr([])
  }

  /** One turn of the loop: the update for key `k` with default `v`. */
  function Step(d: map<string, Json>, k: string, v: Json, str: Json -> string): (r: map<string, Json>)
    ensures k in r && (v != JNull ==> r[k] != JNull)
  {
    if k !in d || d[k] == JNull then d[k := v]
    else if k in ListKeys && !d[k].JArr? then d[k := AsList(d[k], str)]
    else d
  }

  /** The dict after the loop has visited the entries of `defs`, in order. */
  function ApplyDefaults(d: map<string, Json>, defs: seq<(string, Json)>, str: Json -> string): (r: map<string, Json>)
    ensures d.Keys <= r.Keys
    decreases |defs|
  {
    if defs == [] then d
    else
      var last := defs[|defs| - 1];
      Step(ApplyDefaults(d, defs[..|defs| - 1], str), last.0, last.1, str)
  }

  /** The dict `_ensure_schema` returns. */
  function Ensured(d: map<string, Json>, str: Json -> string): (r: map<string, Json>)
    ensures d.Keys <= r.Keys
  {
    ApplyDefaults(d, Defaults, str)
  }

  /** What key `k`, whose default is `v`, holds after the call: its default
      when absent or None; for a list key a list; otherwise what it held. */
  function Fixed(d: map<string, Json>, k: string, v: Json, str: Json -> string): (r: Json)
    ensures v != JNull ==> r != JNull
    ensures k in ListKeys && v.JArr? ==> r.JArr?
    ensures k in d && d[k] != JNull && k !in ListKeys ==> r == d[k]
  {
    if k !in d || d[k] == JNull then v
    else if k in ListKeys && !d[k].JArr? then AsList(d[k], str)
    else d[k]
  }

  /** `_ensure_schema(data)`: visits the defaults table in order, updating
      `data` in place. */
  method EnsureSchema(data: Dict, str: Json -> string)
    modifies data
    ensures data.entries == Ensured(old(data.entries), str)
  {
    var i := 0;
    while i < |Defaults|
      invariant 0 <= i <= |Defaults|
      invariant data.entries == ApplyDefaults(old(data.entries), Defaults[..i], str)
    {
      var (k, v) := Defaults[i];
      if k !in data.entries || data.entries[k] == JNull {
        data.entries := data.entries[k := v];
      } else if k in ListKeys {
        if !data.entries[k].JArr? {
          data.entries := data.entries[k := if Truthy(data.entries[k]) then JArr([JStr(str(data.entries[k]))]) else JArr([])];
        }
      }
      assert Defaults[..i + 1][..i] == Defaults[..i];
      i := i + 1;
    }
    assert Defaults[..i] == Defaults;
  }

  /** No key appears twice in `defs`. */
  predicate KeysDistinct(defs: seq<(string, Json)>) {
    forall i, j :: 0 <= i < j < |defs| ==> defs[i].0 != defs[j].0
  }

  /** The keys of a table. */
  function KeysOf(defs: seq<(string, Json)>): set<string> {
    set i | 0 <= i < |defs| :: defs[i].0
  }

  /** One turn of the loop sets its key to the `Fixed` value. */
  lemma StepSetsFixed(d: map<string, Json>, k: string, v: Json, str: Json -> string)
    ensures Step(d, k, v, str) == d[k := Fixed(d, k, v, str)]
  {
  }

  /** Visiting a table of distinct keys sets each of them to its `Fixed`
      value and leaves every other key as it was. */
  lemma {:induction false} ApplyDefaultsEntries(d: map<string, Json>, defs: seq<(string, Json)>, str: Json -> string)
    requires KeysDistinct(defs)
    ensures var r := ApplyDefaults(d, defs, str);
            forall i :: 0 <= i < |defs| ==> defs[i].0 in r && r[defs[i].0] == Fixed(d, defs[i].0, defs[i].1, str)
    ensures var r := ApplyDefaults(d, defs, str);
            forall k :: k !in KeysOf(defs) ==> (k in r <==> k in d) && (k in d ==> r[k] == d[k])
    decreases |defs|
  {
    if defs != [] {
      var n := |defs|;
      var init := defs[..n - 1];
      var (k, v) := defs[n - 1];
      assert KeysDistinct(init);
      ApplyDefaultsEntries(d, init, str);
      var prev := ApplyDefaults(d, init, str);
      var r := ApplyDefaults(d, defs, str);
      assert k !in KeysOf(init) by {
        forall i | 0 <= i < n - 1 ensures init[i].0 != k {
          assert init[i] == defs[i];
        }
      }
      assert Fixed(prev, k, v, str) == Fixed(d, k, v, str);
      StepSetsFixed(prev, k, v, str);
      assert r == prev[k := Fixed(d, k, v, str)];
      forall i | 0 <= i < n
        ensures defs[i].0 in r && r[defs[i].0] == Fixed(d, defs[i].0, defs[i].1, str)
      {
        if i < n - 1 {
          assert init[i] == defs[i];
          assert defs[i].0 != k;
        }
      }
      forall k' | k' !in KeysOf(defs)
        ensures (k' in r <==> k' in d) && (k' in d ==> r[k'] == d[k'])
      {
        assert k' != defs[n - 1].0;
        assert k' !in KeysOf(init) by {
          forall i | 0 <= i < n - 1 ensures init[i].0 != k' {
            assert init[i] == defs[i];
          }
        }
      }
    }
  }

  /** Per key, the dict `_ensure_schema` returns: every default key holds
      its `Fixed` value and every other key is untouched. */
  lemma EnsuredEntries(d: map<string, Json>, str: Json -> string)
    ensures var r := Ensured(d, str);
            forall i :: 0 <= i < |Defaults| ==> Defaults[i].0 in r && r[Defaults[i].0] == Fixed(d, Defaults[i].0, Defaults[i].1, str)
    ensures var r := Ensured(d, str);
            forall k :: k !in KeysOf(Defaults) ==> (k in r <==> k in d) && (k in d ==> r[k] == d[k])
  {
    assert KeysDistinct(Defaults);
    ApplyDefaultsEntries(d, Defaults, str);
  }

  /** After `_ensure_schema` all eleven default keys are present and none
      is None; an absent or None key holds exactly its default; a present
      value of a key that is not a list field is unchanged; keys outside the
      table are untouched. */
  lemma EnsureSchemaKeys(d: map<string, Json>, str: Json -> string)
    ensures var r := Ensured(d, str);
            forall i :: 0 <= i < |Defaults| ==> Defaults[i].0 in r && r[Defaults[i].0] != JNull
    ensures var r := Ensured(d, str);
            forall i :: 0 <= i < |Defaults| && (Defaults[i].0 !in d || d[Defaults[i].0] == JNull) ==>
              r[Defaults[i].0] == Defaults[i].1
    ensures var r := Ensured(d, str);
            forall i :: 0 <= i < |Defaults| && Defaults[i].0 !in ListKeys && Defaults[i].0 in d && d[Defaults[i].0] != JNull ==>
              r[Defaults[i].0] == d[Defaults[i].0]
    ensures var r := Ensured(d, str);
            forall k :: k !in KeysOf(Defaults) ==> (k in r <==> k in d) && (k in d ==> r[k] == d[k])
  {
    EnsuredEntries(d, str);
    assert forall i :: 0 <= i < |Defaults| ==> Defaults[i].1 != JNull;
  }

  /** The list fields of the table, with their positions. */
  lemma ListKeysInTable()
    ensures ListKeys == {Defaults[4].0, Defaults[5].0, Defaults[6].0, Defaults[9].0, Defaults[10].0}
    ensures forall i :: 0 <= i < |Defaults| && Defaults[i].0 in ListKeys ==> Defaults[i].1 == JArr([])
  {
  }

  /** What a list field holds after `_ensure_schema`, given what it held. */
  predicate ListFieldFixed(d: map<string, Json>, r: map<string, Json>, k: string, str: Json -> string) {
    && k in r && r[k].JArr?
    && (k in d && d[k].JArr? ==> r[k] == d[k])
    && (k in d && !d[k].JArr? && Truthy(d[k]) ==> r[k] == JArr([JStr(str(d[k]))]))
    && (k in d && !d[k].JArr? && !Truthy(d[k]) ==> r[k] == JArr([]))
    && (k !in d ==> r[k] == JArr([]))
  }

  lemma ListFieldAt(d: map<string, Json>, str: Json -> string, i: nat)
    requires i < |Defaults| && Defaults[i].0 in ListKeys
    ensures ListFieldFixed(d, Ensured(d, str), Defaults[i].0, str)
  {
    EnsuredEntries(d, str);
    ListKeysInTable();
  }

  /** After `_ensure_schema` every list field holds a list: an existing list
      as it was, a truthy non-list `v` as `[str(v)]`, a falsy one, None or
      nothing as `[]`. */
  lemma EnsureSchemaLists(d: map<string, Json>, str: Json -> string)
    ensures forall k :: k in ListKeys ==> ListFieldFixed(d, Ensured(d, str), k, str)
  {
    ListKeysInTable();
    ListFieldAt(d, str, 4);
    ListFieldAt(d, str, 5);
    ListFieldAt(d, str, 6);
    ListFieldAt(d, str, 9);
    ListFieldAt(d, str, 10);
  }

  /** `_ensure_schema` is idempotent: applied to its own result it changes
      nothing. */
  lemma EnsureSchemaIdempotent(d: map<string, Json>, str: Json -> string)
    ensures Ensured(Ensured(d, str), str) == Ensured(d, str)
  {
    var r := Ensured(d, str);
    var rr := Ensured(r, str);
    EnsuredEntries(d, str);
    EnsuredEntries(r, str);
    EnsureSchemaKeys(d, str);
    EnsureSchemaLists(d, str);
    forall k | k in rr ensures k in r && rr[k] == r[k] {
      if k in KeysOf(Defaults) {
        var i :| 0 <= i < |Defaults| && Defaults[i].0 == k;
        assert rr[k] == Fixed(r, k, Defaults[i].1, str);
      }
    }
    forall k | k in r ensures k in rr {
      if k in KeysOf(Defaults) {
        var i :| 0 <= i < |Defaults| && Defaults[i].0 == k;
      }
    }
  }
}
