/** Extraction of the JSON text from the model's reply: trim it, and when it
    is wrapped in a markdown code fence, strip the fence before decoding. */
module Fence {
  import opened Values

  const Backticks: string := "```"
  const JsonTag: string := "json"

  /** The code-point ranges of Python's whitespace (`str.isspace`), which
      is also what `\s` matches in a `str` regular expression. */
  const SpaceRanges: seq<(char, char)> := [
    ('\t', '\r'), ('\U{1c}', ' '), ('\U{85}', '\U{85}'), ('\U{a0}', '\U{a0}'),
    ('\U{1680}', '\U{1680}'), ('\U{2000}', '\U{200a}'), ('\U{2028}', '\U{2029}'),
    ('\U{202f}', '\U{202f}'), ('\U{205f}', '\U{205f}'), ('\U{3000}', '\U{3000}')]

  predicate InRanges(c: char, ranges: seq<(char, char)>) {
    ranges != [] && (ranges[0].0 <= c <= ranges[0].1 || InRanges(c, ranges[1..]))
  }

  predicate IsSpace(c: char) {
    InRanges(c, SpaceRanges)
  }

  /** Every character of `s[i..j]` is whitespace. */
  predicate SpaceBetween(s: string, i: int, j: int)
    requires 0 <= i && j <= |s|
  {
    forall k :: i <= k < j ==> IsSpace(s[k])
  }

  /** `s[i..]` starts with `p`. */
  predicate HasAt(s: string, i: nat, p: string) {
    i + |p| <= |s| && s[i..i + |p|] == p
  }

  /** The end of the whitespace run that starts at `i`. */
  function SkipSpace(s: string, i: nat): (j: nat)
    requires i <= |s|
    ensures i <= j <= |s| && SpaceBetween(s, i, j)
    ensures j < |s| ==> !IsSpace(s[j])
    decreases |s| - i
  {
    if i < |s| && IsSpace(s[i]) then SkipSpace(s, i + 1) else i
  }

  /** The start of the whitespace run that ends at `j`, going back no
      further than `lo`. */
  function SkipSpaceBack(s: string, lo: nat, j: nat): (i: nat)
    requires lo <= j <= |s|
    ensures lo <= i <= j && SpaceBetween(s, i, j)
    ensures lo < i ==> !IsSpace(s[i - 1])
    decreases j
  {
    if lo < j && IsSpace(s[j - 1]) then SkipSpaceBack(s, lo, j - 1) else j
  }

  /** `s.strip()`: scan whitespace from the left, then from the right no
      further back than where the left scan stopped. */
  function Strip(s: string): (r: string)
    ensures |r| <= |s|
    ensures r == [] || (!IsSpace(r[0]) && !IsSpace(r[|r| - 1]))
  {
    var a := SkipSpace(s, 0);
    var b := SkipSpaceBack(s, a, |s|);
    assert a < b ==> s[a..b][0] == s[a] && s[a..b][b - a - 1] == s[b - 1];
    s[a..b]
  }

  /** `strip` removes only whitespace, from both ends. */
  lemma StripShape(s: string)
    ensures exists a: nat, b: nat :: a <= b <= |s| && Strip(s) == s[a..b]
                                     && SpaceBetween(s, 0, a) && SpaceBetween(s, b, |s|)
  {
    var a := SkipSpace(s, 0);
    var b := SkipSpaceBack(s, a, |s|);
    assert SpaceBetween(s, b, |s|);
    assert Strip(s) == s[a..b];
  }

  /** Where the match of `^```(?:json)?\s*` ends in `s`, or 0 when `s` does
      not start with backticks: the tag and the whitespace are greedy. */
  function OpeningEnd(s: string): (a: nat)
    ensures a <= |s|
    ensures !HasAt(s, 0, Backticks) ==> a == 0
    ensures HasAt(s, 0, Backticks) ==> 3 <= a && (a < |s| ==> !IsSpace(s[a]))
  {
    if HasAt(s, 0, Backticks) then
      SkipSpace(s, if HasAt(s, 3, JsonTag) then 7 else 3)
    else
      0
  }

  /** Where the leftmost match of `\s*```\s*$` starts in `s`, or `|s|` when
      there is none: it takes the trailing whitespace, the last three other
      characters when they are backticks, and the whitespace before them. */
  function ClosingStart(s: string): (c: nat)
    ensures c <= |s|
    ensures c < |s| ==> c + 3 <= |s|
  {
    var e := SkipSpaceBack(s, 0, |s|);
    if 3 <= e && HasAt(s, e - 3, Backticks) then SkipSpaceBack(s, 0, e - 3) else |s|
  }

  /** `re.sub(r"^```(?:json)?\s*", "", s)`. */
  function StripOpening(s: string): (r: string)
    ensures |r| <= |s| && r == s[|s| - |r|..]
    ensures !HasAt(s, 0, Backticks) ==> r == s
  {
    s[OpeningEnd(s)..]
  }

  /** `re.sub(r"\s*```\s*$", "", s)`. */
  function StripClosing(s: string): (r: string)
    ensures r <= s
    ensures |r| == |s| || |r| + 3 <= |s|
  {
    s[..ClosingStart(s)]
  }

  /** The text `_parse_json_from_response` hands to the JSON decoder. */
  function StripFences(raw: string): (r: string)
    ensures !HasAt(Strip(raw), 0, Backticks) ==> r == Strip(raw)
    ensures |r| <= |Strip(raw)|
  {
    var t := Strip(raw);
    if HasAt(t, 0, Backticks) then StripClosing(StripOpening(t)) else t
  }

  /** `_parse_json_from_response`: decode the fence-stripped reply. */
  function ParseJsonFromResponse(raw: string, py: Builtins): (r: Result<Json>)
    ensures r.Ok? <==> py.loads(StripFences(raw)).Some?
    ensures r.Ok? ==> r.value == py.loads(StripFences(raw)).value
    ensures r.Err? ==> r.error == JsonDecodeError
  {
    match py.loads(StripFences(raw))
    case Some(v) => Ok(v)
    case None => Err(JsonDecodeError)
  }

  /** `t[..a]` is a whole opening fence: backticks, an optional `json` tag
      and whitespace. */
  predicate OpeningFenceUpTo(t: string, a: nat) {
    && HasAt(t, 0, Backticks) && 3 <= a <= |t|
    && (SpaceBetween(t, 3, a) || (HasAt(t, 3, JsonTag) && 7 <= a && SpaceBetween(t, 7, a)))
  }

  /** `t[b..]` is a whole closing fence: whitespace, backticks, whitespace. */
  predicate ClosingFenceFrom(t: string, b: nat) {
    exists i :: b <= i && i + 3 <= |t| && SpaceBetween(t, b, i) && HasAt(t, i, Backticks)
                && SpaceBetween(t, i + 3, |t|)
  }

  /** The kept text `t[a..b]` of a fenced reply `t`: `t[..a]` is the opening
      fence, `t[b..]` the closing one or nothing, and each strip is as long
      as the pattern allows. */
  predicate FenceSplit(t: string, a: nat, b: nat) {
    && a <= b <= |t|
    && OpeningFenceUpTo(t, a)
    && (HasAt(t, 3, JsonTag) ==> 7 <= a)
    && (a < b ==> !IsSpace(t[a]))
    && (b < |t| ==> ClosingFenceFrom(t, b) && (a < b ==> !IsSpace(t[b - 1])))
    && (b == |t| ==> !(a + 3 <= b && HasAt(t, b - 3, Backticks)))
  }

  /** The opening strip removes exactly the greedy opening fence. */
  lemma OpeningEndShape(t: string)
    requires HasAt(t, 0, Backticks)
    ensures var a := OpeningEnd(t);
            OpeningFenceUpTo(t, a) && (HasAt(t, 3, JsonTag) ==> 7 <= a)
            && (a < |t| ==> !IsSpace(t[a]))
  {
  }

  /** Positions of `u == t[a..]` read the same characters in `t`. */
  lemma ShiftSpace(t: string, a: nat, i: nat, j: nat)
    requires a <= |t| && i <= j <= |t| - a
    ensures SpaceBetween(t[a..], i, j) <==> SpaceBetween(t, a + i, a + j)
  {
  }

  /** A closing fence found in `t[a..]` is one in `t`. */
  lemma ShiftClosing(t: string, a: nat, c: nat)
    requires a <= |t| && ClosingFenceFrom(t[a..], c)
    ensures ClosingFenceFrom(t, a + c)
  {
    var u := t[a..];
    var i :| c <= i && i + 3 <= |u| && SpaceBetween(u, c, i) && HasAt(u, i, Backticks)
             && SpaceBetween(u, i + 3, |u|);
    ShiftSpace(t, a, c, i);
    ShiftSpace(t, a, i + 3, |u|);
    assert t[a + i..a + i + 3] == u[i..i + 3];
  }

  /** The closing strip removes exactly a greedy closing fence, or nothing
      when the text does not end with backticks. */
  lemma ClosingStartShape(u: string)
    requires u == [] || !IsSpace(u[|u| - 1])
    ensures var c := ClosingStart(u);
            && c <= |u|
            && (c < |u| ==> ClosingFenceFrom(u, c) && (0 < c ==> !IsSpace(u[c - 1])))
            && (c == |u| ==> !(3 <= |u| && HasAt(u, |u| - 3, Backticks)))
  {
  }

  /** A text without trailing whitespace keeps none after dropping a prefix. */
  lemma NoTrailingSpaceSuffix(t: string, a: nat)
    requires a <= |t| && (t == [] || !IsSpace(t[|t| - 1]))
    ensures t[a..] == [] || !IsSpace(t[a..][|t| - a - 1])
  {
  }

  /** After the opening strip up to `a`, the closing strip of `t[a..]`
      ends the kept text at `b`, where a greedy closing fence starts, or at
      the end when `t` does not end in backticks past `a`. */
  lemma ClosingSplit(t: string, a: nat)
    requires a <= |t| && (t == [] || !IsSpace(t[|t| - 1]))
    ensures var b := a + ClosingStart(t[a..]);
            && b <= |t|
            && (b < |t| ==> ClosingFenceFrom(t, b) && (a < b ==> !IsSpace(t[b - 1])))
            && (b == |t| ==> !(a + 3 <= b && HasAt(t, b - 3, Backticks)))
  {
    var u := t[a..];
    NoTrailingSpaceSuffix(t, a);
    ClosingStartShape(u);
    var c := ClosingStart(u);
    var b := a + c;
    if c < |u| {
      ShiftClosing(t, a, c);
      assert 0 < c ==> u[c - 1] == t[b - 1];
    } else if a + 3 <= b {
      assert t[b - 3..b] == u[|u| - 3..|u|];
    }
  }

  /** The opening strip followed by the closing strip keeps `t[a..b]` for
      a split of `t` into fences as `FenceSplit` describes. */
  lemma FenceSplitOfStripped(t: string)
    requires HasAt(t, 0, Backticks) && !IsSpace(t[|t| - 1])
    ensures var a := OpeningEnd(t);
            a <= |t| && FenceSplit(t, a, a + ClosingStart(t[a..]))
  {
    var a := OpeningEnd(t);
    OpeningEndShape(t);
    ClosingSplit(t, a);
  }

  /** A fenced reply loses exactly an opening fence and, when the rest ends
      in one, a closing fence. */
  lemma FencedReply(raw: string)
    requires HasAt(Strip(raw), 0, Backticks)
    ensures exists a: nat, b: nat :: FenceSplit(Strip(raw), a, b) && StripFences(raw) == Strip(raw)[a..b]
  {
    var t := Strip(raw);
    FenceSplitOfStripped(t);
    var a := OpeningEnd(t);
    var u := t[a..];
    var c := ClosingStart(u);
    assert StripOpening(t) == u;
    assert StripClosing(u) == u[..c];
    assert u[..c] == t[a..a + c];
  }

  /** How the characters of the examples below are classified. */
  lemma ExampleChars()
    ensures IsSpace(' ') && IsSpace('\n')
    ensures !IsSpace('`') && !IsSpace('{') && !IsSpace('}')
  {
  }

  /** The fence of the usual reply shape is stripped down to the object. */
  lemma FencedObjectExample()
    ensures StripFences("```json\n{\"a\":1}\n```") == "{\"a\":1}"
  {
    var raw := "```json\n{\"a\":1}\n```";
    FencedExampleTrimmed(raw);
    var u := raw[8..];
    FencedExampleOpening(raw);
    assert u == "{\"a\":1}\n```";
    FencedExampleClosing(u);
    assert u[..|u| - 4] == "{\"a\":1}";
  }

  lemma FencedExampleTrimmed(raw: string)
    requires raw == "```json\n{\"a\":1}\n```"
    ensures Strip(raw) == raw
  {
    ExampleChars();
    assert SkipSpace(raw, 0) == 0;
    assert SkipSpaceBack(raw, 0, |raw|) == |raw|;
  }

  lemma FencedExampleOpening(raw: string)
    requires raw == "```json\n{\"a\":1}\n```"
    ensures OpeningEnd(raw) == 8
  {
    assert HasAt(raw, 0, Backticks);
    assert HasAt(raw, 3, JsonTag);
    assert raw[7] == '\n' && raw[8] == '{';
    ExampleChars();
    assert SkipSpace(raw, 8) == 8;
  }

  lemma FencedExampleClosing(u: string)
    requires u == "{\"a\":1}\n```"
    ensures ClosingStart(u) == |u| - 4
  {
    ExampleChars();
    assert SkipSpaceBack(u, 0, |u|) == |u|;
    assert HasAt(u, |u| - 3, Backticks);
    assert SkipSpaceBack(u, 0, |u| - 4) == |u| - 4;
  }

  /** An unfenced reply reaches the decoder trimmed and otherwise intact. */
  lemma UnfencedExample()
    ensures StripFences(" {\"a\":1}\n") == "{\"a\":1}"
  {
    var raw := " {\"a\":1}\n";
    UnfencedExampleTrimmed(raw);
    assert raw[1..|raw| - 1] == "{\"a\":1}";
    UnfencedObject(raw);
  }

  lemma UnfencedObject(raw: string)
    requires Strip(raw) == "{\"a\":1}"
    ensures StripFences(raw) == Strip(raw)
  {
    var t := Strip(raw);
    assert t[0] == '{';
    assert !HasAt(t, 0, Backticks);
  }

  lemma UnfencedExampleTrimmed(raw: string)
    requires raw == " {\"a\":1}\n"
    ensures Strip(raw) == raw[1..|raw| - 1]
  {
    ExampleChars();
    assert SkipSpace(raw, 1) == 1;
    assert SkipSpaceBack(raw, 1, |raw| - 1) == |raw| - 1;
  }
}
