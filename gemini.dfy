/** The obstacle detector (app/services/gemini.py): the API-key check of the
    service, and `detect_obstacles`, which collects the model's streamed
    answer, cuts the JSON object out of it, parses it with `json.loads` (an
    oracle here), normalizes the obstacles in place and falls back to a safe
    answer on any exception. The image encoding and the model call itself are
    outside the model: the stream of text chunks is an input. */
module Gemini {
  import opened Wrappers
  import opened Json
  import opened Strings

  // ---------------------------------------------------------------------------
  // `__init__`.

  const ApiKeyRequiredMessage := "Google API key is required"

  /** `api_key or settings.google_api_key`, and the `ValueError` when that is empty. */
  function ServiceKey(apiKey: Option<string>, settingsKey: string): (r: Result<string>)
    ensures r.Failure? <==> (apiKey == None || apiKey == Some("")) && settingsKey == ""
    ensures r.Failure? ==> r.message == ApiKeyRequiredMessage
    ensures r.Success? ==> r.value != "" && (r.value == settingsKey || apiKey == Some(r.value))
    ensures apiKey.Some? && apiKey.value != "" ==> r == Success(apiKey.value)
  {
    var key := if apiKey.Some? && apiKey.value != "" then apiKey.value else settingsKey;
    if key == "" then Failure(ApiKeyRequiredMessage) else Success(key)
  }

  // ---------------------------------------------------------------------------
  // Collecting the streamed answer.

  /** The text of the chunks, in order; a chunk without a delta or without
      content (None) adds nothing. */
  function Collected(chunks: seq<Option<string>>): string {
    if chunks == [] then ""
    else Collected(chunks[..|chunks| - 1]) + chunks[|chunks| - 1].GetOr("")
  }

  /** Collecting two runs of chunks one after the other is collecting them together. */
  lemma {:induction false} CollectedConcat(a: seq<Option<string>>, b: seq<Option<string>>)
    ensures Collected(a + b) == Collected(a) + Collected(b)
    decreases |b|
  {
    if b == [] {
      assert a + b == a;
    } else {
      var init := b[..|b| - 1];
      assert (a + b)[..|a + b| - 1] == a + init;
      CollectedConcat(a, init);
    }
  }

  /** Chunks without content contribute nothing. */
  lemma {:induction false} CollectedIgnoresEmpty(chunks: seq<Option<string>>)
    requires forall k :: 0 <= k < |chunks| ==> chunks[k] == None || chunks[k] == Some("")
    ensures Collected(chunks) == ""
  {
    if chunks != [] {
      CollectedIgnoresEmpty(chunks[..|chunks| - 1]);
    }
  }

  /** The `async for chunk in stream` loop. */
  method CollectResponse(chunks: seq<Option<string>>) returns (text: string)
    ensures text == Collected(chunks)
  {
    text := "";
    var i := 0;
    while i < |chunks|
      invariant 0 <= i <= |chunks|
      invariant text == Collected(chunks[..i])
    {
      var chunk := chunks[i];
      assert chunks[..i + 1][..i] == chunks[..i];
      if chunk.Some? && chunk.value != "" {
        text := text + chunk.value;
      }
      i := i + 1;
    }
    assert chunks[..|chunks|] == chunks;
  }

  // ---------------------------------------------------------------------------
  // Cutting out the JSON object: `re.search(r"\{[\s\S]*\}", text)`.

  /** The index of the first `c` in `s`. */
  function FirstIndex(s: string, c: char): (r: Option<nat>)
    ensures r.None? ==> forall k :: 0 <= k < |s| ==> s[k] != c
    ensures r.Some? ==> r.value < |s| && s[r.value] == c && forall k :: 0 <= k < r.value ==> s[k] != c
  {
    if s == [] then None
    else if s[0] == c then Some(0)
    else match FirstIndex(s[1..], c)
      case None => None
      case Some(i) => Some(i + 1)
  }

  /** The index of the last `c` in `s`. */
  function LastIndex(s: string, c: char): (r: Option<nat>)
    ensures r.None? ==> forall k :: 0 <= k < |s| ==> s[k] != c
    ensures r.Some? ==> r.value < |s| && s[r.value] == c && forall k :: r.value < k < |s| ==> s[k] != c
  {
    if s == [] then None
    else if s[|s| - 1] == c then Some(|s| - 1)
    else LastIndex(s[..|s| - 1], c)
  }

  /** The greedy match of `\{[\s\S]*\}` when there is one (from the first `{`
      through the last `}` after it), and the text unchanged otherwise. */
  function ExtractSpan(s: string): string {
    var i := FirstIndex(s, '{');
    var j := LastIndex(s, '}');
    if i.Some? && j.Some? && i.value < j.value then s[i.value..j.value + 1] else s
  }

  /** Without a `{` before some `}`, the pattern does not match and the text stays. */
  lemma NoSpanUnchanged(s: string)
    requires forall a, b :: 0 <= a < b < |s| && s[a] == '{' ==> s[b] != '}'
    ensures ExtractSpan(s) == s
  {
  }

  /** With a `{` before a `}`, the text becomes a contiguous piece of itself that
      starts with `{` and ends with `}`, contains every such pair, begins at the
      first `{` and ends at the last `}`: the leftmost, longest match. */
  lemma SpanIsLeftmostLongest(s: string, a: nat, b: nat) returns (i: nat, j: nat)
    requires a < b < |s| && s[a] == '{' && s[b] == '}'
    ensures i <= a && b <= j < |s| && ExtractSpan(s) == s[i..j + 1]
    ensures s[i] == '{' && s[j] == '}'
    ensures forall k :: 0 <= k < i ==> s[k] != '{'
    ensures forall k :: j < k < |s| ==> s[k] != '}'
  {
    i := FirstIndex(s, '{').value;
    j := LastIndex(s, '}').value;
  }

  /** Cutting out the object twice is cutting it out once. */
  lemma ExtractSpanIdempotent(s: string)
    ensures ExtractSpan(ExtractSpan(s)) == ExtractSpan(s)
  {
    var i := FirstIndex(s, '{');
    var j := LastIndex(s, '}');
    if i.Some? && j.Some? && i.value < j.value {
      var r := s[i.value..j.value + 1];
      assert r[0] == '{' && r[|r| - 1] == '}';
      assert FirstIndex(r, '{') == Some(0);
      assert LastIndex(r, '}') == Some(|r| - 1);
      assert r[0..|r|] == r;
    }
  }

  // ---------------------------------------------------------------------------
  // Normalizing the parsed result.

  const NoRecommendation := "No specific recommendation available."
  const UnableToAnalyze := "Unable to analyze image. Please proceed with caution."

  /** The five keys of a normalized obstacle. */
  const ObstacleKeys: set<string> := {"type", "location", "distance_estimate", "description", "severity"}

  /** The value a normalized obstacle takes for a key the model left out. */
  function ObstacleDefault(key: string): Json {
    if key == "type" || key == "distance_estimate" then Str("unknown")
    else if key == "location" then Obj(map["x" := Float("0.5"), "y" := Float("0.5")])
    else if key == "description" then Str("")
    else Str("low")
  }

  /** `normalized_obstacle` for one obstacle dictionary: exactly the five keys,
      each with the obstacle's own value when present and its default otherwise;
      other keys of the obstacle are dropped. */
  function NormalizedObstacle(obstacle: map<string, Json>): (r: map<string, Json>)
    ensures r.Keys == ObstacleKeys
    ensures forall k :: k in r ==> r[k] == GetOr(obstacle, k, ObstacleDefault(k))
  {
    map["type" := GetOr(obstacle, "type", Str("unknown")),
        "location" := GetOr(obstacle, "location", Obj(map["x" := Float("0.5"), "y" := Float("0.5")])),
        "distance_estimate" := GetOr(obstacle, "distance_estimate", Str("unknown")),
        "description" := GetOr(obstacle, "description", Str("")),
        "severity" := GetOr(obstacle, "severity", Str("low"))]
  }

  /** The normalization loop: each obstacle in turn, stopping at the first one
      that is not a dictionary (its `.get` raises `AttributeError`). */
  function NormalizeAll(xs: seq<Json>): Result<seq<Json>> {
    if xs == [] then Success([])
    else
      var last := xs[|xs| - 1];
      match NormalizeAll(xs[..|xs| - 1])
      case Failure(m) => Failure(m)
      case Success(done) =>
        if last.Obj? then Success(done + [Obj(NormalizedObstacle(last.fields))]) else Failure(NoGetMessage(last))
  }

  /** Normalization succeeds exactly when every obstacle is a dictionary. */
  lemma {:induction false} NormalizeAllSucceeds(xs: seq<Json>)
    ensures NormalizeAll(xs).Success? <==> forall k :: 0 <= k < |xs| ==> xs[k].Obj?
  {
    if xs != [] {
      var init := xs[..|xs| - 1];
      NormalizeAllSucceeds(init);
      if NormalizeAll(init).Failure? {
        var k :| 0 <= k < |init| && !init[k].Obj?;
        assert xs[k] == init[k];
      } else if xs[|xs| - 1].Obj? {
        forall k | 0 <= k < |xs|
          ensures xs[k].Obj?
        {
          if k < |init| {
            assert xs[k] == init[k];
          }
        }
      }
    }
  }

  /** A successful normalization keeps the number and the order of the
      obstacles, each normalized. */
  lemma {:induction false} NormalizeAllValues(xs: seq<Json>)
    requires NormalizeAll(xs).Success?
    ensures |NormalizeAll(xs).value| == |xs|
    ensures forall k :: 0 <= k < |xs| ==>
              xs[k].Obj? && NormalizeAll(xs).value[k] == Obj(NormalizedObstacle(xs[k].fields))
  {
    if xs != [] {
      var init := xs[..|xs| - 1];
      var last := xs[|xs| - 1];
      NormalizeAllValues(init);
      var done := NormalizeAll(init).value;
      var r := NormalizeAll(xs).value;
      assert r == done + [Obj(NormalizedObstacle(last.fields))];
      forall k | 0 <= k < |xs|
        ensures xs[k].Obj? && r[k] == Obj(NormalizedObstacle(xs[k].fields))
      {
        if k < |init| {
          assert xs[k] == init[k] && r[k] == done[k];
        }
      }
    }
  }

  /** Normalization keeps the number and the order of the obstacles and succeeds
      exactly when every obstacle is a dictionary. */
  lemma NormalizeAllShape(xs: seq<Json>)
    ensures NormalizeAll(xs).Success? <==> forall k :: 0 <= k < |xs| ==> xs[k].Obj?
    ensures NormalizeAll(xs).Success? ==>
              |NormalizeAll(xs).value| == |xs| &&
              forall k :: 0 <= k < |xs| ==> NormalizeAll(xs).value[k] == Obj(NormalizedObstacle(xs[k].fields))
  {
    NormalizeAllSucceeds(xs);
    if NormalizeAll(xs).Success? {
      NormalizeAllValues(xs);
    }
  }

  /** Otherwise normalization fails on the first obstacle that is not a dictionary. */
  lemma {:induction false} NormalizeAllFirstFailure(xs: seq<Json>, i: nat)
    requires i < |xs| && !xs[i].Obj? && forall k :: 0 <= k < i ==> xs[k].Obj?
    ensures NormalizeAll(xs) == Failure(NoGetMessage(xs[i]))
  {
    var prefix := xs[..i];
    var upTo := xs[..i + 1];
    NormalizeAllSucceeds(prefix);
    assert upTo[..i] == prefix && upTo[i] == xs[i];
    assert NormalizeAll(upTo) == Failure(NoGetMessage(xs[i]));
    NormalizeAllFailureStays(xs, i + 1);
  }

  /** A failure on a prefix is the failure of the whole list. */
  lemma {:induction false} NormalizeAllFailureStays(xs: seq<Json>, n: nat)
    requires n <= |xs| && NormalizeAll(xs[..n]).Failure?
    ensures NormalizeAll(xs) == NormalizeAll(xs[..n])
    decreases |xs|
  {
    if n == |xs| {
      assert xs[..n] == xs;
    } else {
      var init := xs[..|xs| - 1];
      assert init[..n] == xs[..n];
      NormalizeAllFailureStays(init, n);
    }
  }

  /** The `for obstacle in ...` loop, appending to `normalized_obstacles`. */
  method NormalizeObstacles(xs: seq<Json>) returns (r: Result<seq<Json>>)
    ensures r == NormalizeAll(xs)
  {
    var normalized: seq<Json> := [];
    var i := 0;
    while i < |xs|
      invariant 0 <= i <= |xs|
      invariant NormalizeAll(xs[..i]) == Success(normalized)
    {
      var obstacle := xs[i];
      assert xs[..i + 1][..i] == xs[..i];
      if !obstacle.Obj? {
        NormalizeAllFailureStays(xs, i + 1);
        return Failure(NoGetMessage(obstacle));
      }
      normalized := normalized + [Obj(NormalizedObstacle(obstacle.fields))];
      i := i + 1;
    }
    assert xs[..|xs|] == xs;
    r := Success(normalized);
  }

  /** The `TypeError` of `result["timestamp"] = ...` when the parsed value is not a dictionary. */
  function ItemAssignMessage(v: Json): string {
    if v.Arr? then "list indices must be integers or slices, not str"
    else "'" + TypeName(v) + "' object does not support item assignment"
  }

  /** `for obstacle in result.get("obstacles", [])` followed by `obstacle.get(...)`:
      the items of a list; nothing for an empty string or dictionary; for a
      non-empty one, the first key or character is a string, whose `.get`
      raises; anything else is not iterable. */
  function ObstacleItems(v: Json): (r: Result<seq<Json>>)
    ensures v.Arr? ==> r == Success(v.items)
    ensures r.Success? && !v.Arr? ==> r == Success([])
  {
    match v
    case Arr(items) => Success(items)
    case Obj(f) => if f == map[] then Success([]) else Failure(NoGetMessage(Str("")))
    case Str(s) => if s == "" then Success([]) else Failure(NoGetMessage(Str("")))
    case _ => Failure("'" + TypeName(v) + "' object is not iterable")
  }

  /** The parsed dictionary with the timestamp set and the two defaults filled in. */
  function Completed(fields: map<string, Json>, now: string): (r: map<string, Json>)
    ensures r.Keys == fields.Keys + {"timestamp", "obstacles", "recommendation"}
    ensures forall k :: k in fields && k != "timestamp" ==> r[k] == fields[k]
    ensures r["timestamp"] == Float(now)
    ensures r["obstacles"] == GetOr(fields, "obstacles", Arr([]))
    ensures r["recommendation"] == GetOr(fields, "recommendation", Str(NoRecommendation))
  {
    var withTime := fields["timestamp" := Float(now)];
    var withObstacles := if "obstacles" in withTime then withTime else withTime["obstacles" := Arr([])];
    if "recommendation" in withObstacles then withObstacles
    else withObstacles["recommendation" := Str(NoRecommendation)]
  }

  /** Everything `detect_obstacles` does after collecting the text, or the
      exception it raises. `loads` is `json.loads`; `now` is `time.time()`. */
  function Analyze(text: string, loads: string -> Result<Json>, now: string): (r: Result<map<string, Json>>)
    ensures var parsed := loads(ExtractSpan(Strip(text)));
            (parsed.Failure? ==> r == Failure(parsed.message)) &&
            (parsed.Success? && !parsed.value.Obj? ==> r == Failure(ItemAssignMessage(parsed.value)))
    ensures r.Success? ==> {"timestamp", "obstacles", "recommendation"} <= r.value.Keys &&
                           r.value["timestamp"] == Float(now) && r.value["obstacles"].Arr?
  {
    match loads(ExtractSpan(Strip(text)))
    case Failure(m) => Failure(m)
    case Success(v) =>
      if !v.Obj? then Failure(ItemAssignMessage(v))
      else
        var result := Completed(v.fields, now);
        match ObstacleItems(result["obstacles"])
        case Failure(m) => Failure(m)
        case Success(items) =>
          match NormalizeAll(items)
          case Failure(m) => Failure(m)
          case Success(normalized) => Success(result["obstacles" := Arr(normalized)])
  }

  /** The safe answer returned on any exception. */
  function Fallback(error: string, now: string): map<string, Json> {
    map["obstacles" := Arr([]), "recommendation" := Str(UnableToAnalyze), "timestamp" := Float(now),
        "error" := Str(error)]
  }

  /** `detect_obstacles`: `stream` is the model's stream of chunk contents, or
      the exception the call raised. */
  function Detect(stream: Result<seq<Option<string>>>, loads: string -> Result<Json>, now: string): (r: map<string, Json>)
    ensures {"obstacles", "recommendation", "timestamp"} <= r.Keys && r["obstacles"].Arr? &&
            r["timestamp"] == Float(now)
  {
    match stream
    case Failure(m) => Fallback(m, now)
    case Success(chunks) =>
      match Analyze(Collected(chunks), loads, now)
      case Failure(m) => Fallback(m, now)
      case Success(result) => result
  }

  /** `detect_obstacles`, step by step, updating `result` in place. */
  method DetectObstacles(stream: Result<seq<Option<string>>>, loads: string -> Result<Json>, now: string)
    returns (out: map<string, Json>)
    ensures out == Detect(stream, loads, now)
  {
    if stream.Failure? {
      return Fallback(stream.message, now);
    }
    var text := CollectResponse(stream.value);
    text := Strip(text);
    text := ExtractSpan(text);
    var parsed := loads(text);
    if parsed.Failure? {
      return Fallback(parsed.message, now);
    }
    if !parsed.value.Obj? {
      return Fallback(ItemAssignMessage(parsed.value), now);
    }
    var result := parsed.value.fields;
    result := result["timestamp" := Float(now)];
    if "obstacles" !in result {
      result := result["obstacles" := Arr([])];
    }
    if "recommendation" !in result {
      result := result["recommendation" := Str(NoRecommendation)];
    }
    var items := ObstacleItems(result["obstacles"]);
    if items.Failure? {
      return Fallback(items.message, now);
    }
    var normalized := NormalizeObstacles(items.value);
    if normalized.Failure? {
      return Fallback(normalized.message, now);
    }
    result := result["obstacles" := Arr(normalized.value)];
    out := result;
  }

  // ---------------------------------------------------------------------------
  // What `detect_obstacles` promises.

  /** Analysis succeeds exactly when the cut-out text parses to a dictionary
      whose obstacles (if any) form a list of dictionaries, or an empty string or
      dictionary. */
  lemma AnalyzeSucceeds(text: string, loads: string -> Result<Json>, now: string)
    ensures var parsed := loads(ExtractSpan(Strip(text)));
            Analyze(text, loads, now).Success? <==>
              parsed.Success? && parsed.value.Obj? &&
              var given := GetOr(parsed.value.fields, "obstacles", Arr([]));
              ObstacleItems(given).Success? &&
              forall k :: 0 <= k < |ObstacleItems(given).value| ==> ObstacleItems(given).value[k].Obj?
  {
    var parsed := loads(ExtractSpan(Strip(text)));
    if parsed.Success? && parsed.value.Obj? {
      var result := Completed(parsed.value.fields, now);
      assert result["obstacles"] == GetOr(parsed.value.fields, "obstacles", Arr([]));
      var items := ObstacleItems(result["obstacles"]);
      if items.Success? {
        NormalizeAllShape(items.value);
      }
    }
  }

  /** A successful analysis returns the parsed dictionary with every other key
      unchanged, the timestamp set and the recommendation kept or defaulted. */
  lemma AnalyzeKeeps(text: string, loads: string -> Result<Json>, now: string)
    requires Analyze(text, loads, now).Success?
    ensures var parsed := loads(ExtractSpan(Strip(text))).value.fields;
            var out := Analyze(text, loads, now).value;
            out.Keys == parsed.Keys + {"timestamp", "obstacles", "recommendation"} &&
            (forall k :: k in parsed && k !in {"timestamp", "obstacles", "recommendation"} ==> out[k] == parsed[k]) &&
            out["timestamp"] == Float(now) &&
            out["recommendation"] == GetOr(parsed, "recommendation", Str(NoRecommendation))
  {
    var parsed := loads(ExtractSpan(Strip(text))).value.fields;
    var result := Completed(parsed, now);
    var normalized := NormalizeAll(ObstacleItems(result["obstacles"]).value).value;
    assert Analyze(text, loads, now).value == result["obstacles" := Arr(normalized)];
  }

  /** ... and the obstacles replaced by their normalized forms, same number,
      same order. */
  lemma AnalyzeObstacles(text: string, loads: string -> Result<Json>, now: string)
    requires Analyze(text, loads, now).Success?
    ensures var parsed := loads(ExtractSpan(Strip(text))).value.fields;
            var out := Analyze(text, loads, now).value;
            var items := ObstacleItems(GetOr(parsed, "obstacles", Arr([]))).value;
            "obstacles" in out && out["obstacles"].Arr? && |out["obstacles"].items| == |items| &&
            (forall k :: 0 <= k < |items| ==> items[k].Obj?) &&
            forall k :: 0 <= k < |items| ==> out["obstacles"].items[k] == Obj(NormalizedObstacle(items[k].fields))
  {
    var parsed := loads(ExtractSpan(Strip(text))).value.fields;
    var result := Completed(parsed, now);
    var items := ObstacleItems(result["obstacles"]).value;
    assert items == ObstacleItems(GetOr(parsed, "obstacles", Arr([]))).value;
    NormalizeAllShape(items);
    var normalized := NormalizeAll(items).value;
    var out := Analyze(text, loads, now).value;
    assert out == result["obstacles" := Arr(normalized)];
    assert out["obstacles"] == Arr(normalized);
  }

  /** A missing `obstacles` comes back as the empty list. */
  lemma MissingObstaclesEmpty(text: string, loads: string -> Result<Json>, now: string)
    requires loads(ExtractSpan(Strip(text))).Success? && loads(ExtractSpan(Strip(text))).value.Obj?
    requires "obstacles" !in loads(ExtractSpan(Strip(text))).value.fields
    ensures Analyze(text, loads, now).Success? && Analyze(text, loads, now).value["obstacles"] == Arr([])
  {
  }

  /** Whatever goes wrong, the caller gets the fallback: no obstacles, the
      "Unable to analyze image" recommendation, a timestamp and the error text. */
  lemma DetectFailureIsFallback(stream: Result<seq<Option<string>>>, loads: string -> Result<Json>, now: string)
    requires stream.Failure? || Analyze(Collected(stream.value), loads, now).Failure?
    ensures var out := Detect(stream, loads, now);
            out.Keys == {"obstacles", "recommendation", "timestamp", "error"} &&
            out["obstacles"] == Arr([]) && out["recommendation"] == Str(UnableToAnalyze) &&
            out["timestamp"] == Float(now) && out["error"].Str? &&
            (stream.Failure? ==> out["error"] == Str(stream.message)) &&
            (stream.Success? ==> out["error"] == Str(Analyze(Collected(stream.value), loads, now).message))
  {
  }
}
