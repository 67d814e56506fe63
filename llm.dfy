/** The text-generation side of the generator: the retry loop around the
    chat-completion request, the markdown-fence cleanup of the reply, the
    choice between direct and structural prompts, and the packing of the
    decoded reply into a task-data record. The HTTP request and `json.loads`
    are parameters: a sequence of attempt outcomes and a decoding function. */
module Llm {
  import opened Values
  import opened Text
  import opened Tasks

  /** The characters `str.strip()` removes: those for which `str.isspace()`
      holds, i.e. the tab-to-carriage-return controls, the four separator
      controls 0x1C to 0x1F, space, NEL, no-break space and the Unicode space
      and line/paragraph separators. */
  predicate IsSpace(c: char) {
    || '\t' <= c <= '\r'
    || '\U{1c}' <= c <= ' '
    || c == '\U{85}' || c == '\U{a0}' || c == '\U{1680}'
    || '\U{2000}' <= c <= '\U{200a}'
    || c == '\U{2028}' || c == '\U{2029}' || c == '\U{202f}' || c == '\U{205f}' || c == '\U{3000}'
  }

  function TrimLeft(s: string): (r: string)
    ensures |r| <= |s| && r == s[|s| - |r|..]
    ensures r == [] || !IsSpace(r[0])
    ensures forall k :: 0 <= k < |s| - |r| ==> IsSpace(s[k])
  {
    if s != [] && IsSpace(s[0]) then TrimLeft(s[1..]) else s
  }

  function TrimRight(s: string): (r: string)
    ensures |r| <= |s| && r == s[..|r|]
    ensures r == [] || !IsSpace(r[|r| - 1])
    ensures forall k :: |r| <= k < |s| ==> IsSpace(s[k])
  {
    if s != [] && IsSpace(s[|s| - 1]) then TrimRight(s[..|s| - 1]) else s
  }

  /** How much leading whitespace `s.strip()` cuts away. */
  function StripOffset(s: string): nat {
    |s| - |TrimLeft(s)|
  }

  /** `s.strip()`: the slice of `s` after its leading and before its trailing
      whitespace; it neither starts nor ends with whitespace. */
  function Strip(s: string): (r: string)
    ensures r == [] || (!IsSpace(r[0]) && !IsSpace(r[|r| - 1]))
    ensures StripOffset(s) + |r| <= |s| && s[StripOffset(s)..StripOffset(s) + |r|] == r
    ensures forall k :: 0 <= k < StripOffset(s) ==> IsSpace(s[k])
    ensures forall k :: StripOffset(s) + |r| <= k < |s| ==> IsSpace(s[k])
  {
    var l := TrimLeft(s);
    var r := TrimRight(l);
    var i := |s| - |l|;
    assert s[i..i + |r|] == r;
    r
  }

  /** Any leading `str.isspace()` character is cut, whatever follows it. */
  lemma StripLeadingSpace(c: char, s: string)
    requires IsSpace(c)
    ensures Strip([c] + s) == Strip(s)
  {
    assert ([c] + s)[1..] == s;
  }

  /** Stripping twice strips nothing more. */
  lemma StripIdempotent(s: string)
    ensures Strip(Strip(s)) == Strip(s)
  {
    var r := Strip(s);
    assert TrimLeft(r) == r;
    assert TrimRight(r) == r;
  }

  const JsonFence := "```json"
  const Fence := "```"

  /** The cleanup of the reply text: the part after an opening "```json" (or
      "```") fence, cut at the next fence; unfenced text is left alone. */
  function StripFence(c: string): (r: string)
    ensures |r| <= |c|
    ensures !StartsWith(c, Fence) ==> r == c
  {
    if StartsWith(c, JsonFence) then
      JsonFenceIsFence(c);
      FindAtStart(c, JsonFence);
      SplitFirst(SplitSecond(c, JsonFence), Fence)
    else if StartsWith(c, Fence) then
      FindAtStart(c, Fence);
      SplitFirst(SplitSecond(c, Fence), Fence)
    else c
  }

  /** A "```json" fence is in particular a "```" fence. */
  lemma JsonFenceIsFence(c: string)
    ensures StartsWith(c, JsonFence) ==> StartsWith(c, Fence)
  {
    if StartsWith(c, JsonFence) {
      assert c[..3] == c[..7][..3];
    }
  }

  /** Text that does not open with a fence is handed to the decoder as is. */
  lemma StripFenceUnfenced(c: string)
    requires !StartsWith(c, Fence)
    ensures StripFence(c) == c
  {
    JsonFenceIsFence(c);
  }

  /** No "```" starts inside `body`, even one that runs into a closing
      fence placed right after it. Backticks on their own, as in a JSON
      string holding `Ctrl+B`, are allowed. */
  predicate FenceFreeBody(body: string) {
    forall k :: 0 <= k < |body| ==> !OccursAt(body + Fence, Fence, k)
  }

  /** The prefix before the first occurrence never contains the pattern. */
  lemma SplitFirstPatternFree(s: string, pat: string)
    requires |pat| > 0
    ensures NoneFrom(SplitFirst(s, pat), pat, 0)
  {
    var f := Find(s, pat, 0);
    if f.Some? {
      var p := s[..f.value];
      forall k | 0 <= k <= |p|
        ensures !OccursAt(p, pat, k)
      {
        if OccursAt(p, pat, k) {
          assert s[k..k + |pat|] == p[k..k + |pat|];
          assert OccursAt(s, pat, k);
        }
      }
    }
  }

  /** A slice of a slice is a slice of the whole. */
  lemma SliceOfSlice(c: string, a: nat, b: nat, i: nat, j: nat)
    requires a <= b <= |c| && i <= j <= b - a
    ensures c[a..b][i..j] == c[a + i..a + j]
  {
    forall t | 0 <= t < j - i
      ensures c[a..b][i..j][t] == c[a + i..a + j][t]
    {
      assert c[a..b][i + t] == c[a + i + t];
    }
  }

  /** An occurrence inside a slice is an occurrence in the whole string. */
  lemma OccursInSlice(c: string, x: string, off: nat, pat: string, k: nat)
    requires off + |x| <= |c| && c[off..off + |x|] == x && k + |pat| <= |x|
    ensures OccursAt(c, pat, off + k) <==> OccursAt(x, pat, k)
  {
    SliceOfSlice(c, off, off + |x|, k, k + |pat|);
  }

  /** Every "```json" begins with a "```". */
  lemma JsonOccursFence(s: string, k: int)
    ensures OccursAt(s, JsonFence, k) ==> OccursAt(s, Fence, k)
  {
    if OccursAt(s, JsonFence, k) {
      assert s[k..k + 3] == s[k..k + 7][..3];
    }
  }

  /** After "```json" + body + "```", the next "```json" is either the one
      that starts at the closing fence or lies past it. */
  lemma NextJsonFence(c: string, e: nat)
    requires 7 <= e && e + 3 <= |c|
    requires forall k :: 7 <= k < e ==> !OccursAt(c, Fence, k)
    requires c[e..e + 3] == Fence
    requires e + 3 == |c| || c[e + 3] != '`'
    ensures var j := Find(c, JsonFence, 7).GetOr(|c|); j == e || e + 3 <= j <= |c|
  {
    forall k | 7 <= k < e
      ensures !OccursAt(c, JsonFence, k)
    {
      JsonOccursFence(c, k);
    }
    if OccursAt(c, JsonFence, e) {
      FindIs(c, JsonFence, 7, e);
    } else {
      OccursAtChar(c, JsonFence, e + 1, 2);
      OccursAtChar(c, JsonFence, e + 2, 1);
      forall k | 7 <= k < e + 3
        ensures !OccursAt(c, JsonFence, k)
      {
        if k >= e + 1 {
          assert k == e + 1 || k == e + 2;
        }
      }
      FindSkip(c, JsonFence, 7, e + 3);
      var f := Find(c, JsonFence, e + 3);
      assert f.Some? ==> e + 3 <= f.value <= |c|;
    }
  }

  /** A piece with no "```" starting in its first `n` characters, and with
      a fence at `n` or its end there, is cut to those `n` characters. */
  lemma CutAtFence(piece: string, n: nat)
    requires n <= |piece| && forall k :: 0 <= k < n ==> !OccursAt(piece, Fence, k)
    requires n == |piece| || (n + 3 <= |piece| && piece[n..n + 3] == Fence)
    ensures SplitFirst(piece, Fence) == piece[..n]
  {
    if n == |piece| {
      assert NoneFrom(piece, Fence, 0);
      assert piece[..n] == piece;
    } else {
      FindIs(piece, Fence, 0, n);
    }
  }

  /** The cleaned text never contains a fence: a reply whose JSON holds
      "```" inside a string value is cut there. */
  lemma StripFenceFenceFree(c: string)
    requires StartsWith(c, Fence)
    ensures NoneFrom(StripFence(c), Fence, 0)
  {
    if StartsWith(c, JsonFence) {
      FindAtStart(c, JsonFence);
      SplitFirstPatternFree(SplitSecond(c, JsonFence), Fence);
    } else {
      FindAtStart(c, Fence);
      SplitFirstPatternFree(SplitSecond(c, Fence), Fence);
    }
  }

  /** In `pre` + body + "```" + rest, no "```" starts inside the body. */
  lemma BodyHoldsNoFence(pre: string, body: string, rest: string)
    requires FenceFreeBody(body)
    ensures var c := pre + body + Fence + rest;
      forall k :: |pre| <= k < |pre| + |body| ==> !OccursAt(c, Fence, k)
  {
    var c := pre + body + Fence + rest;
    var x := body + Fence;
    assert c[|pre|..|pre| + |x|] == x;
    forall k | |pre| <= k < |pre| + |body|
      ensures !OccursAt(c, Fence, k)
    {
      OccursInSlice(c, x, |pre|, Fence, k - |pre|);
    }
  }

  /** The piece after "```json", cut at the next "```json" (or the end),
      is the body followed by the closing fence and possibly more. */
  lemma JsonPiece(body: string, rest: string)
    requires FenceFreeBody(body)
    requires rest == [] || rest[0] != '`'
    ensures var c := JsonFence + body + Fence + rest;
      var piece := SplitSecond(c, JsonFence);
      && |body| <= |piece| && piece[..|body|] == body
      && (|piece| == |body| || (|body| + 3 <= |piece| && piece[|body|..|body| + 3] == Fence))
      && forall k :: 0 <= k < |body| ==> !OccursAt(piece, Fence, k)
  {
    var c := JsonFence + body + Fence + rest;
    var e := 7 + |body|;
    assert c[..7] == JsonFence;
    assert c[7..e] == body;
    assert c[e..e + 3] == Fence;
    assert e + 3 < |c| ==> c[e + 3] == rest[0];
    BodyHoldsNoFence(JsonFence, body, rest);
    FindAtStart(c, JsonFence);
    NextJsonFence(c, e);
    var j := Find(c, JsonFence, 7).GetOr(|c|);
    var piece := c[7..j];
    assert SplitSecond(c, JsonFence) == piece;
    assert piece[..|body|] == body;
    if j > e {
      SliceOfSlice(c, 7, j, |body|, |body| + 3);
    }
    forall k | 0 <= k < |body|
      ensures !OccursAt(piece, Fence, k)
    {
      if k + 3 <= |piece| {
        OccursInSlice(c, piece, 7, Fence, k);
      }
    }
  }

  /** The intended use: "```json" + body + "```" yields the body, whatever
      trails the closing fence (as long as it does not extend the fence). */
  lemma StripFenceJson(body: string, rest: string)
    requires FenceFreeBody(body)
    requires rest == [] || rest[0] != '`'
    ensures StripFence(JsonFence + body + Fence + rest) == body
  {
    var c := JsonFence + body + Fence + rest;
    assert c[..7] == JsonFence;
    JsonPiece(body, rest);
    CutAtFence(SplitSecond(c, JsonFence), |body|);
  }

  /** A reply whose JSON string holds backticks, such as the value "`B`",
      comes out of its fence whole. */
  lemma StripFenceKeepsBackticks()
    ensures var body := "\"`B`\""; StripFence(JsonFence + body + Fence) == body
  {
    var body := "\"`B`\"";
    forall k | 0 <= k < |body|
      ensures !OccursAt(body + Fence, Fence, k)
    {
      assert k == 0 || k == 1 || k == 2 || k == 3 || k == 4;
      OccursAtChar(body + Fence, Fence, k, 0);
      OccursAtChar(body + Fence, Fence, k, 1);
    }
    StripFenceJson(body, "");
    assert JsonFence + body + Fence + "" == JsonFence + body + Fence;
  }

  /** A "```" fence followed by something other than "json" is not a
      "```json" fence. */
  lemma PlainFenceNotJson(body: string, rest: string)
    requires !StartsWith(body, "json")
    ensures !StartsWith(Fence + body + Fence + rest, JsonFence)
  {
    var c := Fence + body + Fence + rest;
    if |body| >= 4 {
      assert c[3..7] == body[..4];
      assert c[..7][3..7] == c[3..7];
    } else {
      assert c[3 + |body|] == '`';
      assert |c| >= 7 ==> c[..7][3 + |body|] == c[3 + |body|];
    }
  }

  /** A bare "```" fence around a body that does not begin with "json"
      yields the body as well. */
  lemma StripFencePlain(body: string, rest: string)
    requires FenceFreeBody(body)
    requires !StartsWith(body, "json")
    ensures StripFence(Fence + body + Fence + rest) == body
  {
    var c := Fence + body + Fence + rest;
    var x := body + Fence;
    var e := 3 + |body|;
    PlainFenceNotJson(body, rest);
    assert c[..3] == Fence;
    FindAtStart(c, Fence);
    assert c[3..e + 3] == x;
    assert c[e..e + 3] == Fence;
    forall k | 3 <= k < e
      ensures !OccursAt(c, Fence, k)
    {
      OccursInSlice(c, x, 3, Fence, k - 3);
    }
    FindIs(c, Fence, 3, e);
    assert SplitSecond(c, Fence) == body;
    assert x[..|body|] == body;
    forall k | 0 <= k < |body|
      ensures !OccursAt(body, Fence, k)
    {
      if k + 3 <= |body| {
        OccursInSlice(x, body, 0, Fence, k);
      }
    }
    CutAtFence(body, |body|);
    assert body[..|body|] == body;
  }

  /** The text the decoder receives from a reply's message content. */
  function ReplyText(content: string): string {
    StripFence(Strip(content))
  }

  /** One request of the retry loop. `content` is `None` when the reply does
      not hold `choices[0].message.content`; `RequestFailed` is a request that
      raised (a timeout, a refused connection). */
  datatype Attempt =
    | RequestFailed
    | Response(status: int, content: Option<string>)

  /** What `call_llm` ends with: the decoded reply and the attempt that gave
      it, an exception, or `None` when no attempt was made. */
  datatype LlmOutcome =
    | Parsed(value: Json, attempt: nat)
    | Raised
    | NoneReturned

  /** An attempt that yields a decodable reply. */
  predicate Succeeds(a: Attempt, decode: string -> Option<Json>) {
    a.Response? && a.status == 200 && a.content.Some? && decode(ReplyText(a.content.value)).Some?
  }

  /** Which of the first `limit` attempts succeed, in order. */
  function Outcomes(attempts: seq<Attempt>, decode: string -> Option<Json>, limit: int): (oks: seq<bool>)
    requires limit <= |attempts|
    ensures |oks| == if limit < 0 then 0 else limit
    ensures forall j :: 0 <= j < |oks| ==> oks[j] == Succeeds(attempts[j], decode)
  {
    if limit <= 0 then [] else seq(limit, j requires 0 <= j < limit => Succeeds(attempts[j], decode))
  }

  /** The first success at or after `from`, if any. */
  function FirstSuccess(oks: seq<bool>, from: nat): (k: Option<nat>)
    ensures k.Some? ==> from <= k.value < |oks| && oks[k.value]
    ensures k.Some? ==> forall j :: from <= j < k.value ==> !oks[j]
    ensures k.None? <==> forall j :: from <= j < |oks| ==> !oks[j]
    decreases |oks| - from
  {
    if from >= |oks| then None
    else if oks[from] then Some(from)
    else FirstSuccess(oks, from + 1)
  }

  /** The decoded reply of a successful attempt. */
  function Reply(a: Attempt, decode: string -> Option<Json>): Json
    requires Succeeds(a, decode)
  {
    decode(ReplyText(a.content.value)).value
  }

  const MaxRetries := 3

  /** `call_llm`: try up to `maxRetries` requests and return the first reply
      that decodes; a failing last attempt raises. */
  method CallLlm(attempts: seq<Attempt>, decode: string -> Option<Json>, maxRetries: int)
    returns (o: LlmOutcome)
    requires maxRetries <= |attempts|
    ensures o.NoneReturned? <==> maxRetries <= 0
    ensures o.Raised? <==> maxRetries > 0 && forall k :: 0 <= k < maxRetries ==> !Succeeds(attempts[k], decode)
    ensures o.Parsed? ==>
      && o.attempt < maxRetries
      && Succeeds(attempts[o.attempt], decode)
      && o.value == decode(ReplyText(attempts[o.attempt].content.value)).value
      && forall k :: 0 <= k < o.attempt ==> !Succeeds(attempts[k], decode)
    ensures o.Parsed? ==> FirstSuccess(Outcomes(attempts, decode, maxRetries), 0) == Some(o.attempt)
    ensures !o.Parsed? ==> FirstSuccess(Outcomes(attempts, decode, maxRetries), 0) == None
  {
    ghost var oks := Outcomes(attempts, decode, maxRetries);
    var attempt := 0;
    while attempt < maxRetries
      invariant 0 <= attempt <= |attempts| && (maxRetries > 0 ==> attempt <= maxRetries)
      invariant forall k :: 0 <= k < attempt ==> !Succeeds(attempts[k], decode)
      invariant FirstSuccess(oks, 0) == FirstSuccess(oks, attempt)
    {
      var a := attempts[attempt];
      if a.Response? && a.status == 200 && a.content.Some? {
        var decoded := decode(ReplyText(a.content.value));
        if decoded.Some? {
          return Parsed(decoded.value, attempt);
        }
      }
      attempt := attempt + 1;
    }
    if maxRetries <= 0 {
      return NoneReturned;
    }
    return Raised;
  }

  /** The scenario categories the task backgrounds are drawn from. */
  const ScenarioCategories: seq<string> := [
    "business_presentation", "educational_lecture", "academic_defense", "marketing_pitch",
    "project_overview", "team_meeting", "training_material", "conference_talk",
    "technical_demo", "status_update", "portfolio_showcase", "event_invitation",
    "company_profile", "financial_summary", "product_showcase", "infographic_summary",
    "public_speaking", "interactive_quiz", "client_proposal", "internal_onboarding"]

  /** The types the direct prompt table has an entry for. */
  predicate HasDirectPrompt(t: TaskType) {
    t.SelectBox? || t.SelectContent? || t.TextFormattingTextbox? || t.InsertTable?
    || t.DeleteTextTextbox? || t.InsertResizeImage?
  }

  /** The system-prompt lookup for a draw `u` of `random.random()`: the
      direct table when `u < ratio`, otherwise the structural table, which the
      generator never defines. Ok carries the instruction type. */
  function SystemPrompt(t: TaskType, u: real, ratio: real): (r: Result<string, Failure>)
    ensures r.Ok? <==> u < ratio && HasDirectPrompt(t)
    ensures r.Ok? ==> r.value == "direct"
    ensures u < ratio && !HasDirectPrompt(t) ==> r == Err(KeyError(Value(t)))
    ensures u >= ratio ==> r == Err(AttributeError("structural_prompts"))
  {
    if u < ratio then
      if HasDirectPrompt(t) then Ok("direct") else Err(KeyError(Value(t)))
    else Err(AttributeError("structural_prompts"))
  }

  /** The default ratio 1 always takes the direct table, and a ratio below 1
      leaves draws that reach the missing structural table. */
  lemma RatioDecidesPrompt(t: TaskType, ratio: real)
    ensures ratio >= 1.0 ==> forall u :: 0.0 <= u < 1.0 ==> SystemPrompt(t, u, ratio).Ok? == HasDirectPrompt(t)
    ensures 0.0 < ratio < 1.0 ==> SystemPrompt(t, ratio, ratio) == Err(AttributeError("structural_prompts"))
    ensures ratio <= 0.0 ==> forall u :: 0.0 <= u < 1.0 ==> SystemPrompt(t, u, ratio).Err?
  {
  }

  const ReservedMetadata: set<string> := {"scenario_category", "generated_by_llm", "instruction_type"}

  /** `{**meta, ...}`: the reply's metadata with the three generator keys
      written over it. */
  function MergeMetadata(meta: map<string, Json>, scenario: string, instructionType: string): (r: map<string, Json>)
    ensures r.Keys == meta.Keys + ReservedMetadata
    ensures r["scenario_category"] == JStr(scenario)
    ensures r["generated_by_llm"] == JBool(true)
    ensures r["instruction_type"] == JStr(instructionType)
    ensures forall k :: k in meta && k !in ReservedMetadata ==> r[k] == meta[k]
  {
    meta + map["scenario_category" := JStr(scenario), "generated_by_llm" := JBool(true),
               "instruction_type" := JStr(instructionType)]
  }

  /** The task-data record built from a decoded reply. `None` is the path on
      which the `try` block raised and the generator returned `None`: a reply
      that is not an object, lacks one of the three keys, has a `content`
      without `.copy()` or a `metadata` that is not a mapping. */
  function TaskDataFromReply(reply: Json, scenario: string, instructionType: string): (r: Option<TaskData>)
    ensures r.Some? <==>
      && reply.JObj?
      && "content" in reply.fields && (reply.fields["content"].JObj? || reply.fields["content"].JArr?)
      && "instruction" in reply.fields && "expected_result" in reply.fields
      && Get(reply.fields, "metadata", JObj(map[])).JObj?
    ensures r.Some? ==>
      && r.value.instruction == reply.fields["instruction"]
      && r.value.content == reply.fields["content"]
      && r.value.expectedResult == reply.fields["expected_result"]
      && r.value.metadata == MergeMetadata(Get(reply.fields, "metadata", JObj(map[])).fields, scenario, instructionType)
  {
    match reply
    case JObj(m) =>
      if "content" !in m || !(m["content"].JObj? || m["content"].JArr?) then None
      else if "instruction" !in m || "expected_result" !in m then None
      else
        var meta := Get(m, "metadata", JObj(map[]));
        if !meta.JObj? then None
        else Some(TaskData(m["instruction"], m["content"], m["expected_result"],
                           MergeMetadata(meta.fields, scenario, instructionType)))
    case _ => None
  }

  /** `random.random()`. */
  method RandUnit() returns (u: real)
    ensures 0.0 <= u < 1.0
  {
    u :| 0.0 <= u < 1.0;
  }

  /** `generate_task_data`: draw the scenario when none is given, pick the
      system prompt (which may raise), then call the model; every failure
      after the prompt is chosen ends in `Ok(None)`. */
  method GenerateTaskData(t: TaskType, scenario: Option<string>, ratio: real,
                          attempts: seq<Attempt>, decode: string -> Option<Json>)
    returns (r: Result<Option<TaskData>, Failure>, category: string, u: real)
    requires MaxRetries <= |attempts|
    ensures scenario.Some? ==> category == scenario.value
    ensures scenario.None? ==> category in ScenarioCategories
    ensures 0.0 <= u < 1.0
    ensures r.Err? <==> SystemPrompt(t, u, ratio).Err?
    ensures r.Err? ==> r.error == SystemPrompt(t, u, ratio).error
    ensures r.Ok? && r.value.Some? ==>
      && ReservedMetadata <= r.value.value.metadata.Keys
      && r.value.value.metadata["instruction_type"] == JStr("direct")
      && r.value.value.metadata["scenario_category"] == JStr(category)
      && exists k :: 0 <= k < MaxRetries && Succeeds(attempts[k], decode)
    ensures r.Ok? && (forall k :: 0 <= k < MaxRetries ==> !Succeeds(attempts[k], decode)) ==> r == Ok(None)
    ensures r.Ok? ==>
      r.value == match FirstSuccess(Outcomes(attempts, decode, MaxRetries), 0)
                 case None => None
                 case Some(k) => TaskDataFromReply(Reply(attempts[k], decode), category, "direct")
  {
    if scenario.None? {
      var k :| 0 <= k < |ScenarioCategories|;
      category := ScenarioCategories[k];
    } else {
      category := scenario.value;
    }
    u := RandUnit();
    var prompt := SystemPrompt(t, u, ratio);
    if prompt.Err? {
      return Err(prompt.error), category, u;
    }
    var outcome := CallLlm(attempts, decode, MaxRetries);
    if !outcome.Parsed? {
      return Ok(None), category, u;
    }
    r := Ok(TaskDataFromReply(outcome.value, category, prompt.value));
  }
}
