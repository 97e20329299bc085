/**
 * The contract-review tool: the prompt record handed to the language model,
 * the tool's registration record, and the shaping of the model's answer
 * into a review that always carries the four required fields.
 *
 * Decoding the answer as JSON happens outside this module: the decoder's
 * outcome is a parameter, either an object or a decoding error.
 */
module ContractReviewer {
  import opened Wrappers

  /** A decoded JSON value. */
  datatype Json =
    | JNull
    | JBool(b: bool)
    | JNumber(n: real)
    | JString(s: string)
    | JArray(items: seq<Json>)
    | JObject(fields: map<string, Json>)

  /** What the JSON decoder made of the model's answer. */
  datatype DecodeOutcome = Decoded(obj: map<string, Json>) | DecodeError

  /** The prompt record the tool returns. */
  datatype ToolPrompt = ToolPrompt(systemPrompt: string, userPrompt: string, toolName: string)

  const ToolName: string := "contract_reviewer"

  /** The fields every review carries, in the order they are checked. */
  const RequiredFields: seq<string> := ["summary", "highlights", "warnings", "suggestions"]

  const UserPromptPrefix: string :=
    "Please review the following property contract and provide your analysis:\n\nCONTRACT CONTENT:\n"
  const UserPromptSuffix: string :=
    "\n\nPlease analyze this contract and provide your response in the specified JSON format."

  /**
   * The fixed instructions for the model. Their wording is not modelled:
   * this stands for the constant text, which asks for a JSON answer with the
   * four required fields.
   */
  function GetContractReviewSystemPrompt(): (p: string)
    ensures |p| > 0
  {
    "Contract review instructions: answer in JSON with summary, highlights, warnings and suggestions."
  }

  /**
   * The prompt record for one contract: the fixed instructions, the contract
   * text framed by a fixed prefix and suffix, and the tool's name.
   */
  function ReviewContractTool(fileContent: string): (t: ToolPrompt)
    ensures t.toolName == ToolName
    ensures t.systemPrompt == GetContractReviewSystemPrompt()
    ensures |t.userPrompt| == |UserPromptPrefix| + |fileContent| + |UserPromptSuffix|
    ensures t.userPrompt[..|UserPromptPrefix|] == UserPromptPrefix
    ensures t.userPrompt[|UserPromptPrefix|..|UserPromptPrefix| + |fileContent|] == fileContent
    ensures t.userPrompt[|UserPromptPrefix| + |fileContent|..] == UserPromptSuffix
  {
    ToolPrompt(GetContractReviewSystemPrompt(), UserPromptPrefix + fileContent + UserPromptSuffix, ToolName)
  }

  /** The contract text a user prompt frames, if it has the prompt's shape. */
  function ContractTextOf(userPrompt: string): (text: Option<string>)
  {
    var p, q := |UserPromptPrefix|, |UserPromptSuffix|;
    if |userPrompt| >= p + q
       && userPrompt[..p] == UserPromptPrefix
       && userPrompt[|userPrompt| - q..] == UserPromptSuffix
    then Some(userPrompt[p..|userPrompt| - q])
    else None
  }

  /** The contract text can be read back from the prompt built for it. */
  lemma ContractTextRoundTrip(fileContent: string)
    ensures ContractTextOf(ReviewContractTool(fileContent).userPrompt) == Some(fileContent)
  {
    var u := ReviewContractTool(fileContent).userPrompt;
    assert u[|u| - |UserPromptSuffix|..] == UserPromptSuffix;
  }

  /** Every prompt-shaped text is the prompt built for the text read back from it. */
  lemma ContractTextOfInverse(userPrompt: string, text: string)
    requires ContractTextOf(userPrompt) == Some(text)
    ensures ReviewContractTool(text).userPrompt == userPrompt
  {
    SplitInThree(userPrompt, |UserPromptPrefix|, |UserPromptSuffix|);
  }

  lemma SplitInThree(s: string, p: nat, q: nat)
    requires p + q <= |s|
    ensures s == s[..p] + s[p..|s| - q] + s[|s| - q..]
  {
  }

  /** Different contracts give different prompts. */
  lemma UserPromptInjective(a: string, b: string)
    requires ReviewContractTool(a).userPrompt == ReviewContractTool(b).userPrompt
    ensures a == b
  {
    ContractTextRoundTrip(a);
    ContractTextRoundTrip(b);
  }

  // ---------------------------------------------------------------------
  // Shaping the model's answer
  // ---------------------------------------------------------------------

  /**
   * `obj` with every field of `fields` that it lacks added as an empty list.
   */
  function FillMissing(obj: map<string, Json>, fields: seq<string>): (r: map<string, Json>)
    ensures r.Keys == obj.Keys + set f | f in fields
    ensures forall k :: k in obj ==> r[k] == obj[k]
    ensures forall k :: k in r && k !in obj ==> r[k] == JArray([])
  {
    map k | k in obj.Keys + (set f | f in fields) :: if k in obj then obj[k] else JArray([])
  }

  /** A decoded answer with every missing required field added as an empty list. */
  function WithRequiredFields(obj: map<string, Json>): (r: map<string, Json>)
    ensures forall f :: f in RequiredFields ==> f in r
    ensures forall k :: k in obj ==> k in r && r[k] == obj[k]
    ensures forall k :: k in r && k !in obj ==> k in RequiredFields && r[k] == JArray([])
  {
    FillMissing(obj, RequiredFields)
  }

  /** The review returned when the answer is not valid JSON: fixed advice plus the raw answer. */
  function FallbackReview(aiResponse: string): (r: map<string, Json>)
    ensures r.Keys == (set f | f in RequiredFields) + {"raw_response"}
    ensures r["raw_response"] == JString(aiResponse)
  {
    map[
      "summary" := JString("Failed to parse AI response properly"),
      "highlights" := JArray([JString("Review the raw response for details")]),
      "warnings" := JArray([JString("Response parsing error occurred")]),
      "suggestions" := JArray([JString("Please try again with a clearer contract format")]),
      "raw_response" := JString(aiResponse)]
  }

  lemma FillMissingStep(obj: map<string, Json>, fields: seq<string>, f: string)
    ensures FillMissing(obj, fields + [f]) ==
      var r := FillMissing(obj, fields);
      if f in r then r else r[f := JArray([])]
  {
    var r := FillMissing(obj, fields);
    var s := if f in r then r else r[f := JArray([])];
    assert (set g | g in fields + [f]) == (set g | g in fields) + {f};
    assert FillMissing(obj, fields + [f]).Keys == s.Keys;
  }

  /**
   * Shapes the model's answer: a decoded object gains every missing
   * required field as an empty list, fields already present keep their
   * values; an answer that does not decode yields the fallback review.
   */
  method FormatContractReviewResponse(aiResponse: string, parsed: DecodeOutcome)
    returns (review: map<string, Json>)
    ensures parsed.DecodeError? ==> review == FallbackReview(aiResponse)
    ensures parsed.Decoded? ==> review == WithRequiredFields(parsed.obj)
    ensures forall f :: f in RequiredFields ==> f in review
  {
    match parsed
    case DecodeError =>
      review := FallbackReview(aiResponse);
    case Decoded(obj) =>
      review := obj;
      for i := 0 to |RequiredFields|
        invariant review == FillMissing(obj, RequiredFields[..i])
      {
        var field := RequiredFields[i];
        FillMissingStep(obj, RequiredFields[..i], field);
        assert RequiredFields[..i + 1] == RequiredFields[..i] + [field];
        if field !in review {
          review := review[field := JArray([])];
        }
      }
      assert RequiredFields[..|RequiredFields|] == RequiredFields;
  }

  /** Filling is idempotent: a filled review is filled already. */
  lemma WithRequiredFieldsIdempotent(obj: map<string, Json>)
    ensures WithRequiredFields(WithRequiredFields(obj)) == WithRequiredFields(obj)
  {
    var r := WithRequiredFields(obj);
    assert WithRequiredFields(r).Keys == r.Keys;
  }

  /** An object that has all four required fields is returned unchanged. */
  lemma CompleteObjectUnchanged(obj: map<string, Json>)
    requires forall f :: f in RequiredFields ==> f in obj
    ensures WithRequiredFields(obj) == obj
  {
    assert WithRequiredFields(obj).Keys == obj.Keys;
  }

  // ---------------------------------------------------------------------
  // Registration
  // ---------------------------------------------------------------------

  /** The name of the tool's one parameter, the contract text. */
  const FileContentParam: string := "file_content"

  /** One parameter of a tool: its JSON type and description. */
  datatype ParamSpec = ParamSpec(paramType: string, description: string)

  /** The registration record: name, description, handler and parameter schema. */
  datatype ToolConfig = ToolConfig(
    name: string,
    description: string,
    handler: string -> ToolPrompt,
    schemaType: string,
    properties: map<string, ParamSpec>,
    required: seq<string>)

  function ContractReviewToolConfig(): (c: ToolConfig)
    ensures c.name == ToolName
    ensures c.required == [FileContentParam] && FileContentParam in c.properties
  {
    ToolConfig(
      ToolName,
      "Analyzes property contracts to provide summaries, highlights, warnings, and suggestions",
      ReviewContractTool,
      "object",
      map[FileContentParam := ParamSpec("string", "The text content of the contract to review")],
      [FileContentParam])
  }

  /**
   * The registration names the tool by the name its prompt record carries,
   * dispatches to it, and declares the contract text as its one required
   * string parameter.
   */
  lemma ToolConfigMatchesTool(fileContent: string)
    ensures var c := ContractReviewToolConfig();
      && c.name == ReviewContractTool(fileContent).toolName
      && c.handler(fileContent) == ReviewContractTool(fileContent)
      && c.required == [FileContentParam]
      && c.properties.Keys == {FileContentParam}
      && c.properties[FileContentParam].paramType == "string"
  {
  }
}
