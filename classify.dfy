/** The `classify` action of `backend/tickets/views.py`: validate the
    description, fall back to `general`/`low` when no model can be asked,
    strip a markdown code fence from the model's reply, and accept the parsed
    reply only when it carries both suggestion keys.

    The model request itself and `json.loads` are foreign: the request's
    outcome is the parameter `llmText` (`None` when the call or the lookup
    of the reply text raised), and the JSON parser is the parameter
    `parseJson` (`None` when it raised). */
module Classification {
  import opened Wrappers
  import opened Text

  /** A decoded JSON object whose values are strings. */
  type JsonObject = map<string, string>

  const CategoryKey := "suggested_category"
  const PriorityKey := "suggested_priority"

  /** The answer given whenever no usable suggestion is available. */
  const Fallback: JsonObject := map[CategoryKey := "general", PriorityKey := "low"]

  /** An HTTP 400 with an error message, or an HTTP 200 with a JSON body. */
  datatype Response = BadRequest(error: string) | Ok(body: JsonObject)

  lemma JsonFenceIsFence(text: string)
    requires StartsWith(text, "```json")
    ensures StartsWith(text, "```")
  {
    assert text[..3] == text[..7][..3];
  }

  /** The fence removal applied to the (already stripped) reply text. A
      fenced reply loses its first seven (```` ```json ````) or three
      (```` ``` ````) characters and its last three, whatever they are; a reply
      too short for both becomes empty. */
  function Unfence(text: string): (r: string)
    ensures |r| <= |text|
    ensures !StartsWith(text, "```") ==> r == text
    ensures StartsWith(text, "```json") ==>
              (|text| >= 10 ==> r == Strip(text[7..|text| - 3])) && (|text| < 10 ==> r == "")
    ensures StartsWith(text, "```") && !StartsWith(text, "```json") ==>
              (|text| >= 6 ==> r == Strip(text[3..|text| - 3])) && (|text| < 6 ==> r == "")
  {
    if StartsWith(text, "```json") then JsonFenceIsFence(text); Strip(DropBoth(text, 7, 3))
    else if StartsWith(text, "```") then Strip(DropBoth(text, 3, 3))
    else text
  }

  /** The parsed reply if it names both keys, otherwise the fallback. */
  function Accept(parsed: Option<JsonObject>): (r: JsonObject)
    ensures CategoryKey in r && PriorityKey in r
    ensures r == Fallback || parsed == Some(r)
    ensures parsed.Some? && CategoryKey in parsed.value && PriorityKey in parsed.value ==> r == parsed.value
  {
    if parsed.Some? && CategoryKey in parsed.value && PriorityKey in parsed.value then parsed.value
    else Fallback
  }

  /** A reply wrapped in a ```json fence loses exactly the fence. */
  lemma UnfenceJsonBlock(body: string)
    ensures Unfence(Strip("```json" + body + "```")) == Strip(body)
  {
    var text := "```json" + body + "```";
    assert text[0] == '`' && text[|text| - 1] == '`';
    TrimRightNoop(text);
    TrimLeftNoop(text);
    assert text[..7] == "```json";
    assert text[7..|text| - 3] == body;
  }

  /** A reply wrapped in a bare ``` fence loses exactly the fence, unless the
      body itself begins with `json`, which is then read as the language tag. */
  lemma UnfencePlainBlock(body: string)
    requires !StartsWith(body, "json")
    ensures Unfence(Strip("```" + body + "```")) == Strip(body)
  {
    var text := "```" + body + "```";
    assert text[0] == '`' && text[|text| - 1] == '`';
    TrimRightNoop(text);
    TrimLeftNoop(text);
    assert text[..3] == "```";
    assert !StartsWith(text, "```json") by {
      if |body| >= 4 {
        assert text[3..7] == body[..4];
      } else {
        assert text[3 + |body|] == '`';
      }
    }
    assert text[3..|text| - 3] == body;
  }

  /** A ```` ```json ```` fence that is never closed still loses the last three
      characters of its body, so the object is cut short and not parsed. */
  lemma UnclosedFenceLosesTail()
    ensures Unfence("```json{\"a\":\"b\"}") == "{\"a\":\""
  {
    var text := "```json{\"a\":\"b\"}";
    assert StartsWith(text, "```json");
    var body := text[7..|text| - 3];
    assert body == "{\"a\":\"";
    TrimRightNoop(body);
    TrimLeftNoop(body);
  }

  /** The `classify` action. */
  method Classify(description: Option<string>, apiKey: Option<string>, llmText: Option<string>,
                  parseJson: string -> Option<JsonObject>)
    returns (response: Response)
    ensures response.BadRequest? <==> !Truthy(description)
    ensures response.Ok? ==> CategoryKey in response.body && PriorityKey in response.body
    ensures Truthy(description) && (!Truthy(apiKey) || llmText.None?) ==> response == Ok(Fallback)
    ensures Truthy(description) && Truthy(apiKey) && llmText.Some? ==>
              response == Ok(Accept(parseJson(Unfence(Strip(llmText.value)))))
  {
    if !Truthy(description) {
      return BadRequest("Description is required");
    }
    assert Accept(None) == Fallback;
    if !Truthy(apiKey) {
      return Ok(Fallback);
    }
    if llmText.None? {
      return Ok(Fallback);
    }
    var responseText := Unfence(Strip(llmText.value));
    var result := parseJson(responseText);
    if result.None? {
      return Ok(Fallback);
    }
    if CategoryKey in result.value && PriorityKey in result.value {
      return Ok(result.value);
    }
    return Ok(Fallback);
  }
}
