/**
  Chat title generation: the preparation of the model request and the clean-up of the
  model's answer. The model itself is an oracle whose answer is a parameter.
 */
module Title {
  import opened Wrappers
  import opened Js
  import opened Text

  const PromptMaxChars := 800
  const BodyMaxChars := 2000
  const UnserializableBody := "[unserializable response body]"

  /** What the model call produced: its text and raw response body, or an exception. */
  datatype ModelReply = Replied(text: string, body: Value) | Threw(error: string)

  /**
    The user content sent to the model for `message`: the trimmed message cut to its first 800
    characters, or `None` when the trimmed message is empty and no request is made at all.
   */
  function TitleRequest(message: string): (r: Option<string>)
    ensures r.None? <==> Trim(message) == ""
    ensures r.Some? ==> |r.value| <= PromptMaxChars && StartsWith(Trim(message), r.value)
    ensures r.Some? && |Trim(message)| <= PromptMaxChars ==> r.value == Trim(message)
  {
    var trimmed := Trim(message);
    if trimmed == "" then None
    else if |trimmed| <= PromptMaxChars then Some(trimmed)
    else Some(trimmed[..PromptMaxChars])
  }

  /**
    `.replace(/^"|"$/g, "")`: removes one leading double quote, then one trailing double quote
    from what is left (a lone `"` disappears entirely).
   */
  function StripQuotes(s: string): (r: string)
    ensures |s| - 2 <= |r| <= |s|
    ensures var lead := if |s| > 0 && s[0] == '"' then 1 else 0;
      var trail := if |s| > lead && s[|s| - 1] == '"' then 1 else 0;
      r == s[lead..|s| - trail]
  {
    var a := if |s| > 0 && s[0] == '"' then s[1..] else s;
    if |a| > 0 && a[|a| - 1] == '"' then a[..|a| - 1] else a
  }

  /** The model text trimmed and stripped of its surrounding quotes. */
  function CleanTitle(text: string): string {
    StripQuotes(Trim(text))
  }

  /**
    `generateChatTitle`: `Ok(None)` without calling the model for a blank message, the cleaned
    model text when it is non-empty, `Ok(None)` when it cleans to nothing; a model exception
    propagates as `Err`.
   */
  function GenerateChatTitle(message: string, reply: ModelReply): (r: Result<Option<string>>)
    ensures TitleRequest(message).None? ==> r == Ok(None)
    ensures TitleRequest(message).Some? && reply.Threw? ==> r == Err(reply.error)
    ensures r.Ok? && r.value.Some? ==>
      reply.Replied? && r.value.value == CleanTitle(reply.text) && r.value.value != ""
    ensures TitleRequest(message).Some? && reply.Replied? ==>
      (r == Ok(None) <==> CleanTitle(reply.text) == "")
  {
    if TitleRequest(message).None? then Ok(None)
    else match reply
      case Threw(e) => Err(e)
      case Replied(text, _) =>
        var title := CleanTitle(text);
        if title == "" then Ok(None) else Ok(Some(title))
  }

  /** Trimming the padded pair of quotes leaves the pair. */
  lemma TrimPaddedQuotes()
    ensures Trim("  \"\"  ") == "\"\""
  {
    TrimStartPadded();
    TrimEndPadded();
  }

  /** `trimStart` drops the two leading spaces. */
  lemma TrimStartPadded()
    ensures TrimStart("  \"\"  ") == "\"\"  "
  {
    var t, u := "  \"\"  ", "\"\"  ";
    assert t[1..][1..] == u;
    assert IsSpace(t[0]) && IsSpace(t[1..][0]) && !IsSpace(u[0]);
  }

  /** `trimEnd` drops the two trailing spaces. */
  lemma TrimEndPadded()
    ensures TrimEnd("\"\"  ") == "\"\""
  {
    var u, w := "\"\"  ", "\"\"";
    assert u[..3][..2] == w;
    assert IsSpace(u[3]) && IsSpace(u[..3][2]) && !IsSpace(w[1]);
  }

  /** A reply that is only whitespace and quotes gives no title. */
  lemma QuotesOnlyGiveNoTitle(message: string, body: Value)
    requires Trim(message) != ""
    ensures GenerateChatTitle(message, Replied("  \"\"  ", body)) == Ok(None)
  {
    TrimPaddedQuotes();
    StripQuotesPair();
    assert CleanTitle("  \"\"  ") == "";
  }

  /** A bare pair of quotes strips to nothing. */
  lemma StripQuotesPair()
    ensures StripQuotes("\"\"") == ""
  {
    assert "\"\""[1..] == "\"";
  }

  /** A quoted reply loses exactly its outer quotes: `"x"` becomes `x`. */
  lemma StripQuotesOfQuoted(inner: string)
    ensures StripQuotes(['"'] + inner + ['"']) == inner
  {
    var s := ['"'] + inner + ['"'];
    assert s[1..] == inner + ['"'];
    assert (inner + ['"'])[..|inner|] == inner;
  }

  /** Only the outermost quotes go: inner quotes survive. */
  lemma StripQuotesKeepsInner()
    ensures StripQuotes("\"\"x\"\"") == "\"x\""
  {
    assert "\"\"x\"\""[1..] == "\"x\"\"";
    assert "\"x\"\""[..3] == "\"x\"";
  }

  /** A leading quote alone goes: `"x` becomes `x`. */
  lemma StripQuotesLeadingOnly(inner: string)
    requires inner == [] || inner[|inner| - 1] != '"'
    ensures StripQuotes(['"'] + inner) == inner
  {
    assert (['"'] + inner)[1..] == inner;
  }

  /** A trailing quote alone goes: `x"` becomes `x`. */
  lemma StripQuotesTrailingOnly(inner: string)
    requires inner == [] || inner[0] != '"'
    ensures StripQuotes(inner + ['"']) == inner
  {
    assert (inner + ['"'])[..|inner|] == inner;
  }

  /** Text with no quote at either end survives untouched. */
  lemma StripQuotesUnquoted(s: string)
    requires s == [] || (s[0] != '"' && s[|s| - 1] != '"')
    ensures StripQuotes(s) == s
  {
  }

  /**
    `summarizeResponseBody`: null for a falsy body; otherwise the JSON text when it is at most
    2000 characters, its first 2000 characters followed by "... (truncated N)" with N the full
    length when it is longer, and a fixed marker when serialisation fails.
   */
  function SummarizeResponseBody(json: JsonCodec, body: Value): (r: Option<string>)
    ensures !Truthy(body) ==> r == None
    ensures Truthy(body) && json.stringify(body).None? ==> r == Some(UnserializableBody)
    ensures Truthy(body) && json.stringify(body).Some? && |json.stringify(body).value| <= BodyMaxChars
      ==> r == json.stringify(body)
    ensures Truthy(body) && json.stringify(body).Some? && |json.stringify(body).value| > BodyMaxChars
      ==> var full := json.stringify(body).value;
          r.Some? && StartsWith(r.value, full[..BodyMaxChars])
          && r.value[BodyMaxChars..] == "... (truncated " + NatToString(|full|) + ")"
  {
    if !Truthy(body) then None
    else match json.stringify(body)
      case None => Some(UnserializableBody)
      case Some(serialized) =>
        if |serialized| <= BodyMaxChars then Some(serialized)
        else Some(serialized[..BodyMaxChars] + "... (truncated " + NatToString(|serialized|) + ")")
  }
}
