/** The guard around the local llama.cpp chat server: its base URL, the
    test for an answer that looks like JSON, and the decision to ask
    again with a reinforced system prompt when the model answers with a
    made-up tool call or with JSON at all. The chat call and `json.loads`
    are inputs. */
module LlmGuard {
  import opened Wrappers
  import opened Text
  import opened JsonValue

  /** `base_url(host, port)`: `http://host:port/v1`. */
  function BaseUrl(host: string, port: int): (u: string)
    ensures StartsWith(u, "http://" + host + ":") && EndsWith(u, "/v1")
  {
    "http://" + host + ":" + IntToString(port) + "/v1"
  }

  /** The URL starts with the scheme and host, ends with `/v1`, and the
      digits in between read back as the port. */
  lemma BaseUrlParts(host: string, port: nat)
    ensures var u := BaseUrl(host, port);
      var from := |"http://"| + |host| + 1;
      && from <= |u| - 3
      && u[..from] == "http://" + host + ":"
      && u[|u| - 3..] == "/v1"
      && ParseNat(u[from..|u| - 3]) == port
  {
    var u := BaseUrl(host, port);
    var digits := NatToString(port);
    assert u == "http://" + host + ":" + digits + "/v1";
    var from := |"http://"| + |host| + 1;
    assert u[from..|u| - 3] == digits;
    ParseNatToString(port);
  }

  /** `looks_like_json(s)`: once stripped, `s` is wrapped in braces or in
      brackets. */
  predicate LooksLikeJson(s: string)
    ensures LooksLikeJson(s) ==> !Blank(s)
  {
    var t := Strip(s);
    (StartsWith(t, "{") && EndsWith(t, "}")) || (StartsWith(t, "[") && EndsWith(t, "]"))
  }

  /** The test in terms of characters: the stripped text has at least two
      characters, the first an opening and the last the matching closing
      brace or bracket; a blank text never looks like JSON. */
  lemma LooksLikeJsonChars(s: string)
    ensures var t := Strip(s);
      LooksLikeJson(s) <==>
        |t| >= 2 && ((t[0] == '{' && t[|t| - 1] == '}') || (t[0] == '[' && t[|t| - 1] == ']'))
    ensures Blank(s) ==> !LooksLikeJson(s)
  {
    var t := Strip(s);
    WrappedIn(t, '{', '}');
    WrappedIn(t, '[', ']');
  }

  lemma WrappedIn(t: string, open: char, close: char)
    requires open != close
    ensures StartsWith(t, [open]) && EndsWith(t, [close]) <==> |t| >= 2 && t[0] == open && t[|t| - 1] == close
  {
    if |t| >= 1 {
      assert StartsWith(t, [open]) <==> t[0] == open by { assert [open] <= t <==> t[..1] == [open]; }
      assert EndsWith(t, [close]) <==> t[|t| - 1] == close by { assert t[|t| - 1..] == [t[|t| - 1]]; }
    }
  }

  const DefaultSystemPrompt: string :=
    "Tu es un assistant conversationnel. Réponds uniquement en texte naturel. Ne réponds jamais en JSON. N'invente pas d'appel de fonction ou d'outil. Si l'utilisateur dit bonjour, réponds simplement et brièvement."

  /** Appended to the system prompt after a made-up tool call. */
  const NoJsonObject: string := " IMPORTANT: ne produis pas d'objet JSON. Réponds par une phrase en texte."
  /** Appended to the system prompt after an answer that is not valid JSON. */
  const NoJson: string := " IMPORTANT: ne produis pas de JSON. Réponds en texte."

  /** One `chat_completion` request. */
  datatype ChatCall = ChatCall(url: string, prompt: string, temperature: real, maxTokens: int, systemPrompt: string)

  /** What a request gave: the answer's content, or an exception. */
  datatype Reply = Answered(text: string) | CallFailed(message: string)

  /** The requests made, in order, and the answer returned or the message
      of the exception that escaped. */
  datatype Asked = Asked(calls: seq<ChatCall>, answer: Result<string, string>)

  function AnswerOf(r: Reply): Result<string, string> {
    match r
    case Answered(text) => Ok(text)
    case CallFailed(message) => Err(message)
  }

  /** A made-up tool call: a JSON object with `name` and `parameters`. */
  predicate ToolLike(j: Json) {
    j.Obj? && "name" in j.fields && "parameters" in j.fields
  }

  /** Every request repeats the first one except, possibly, for its system
      prompt. */
  predicate SameRequest(calls: seq<ChatCall>, first: ChatCall) {
    forall i :: 0 <= i < |calls| ==> calls[i] == first.(systemPrompt := calls[i].systemPrompt)
  }

  /** `ask_text_only` as the code runs it: the second request of the
      made-up-tool-call branch is made inside the `try`, so when it fails
      the `except` clause makes a third request. */
  function AskTextOnlyAsWritten(url: string, prompt: string, temperature: real, maxTokens: int, systemPrompt: string,
                                chat: ChatCall -> Reply, parse: string -> Parsed): (a: Asked)
    ensures var first := ChatCall(url, prompt, temperature, maxTokens, systemPrompt);
      1 <= |a.calls| <= 3 && a.calls[0] == first && SameRequest(a.calls, first)
  {
    var first := ChatCall(url, prompt, temperature, maxTokens, systemPrompt);
    var noObject := first.(systemPrompt := systemPrompt + NoJsonObject);
    var noJson := first.(systemPrompt := systemPrompt + NoJson);
    match chat(first)
    case CallFailed(m) => Asked([first], Err(m))
    case Answered(out) =>
      if !LooksLikeJson(out) then Asked([first], Ok(out))
      else
        match parse(out)
        case NotJson => Asked([first, noJson], AnswerOf(chat(noJson)))
        case Decoded(obj) =>
          if !ToolLike(obj) then Asked([first], Ok(out))
          else
            match chat(noObject)
            case Answered(out2) => Asked([first, noObject], Ok(out2))
            case CallFailed(_) => Asked([first, noObject, noJson], AnswerOf(chat(noJson)))
  }

  /** A first answer that is a made-up tool call, followed by a failed
      reinforced request, costs three requests although the guard is meant
      to ask again only once. */
  lemma AsWrittenRetriesTwice(url: string, prompt: string, temperature: real, maxTokens: int, systemPrompt: string,
                              chat: ChatCall -> Reply, parse: string -> Parsed)
    requires var first := ChatCall(url, prompt, temperature, maxTokens, systemPrompt);
      && chat(first).Answered? && LooksLikeJson(chat(first).text)
      && parse(chat(first).text).Decoded? && ToolLike(parse(chat(first).text).value)
      && chat(first.(systemPrompt := systemPrompt + NoJsonObject)).CallFailed?
    ensures |AskTextOnlyAsWritten(url, prompt, temperature, maxTokens, systemPrompt, chat, parse).calls| == 3
  {
  }

  /** A made-up tool call, as the model might answer. */
  const ToolCallAnswer: string := "{\"name\": \"x\", \"parameters\": {}}"

  lemma ToolCallAnswerLooksLikeJson()
    ensures LooksLikeJson(ToolCallAnswer)
  {
    var out := ToolCallAnswer;
    assert !IsSpace(out[0]) && !IsSpace(out[|out| - 1]);
    assert Strip(out) == out;
    assert out[|out| - 1..] == "}";
  }

  /** The run that shows it: the model first answers with a made-up tool
      call and every reinforced request times out. The code as written
      makes three requests; the single-retry guard makes two and lets the
      timeout escape. */
  lemma ThirdCallExample(chat: ChatCall -> Reply, parse: string -> Parsed)
    requires forall c :: chat(c) == if c.systemPrompt == "" then Answered(ToolCallAnswer) else CallFailed("timeout")
    requires forall s :: parse(s) == Decoded(Obj(map["name" := Str("x"), "parameters" := Obj(map[])]))
    ensures |AskTextOnlyAsWritten("u", "p", 0.2, 350, "", chat, parse).calls| == 3
    ensures AskTextOnly("u", "p", 0.2, 350, "", chat, parse) ==
      Asked([ChatCall("u", "p", 0.2, 350, ""), ChatCall("u", "p", 0.2, 350, NoJsonObject)], Err("timeout"))
  {
    var first := ChatCall("u", "p", 0.2, 350, "");
    var second := first.(systemPrompt := "" + NoJsonObject);
    assert chat(first) == Answered(ToolCallAnswer);
    assert second.systemPrompt != "" && chat(second) == CallFailed("timeout");
    ToolCallAnswerLooksLikeJson();
    assert ToolLike(parse(ToolCallAnswer).value);
    AsWrittenRetriesTwice("u", "p", 0.2, 350, "", chat, parse);
    var a := AskTextOnly("u", "p", 0.2, 350, "", chat, parse);
    assert |a.calls| == 2 && a.calls[0] == first && a.calls[1] == second;
    assert a.answer == Err("timeout");
    assert "" + NoJsonObject == NoJsonObject;
    assert a.calls == [first, second];
  }

  /** `ask_text_only` with at most one retry: the reinforced request after
      a made-up tool call is made outside the `try`, so its failure
      escapes. One request is made, and its answer returned, unless the
      answer looks like JSON and is either not valid JSON or a made-up
      tool call; then exactly one more request is made, with the system
      prompt reinforced by the suffix for that case, and its answer is
      returned. Every request carries the same prompt and settings. */
  function AskTextOnly(url: string, prompt: string, temperature: real, maxTokens: int, systemPrompt: string,
                       chat: ChatCall -> Reply, parse: string -> Parsed): (a: Asked)
    ensures var first := ChatCall(url, prompt, temperature, maxTokens, systemPrompt);
      && 1 <= |a.calls| <= 2 && a.calls[0] == first
      && SameRequest(a.calls, first)
      && (|a.calls| == 2 <==>
            && chat(first).Answered? && LooksLikeJson(chat(first).text)
            && (parse(chat(first).text).NotJson? || ToolLike(parse(chat(first).text).value)))
      && (|a.calls| == 1 ==> a.answer == AnswerOf(chat(first)))
      && (|a.calls| == 2 ==>
            && a.calls[1].systemPrompt ==
                 systemPrompt + (if parse(chat(first).text).NotJson? then NoJson else NoJsonObject)
            && a.answer == AnswerOf(chat(a.calls[1])))
  {
    var first := ChatCall(url, prompt, temperature, maxTokens, systemPrompt);
    match chat(first)
    case CallFailed(m) => Asked([first], Err(m))
    case Answered(out) =>
      match RetrySuffix(out, parse(out))
      case None => Asked([first], Ok(out))
      case Some(suffix) =>
        var second := first.(systemPrompt := systemPrompt + suffix);
        Asked([first, second], AnswerOf(chat(second)))
  }

  /** Whether, and with which suffix to the system prompt, to ask again
      after an answer: only when it looks like JSON and is either not valid
      JSON or a made-up tool call. */
  function RetrySuffix(out: string, parsed: Parsed): (r: Option<string>)
    ensures r.Some? <==> LooksLikeJson(out) && (parsed.NotJson? || ToolLike(parsed.value))
    ensures r.Some? ==> r.value == (if parsed.NotJson? then NoJson else NoJsonObject)
  {
    if !LooksLikeJson(out) then None
    else
      match parsed
      case NotJson => Some(NoJson)
      case Decoded(obj) => if ToolLike(obj) then Some(NoJsonObject) else None
  }

  /** The code as written and the single-retry guard agree on every run
      except the one where the reinforced request after a made-up tool
      call fails. */
  lemma AsWrittenAgreesOtherwise(url: string, prompt: string, temperature: real, maxTokens: int, systemPrompt: string,
                                 chat: ChatCall -> Reply, parse: string -> Parsed)
    requires var first := ChatCall(url, prompt, temperature, maxTokens, systemPrompt);
      !(&& chat(first).Answered? && LooksLikeJson(chat(first).text)
        && parse(chat(first).text).Decoded? && ToolLike(parse(chat(first).text).value)
        && chat(first.(systemPrompt := systemPrompt + NoJsonObject)).CallFailed?)
    ensures AskTextOnlyAsWritten(url, prompt, temperature, maxTokens, systemPrompt, chat, parse)
         == AskTextOnly(url, prompt, temperature, maxTokens, systemPrompt, chat, parse)
  {
  }
}
