/** `POST /api/translate` (backend/server.js): input validation, the mapping
    of upstream failures to status codes, and the normalisation of the
    translated answer. The Gemini call is a parameter (`Upstream`), and so is
    `JSON.parse`. */
module TranslateEndpoint {
  import opened Wrappers
  import opened Strings

  /** What the handler asks the upstream model to translate. */
  datatype Job =
    | PostJob(title: string, excerpt: string, content: string)
    | TextJob(text: string)

  /** The settled upstream call: `fetch` threw, answered with a non-OK status,
      or answered with a body whose first candidate part's `text` is `part`.
      For a 429, `quotaMessage` is the Vietnamese retry message the handler
      builds when the error body parses as JSON (its text is not modelled). */
  datatype Upstream =
    | Threw(message: string)
    | NotOk(status: int, quotaMessage: Option<string>)
    | Answer(part: Option<Json>)

  datatype Reply =
    | Failed(status: int, error: string)
    | Translated(text: string)
    | TranslatedPost(title: string, excerpt: string, content: string)

  /** A property of the request body, as destructuring reads it; a missing
      body reads as `{}`. */
  function Prop(body: Option<Json>, key: string): Option<Json> {
    if body.Some? && body.value.JObject? then Get(body.value.fields, key) else None
  }

  /** `type = 'text'`: the request is a post exactly when `type` is the
      string `'post'`; an absent `type` defaults to the text form. */
  predicate IsPostRequest(body: Option<Json>) {
    Prop(body, "type") == Some(JString("post"))
  }

  // The validation messages.
  const NotConfigured := "Translation not configured. Set GEMINI_API_KEY in backend .env (get key at https://aistudio.google.com/apikey)"
  const EmptyPost := "Post translation requires at least one of title, excerpt, content"
  const MissingText := "Body must include text (string)"
  const BlankText := "Text cannot be empty"

  /** Validation, in the handler's order: the API key is checked before the
      body is looked at; a post needs one of its three fields non-blank; a
      text needs a non-blank string. */
  function Validate(apiKey: string, body: Option<Json>): (r: Option<Reply>)
    ensures apiKey == "" ==> r.Some? && r.value.Failed? && r.value.status == 503
    ensures r.Some? ==> r.value.Failed? && r.value.status in {400, 503}
    ensures apiKey != "" && r.Some? ==> r.value.status == 400
    ensures apiKey != "" && IsPostRequest(body) ==>
              (r.None? <==>
                 || Trim(StringOr(Prop(body, "title"), "")) != ""
                 || Trim(StringOr(Prop(body, "excerpt"), "")) != ""
                 || Trim(StringOr(Prop(body, "content"), "")) != "")
    ensures apiKey != "" && !IsPostRequest(body) ==>
              (r.None? <==> Prop(body, "text").Some? && Prop(body, "text").value.JString?
                            && Trim(Prop(body, "text").value.s) != "")
  {
    if apiKey == "" then
      Some(Failed(503, NotConfigured))
    else if IsPostRequest(body) then
      var t := Trim(StringOr(Prop(body, "title"), ""));
      var e := Trim(StringOr(Prop(body, "excerpt"), ""));
      var c := Trim(StringOr(Prop(body, "content"), ""));
      if t == "" && e == "" && c == "" then
        Some(Failed(400, EmptyPost))
      else None
    else
      var text := Prop(body, "text");
      if !Truthy(text) || !text.value.JString? then
        Some(Failed(400, MissingText))
      else if Trim(text.value.s) == "" then
        Some(Failed(400, BlankText))
      else None
  }

  /** The job a valid body asks for: the trimmed fields, a non-string field
      reading as `''`. */
  function JobOf(body: Option<Json>): Job {
    if IsPostRequest(body) then
      PostJob(Trim(StringOr(Prop(body, "title"), "")),
              Trim(StringOr(Prop(body, "excerpt"), "")),
              Trim(StringOr(Prop(body, "content"), "")))
    else
      TextJob(Trim(StringOr(Prop(body, "text"), "")))
  }

  // ---------------------------------------------------------------------------
  // Stripping the code fence: translated.replace(/^```json?\s*|\s*```$/g, '')

  /** Where the leading-fence alternative `^```json?\s*` stops matching, or
      `None` when the text does not begin with "```jso". */
  function OpeningFenceEnd(s: string): (e: Option<nat>)
    ensures e.Some? ==> StartsWith(s, "```jso") && 6 <= e.value <= |s|
    ensures e.Some? ==> var k := if |s| > 6 && s[6] == 'n' then 7 else 6;
                        k <= e.value && AllSpace(s[k..e.value])
    ensures e.Some? ==> e.value == |s| || !IsSpace(s[e.value])
    ensures e.None? <==> !StartsWith(s, "```jso")
  {
    if !StartsWith(s, "```jso") then None
    else
      var k := if |s| > 6 && s[6] == 'n' then 7 else 6;
      var rest := TrimStart(s[k..]);
      assert s[k..][|s[k..]| - |rest|..] == s[|s| - |rest|..];
      assert s[k..][..|s[k..]| - |rest|] == s[k..|s| - |rest|];
      Some(|s| - |rest|)
  }

  /** The trailing alternative `\s*```$` on what follows the leading match:
      the final "```" and the whole run of white space before it. */
  function DropClosingFence(s: string): (r: string)
    ensures EndsWith(s, "```") ==> r == TrimEnd(s[..|s| - 3])
    ensures !EndsWith(s, "```") ==> r == s
  {
    if EndsWith(s, "```") then TrimEnd(s[..|s| - 3]) else s
  }

  /** The whole replacement. The global search resumes where the leading match
      ended, so the trailing match never reaches back into it. */
  function StripFence(s: string): (r: string)
  {
    match OpeningFenceEnd(s)
    case Some(e) => DropClosingFence(s[e..])
    case None => DropClosingFence(s)
  }

  /** A "```json" fenced answer loses both fences and the white space inside
      them. */
  lemma StripsJsonFence(x: string, ws1: string, ws2: string)
    requires AllSpace(ws1) && AllSpace(ws2)
    requires x != [] && !IsSpace(x[0]) && !IsSpace(x[|x| - 1])
    ensures StripFence("```json" + ws1 + x + ws2 + "```") == x
  {
    var tail := x + ws2 + "```";
    var s := "```json" + ws1 + tail;
    assert "```json" + ws1 + x + ws2 + "```" == s;
    assert tail[0] == x[0];
    JsonOpeningFence(ws1, tail);
    assert s[|s| - |tail|..] == tail;
    ClosingFence(x, ws2);
  }

  /** The opening alternative consumes "```json" and the white space after
      it, stopping at the first other character. */
  lemma JsonOpeningFence(ws: string, tail: string)
    requires AllSpace(ws) && tail != [] && !IsSpace(tail[0])
    ensures OpeningFenceEnd("```json" + ws + tail) == Some(7 + |ws|)
  {
    var s := "```json" + ws + tail;
    assert s[..6] == "```jso" && s[6] == 'n';
    assert s[7..] == ws + tail;
    TrimStartAfterSpace(ws, tail);
  }

  /** The closing alternative removes the final "```" and the white space
      before it. */
  lemma ClosingFence(x: string, ws: string)
    requires AllSpace(ws) && x != [] && !IsSpace(x[|x| - 1])
    ensures DropClosingFence(x + ws + "```") == x
  {
    var t := x + ws + "```";
    assert EndsWith(t, "```") by {
      assert t[|t| - 3..] == "```";
    }
    assert t[..|t| - 3] == x + ws;
    TrimEndBeforeSpace(x, ws);
  }

  /** A bare "```" opener is kept: only the closing fence is removed, so the
      text handed to `JSON.parse` still starts with the backticks. */
  lemma {:induction false} KeepsBareFence(x: string, ws2: string)
    requires AllSpace(ws2)
    requires x != [] && !IsSpace(x[|x| - 1])
    ensures StripFence("```\n" + x + ws2 + "```") == "```\n" + x
  {
    var s := "```\n" + x + ws2 + "```";
    assert s[3] == '\n';
    assert !StartsWith(s, "```jso");
    assert s[..|s| - 3] == ("```\n" + x) + ws2;
    TrimEndBeforeSpace("```\n" + x, ws2);
  }

  lemma {:induction false} TrimStartAfterSpace(ws: string, x: string)
    requires AllSpace(ws)
    requires x != [] && !IsSpace(x[0])
    ensures TrimStart(ws + x) == x
  {
    if ws != [] {
      assert (ws + x)[1..] == ws[1..] + x;
      TrimStartAfterSpace(ws[1..], x);
    } else {
      assert ws + x == x;
    }
  }

  lemma {:induction false} TrimEndBeforeSpace(x: string, ws: string)
    requires AllSpace(ws)
    requires x != [] && !IsSpace(x[|x| - 1])
    ensures TrimEnd(x + ws) == x
  {
    if ws != [] {
      assert (x + ws)[..|x + ws| - 1] == x + ws[..|ws| - 1];
      TrimEndBeforeSpace(x, ws[..|ws| - 1]);
    } else {
      assert x + ws == x;
    }
  }

  // ---------------------------------------------------------------------------
  // The response

  /** `typeof parsed.X === 'string' ? parsed.X : ''` for the three keys; a
      parsed `null` throws, which the handler treats like a parse failure. */
  function PostFields(parsed: Json): Option<Reply> {
    match parsed
    case JNull => None
    case JObject(f) =>
      Some(TranslatedPost(StringOr(Get(f, "title"), ""), StringOr(Get(f, "excerpt"), ""),
                          StringOr(Get(f, "content"), "")))
    case _ => Some(TranslatedPost("", "", ""))
  }

  // The messages for a non-OK upstream status.
  const KeyRejected := "Invalid or missing GEMINI_API_KEY. Check backend .env and https://aistudio.google.com/apikey"
  const Unavailable := "Gemini API is temporarily unavailable. Try again later."
  const QuotaExceeded := "Quota/rate limit exceeded. Try again in 1–2 minutes."
  const ServiceError := "Translation service error."

  /** The reply to a validated request once the upstream call has settled. */
  function Respond(job: Job, up: Upstream, parse: string -> Option<Json>): (r: Reply)
    ensures up.NotOk? && up.status == 429 ==> r.Failed? && r.status == 429
    ensures up.NotOk? && up.status != 429 ==> r.Failed? && r.status == 502
    ensures up.Answer? && !Truthy(up.part) ==> r == Failed(502, "No translation in response")
    ensures up.Threw? ==> r == Failed(500, if up.message == "" then "Translation failed" else up.message)
    ensures up.Answer? && Truthy(up.part) && up.part.value.JString? ==>
              && !r.Failed?
              && (job.TextJob? <==> r.Translated?)
              && (r.Translated? ==> r.text == Trim(up.part.value.s))
    ensures up.Answer? && Truthy(up.part) && up.part.value.JString? && job.PostJob? ==>
              var translated := Trim(up.part.value.s);
              var parsed := parse(Trim(StripFence(translated)));
              (parsed.None? || parsed == Some(JNull)) ==> r == TranslatedPost(translated, "", "")
    ensures up.Answer? && Truthy(up.part) && up.part.value.JString? && job.PostJob? ==>
              var parsed := parse(Trim(StripFence(Trim(up.part.value.s))));
              parsed.Some? && parsed.value.JObject? ==>
                var f := parsed.value.fields;
                r == TranslatedPost(StringOr(Get(f, "title"), ""), StringOr(Get(f, "excerpt"), ""),
                                    StringOr(Get(f, "content"), ""))
    ensures up.Answer? && Truthy(up.part) && up.part.value.JString? && job.PostJob? ==>
              var parsed := parse(Trim(StripFence(Trim(up.part.value.s))));
              parsed.Some? && !parsed.value.JNull? && !parsed.value.JObject? ==>
                r == TranslatedPost("", "", "")
    ensures up.Answer? && Truthy(up.part) && !up.part.value.JString? ==>
              r == Failed(500, "part.trim is not a function")
    ensures up.NotOk? && (up.status == 401 || up.status == 403) ==> r == Failed(502, KeyRejected)
    ensures up.NotOk? && up.status >= 500 ==> r == Failed(502, Unavailable)
    ensures up.NotOk? && up.status == 429 ==> r == Failed(429, up.quotaMessage.GetOr(QuotaExceeded))
    ensures up.NotOk? && up.status != 401 && up.status != 403 && up.status < 500 && up.status != 429 ==>
              r == Failed(502, ServiceError)
  {
    match up
    case Threw(m) => Failed(500, if m == "" then "Translation failed" else m)
    case NotOk(status, quotaMessage) =>
      var message :=
        if status == 401 || status == 403 then KeyRejected
        else if status >= 500 then Unavailable
        else if status == 429 then quotaMessage.GetOr(QuotaExceeded)
        else ServiceError;
      Failed(if status == 429 then 429 else 502, message)
    case Answer(part) =>
      if !Truthy(part) then Failed(502, "No translation in response")
      else if !part.value.JString? then Failed(500, "part.trim is not a function")
      else
        var translated := Trim(part.value.s);
        if job.PostJob? then
          match parse(Trim(StripFence(translated)))
          case None => TranslatedPost(translated, "", "")
          case Some(parsed) =>
            match PostFields(parsed)
            case Some(fields) => fields
            case None => TranslatedPost(translated, "", "")
        else Translated(translated)
  }

  /** The whole endpoint: a request that fails validation never reaches the
      upstream model. */
  function Translate(apiKey: string, body: Option<Json>, up: Upstream,
                     parse: string -> Option<Json>): (r: Reply)
    ensures Validate(apiKey, body).Some? ==> r == Validate(apiKey, body).value
    ensures Validate(apiKey, body).None? ==> r == Respond(JobOf(body), up, parse)
  {
    match Validate(apiKey, body)
    case Some(failure) => failure
    case None => Respond(JobOf(body), up, parse)
  }
}
