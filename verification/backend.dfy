/**
 * The backend's `POST /diagnose`: the API-key check, the choice between
 * text-only and image-plus-text content, the call to the model, the fence
 * strip and JSON parse of its reply, and the mapping of every failure to an
 * HTTP status. The model client and `json.loads` are parameters.
 */
module Backend {
  import opened Wrappers
  import opened Wire
  import Fence

  const PROMPT_PREFIX: string := "Diagnose this home repair issue: "
  const MAX_DETAIL: nat := 500
  const NO_KEY_DETAIL: string := "ANTHROPIC_API_KEY not configured"
  const PARSE_PREFIX: string := "Failed to parse AI response: "
  const AI_ERROR_PREFIX: string := "AI service error: "
  const UNEXPECTED_PREFIX: string := "Unexpected error: "

  /** The user message sent to the model. */
  datatype Content =
    | TextOnly(text: string)
    | ImageAndText(mediaType: string, data: string, text: string)

  /** One block of the model's reply; only text blocks have a `text` attribute. */
  datatype Block = TextBlock(text: string) | OtherBlock

  /** How `messages.create` ended: a reply, an `anthropic.APIError`, or another exception. */
  datatype AiOutcome =
    | Reply(content: seq<Block>)
    | ApiError(message: string)
    | ClientFailure(message: string)

  /** `json.loads`: a value, or `JSONDecodeError`. */
  datatype Parsed = Parsed(value: Json) | DecodeError

  /** Exceptions raised by the handler's own code after the reply arrives. */
  datatype Fault =
    | EmptyContent      // `content[0]` on an empty list
    | NoTextAttribute   // the first block is not a text block
    | NotAMapping       // `**result` on a non-object
    | InvalidFields     // the response model rejects the object

  datatype Response = Ok(result: DiagnosisResult) | HttpError(status: int, detail: string)

  /** Python truthiness of an optional string: present and non-empty. */
  predicate Truthy(o: Option<string>) {
    o.Some? && o.value != []
  }

  /** Python's `s[:n]`. */
  function Take(s: string, n: nat): (r: string)
    ensures |r| <= n && r <= s
    ensures |s| <= n ==> r == s
  {
    if |s| <= n then s else s[..n]
  }

  /** The user message: the image block only when both image fields are truthy. */
  function BuildContent(req: DiagnosisRequest): (c: Content)
    ensures c.ImageAndText? <==> Truthy(req.imageBase64) && Truthy(req.imageMediaType)
    ensures c.text == PROMPT_PREFIX + req.description
    ensures c.ImageAndText? ==> c.mediaType == req.imageMediaType.value && c.data == req.imageBase64.value
  {
    var text := PROMPT_PREFIX + req.description;
    if Truthy(req.imageBase64) && Truthy(req.imageMediaType) then
      ImageAndText(req.imageMediaType.value, req.imageBase64.value, text)
    else
      TextOnly(text)
  }

  /** The handler after the key check: reply text, strip, parse, validate. */
  function Answer(outcome: AiOutcome, parse: string -> Parsed, describe: Fault -> string): (r: Response)
    ensures r.HttpError? ==> r.status == 500 || r.status == 502
  {
    match outcome
    case ApiError(m) => HttpError(502, AI_ERROR_PREFIX + m)
    case ClientFailure(m) => HttpError(500, UNEXPECTED_PREFIX + m)
    case Reply(blocks) =>
      if blocks == [] then HttpError(500, UNEXPECTED_PREFIX + describe(EmptyContent))
      else if !blocks[0].TextBlock? then HttpError(500, UNEXPECTED_PREFIX + describe(NoTextAttribute))
      else
        var text := Fence.Strip(blocks[0].text);
        match parse(text)
        case DecodeError => HttpError(502, PARSE_PREFIX + Take(text, MAX_DETAIL))
        case Parsed(j) =>
          if !j.JObj? then HttpError(500, UNEXPECTED_PREFIX + describe(NotAMapping))
          else
            match DecodeResult(j)
            case None => HttpError(500, UNEXPECTED_PREFIX + describe(InvalidFields))
            case Some(res) => Ok(res)
  }

  /** `diagnose(request)` with the environment's key and the model client `ai`. */
  function Diagnose(apiKey: Option<string>, req: DiagnosisRequest, ai: Content -> AiOutcome,
                    parse: string -> Parsed, describe: Fault -> string): (r: Response)
    ensures !Truthy(apiKey) ==> r == HttpError(500, NO_KEY_DETAIL)
    ensures Truthy(apiKey) ==> r == Answer(ai(BuildContent(req)), parse, describe)
  {
    if !Truthy(apiKey) then HttpError(500, NO_KEY_DETAIL)
    else Answer(ai(BuildContent(req)), parse, describe)
  }

  /** The reply's stripped text, when the reply has a text block first. */
  function ReplyText(outcome: AiOutcome): Option<string> {
    if outcome.Reply? && |outcome.content| > 0 && outcome.content[0].TextBlock?
    then Some(Fence.Strip(outcome.content[0].text))
    else None
  }

  /** Without a key the answer is 500 whatever the model client would do: it is never called. */
  lemma MissingKeyNeverCallsAi(apiKey: Option<string>, req: DiagnosisRequest,
                               ai1: Content -> AiOutcome, ai2: Content -> AiOutcome,
                               parse: string -> Parsed, describe: Fault -> string)
    requires !Truthy(apiKey)
    ensures Diagnose(apiKey, req, ai1, parse, describe) == Diagnose(apiKey, req, ai2, parse, describe)
    ensures Diagnose(apiKey, req, ai1, parse, describe).HttpError?
    ensures Diagnose(apiKey, req, ai1, parse, describe).status == 500
  {
  }

  /**
   * Status 502 exactly for an `APIError` and for a reply whose stripped text
   * does not parse; every other failure, missing fields included, is 500.
   */
  lemma BadGatewayExactly(outcome: AiOutcome, parse: string -> Parsed, describe: Fault -> string)
    ensures var r := Answer(outcome, parse, describe);
            (r.HttpError? && r.status == 502)
            <==> (outcome.ApiError? || (ReplyText(outcome).Some? && parse(ReplyText(outcome).value).DecodeError?))
  {
  }

  /** A reply that does not parse is reported with at most 500 characters of the stripped text. */
  lemma ParseFailureDetail(outcome: AiOutcome, parse: string -> Parsed, describe: Fault -> string)
    requires ReplyText(outcome).Some? && parse(ReplyText(outcome).value).DecodeError?
    ensures var r := Answer(outcome, parse, describe);
            && r.HttpError? && r.status == 502
            && r.detail[..|PARSE_PREFIX|] == PARSE_PREFIX
            && |r.detail| <= |PARSE_PREFIX| + MAX_DETAIL
            && r.detail[|PARSE_PREFIX|..] <= ReplyText(outcome).value
  {
  }

  /**
   * A reply whose stripped text parses to the JSON of a result is answered
   * with that result, and one that omits `category` gets "general".
   */
  lemma EncodedReplyAnswers(outcome: AiOutcome, parse: string -> Parsed, describe: Fault -> string, res: DiagnosisResult)
    requires ReplyText(outcome).Some?
    ensures parse(ReplyText(outcome).value) == Parsed(EncodeResult(res))
            ==> Answer(outcome, parse, describe) == Ok(res)
    ensures parse(ReplyText(outcome).value) == Parsed(JObj(EncodeResult(res).fields - {KEY_CATEGORY}))
            ==> Answer(outcome, parse, describe) == Ok(res.(category := DEFAULT_CATEGORY))
  {
    ResultRoundTrip(res);
    MissingCategoryIsGeneral(res);
  }

  /** A non-empty media type without image data, or the reverse, gives text-only content. */
  lemma OneImageFieldIsTextOnly(req: DiagnosisRequest)
    requires !Truthy(req.imageBase64) || !Truthy(req.imageMediaType)
    ensures BuildContent(req) == TextOnly(PROMPT_PREFIX + req.description)
  {
  }
}
