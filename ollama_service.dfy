/** The client for a local Ollama server: base-URL normalisation, request URL
    construction, the model list (with its fixed fallback), content extraction
    from a chat reply and the human-readable model size. HTTP traffic is
    replaced by the decoded response each operation receives. */
module OllamaClient {
  import Text
  import opened Wrappers

  const DefaultTimeout: real := 30.0
  const Suffixes: seq<string> := ["B", "KB", "MB", "GB", "TB"]
  const NoContentError: string := "Ollama response did not include content"
  const UnreachableError: string := "Unable to reach Ollama. Is it running?"

  // ---------------------------------------------------------------------------
  // URLs

  predicate IsSlash(c: char)
  {
    c == '/'
  }

  /** `base_url.rstrip("/")`: the longest prefix of `base` that does not end
      with '/'; everything dropped is '/'. */
  function NormalizedBaseUrl(base: string): (r: string)
    ensures |r| <= |base| && r == base[..|r|]
    ensures |r| > 0 ==> r[|r| - 1] != '/'
    ensures forall i :: |r| <= i < |base| ==> base[i] == '/'
  {
    Text.TrimEnd(base, IsSlash)
  }

  /** Normalising an already normalised URL changes nothing. */
  lemma NormalizeIdempotent(base: string)
    ensures NormalizedBaseUrl(NormalizedBaseUrl(base)) == NormalizedBaseUrl(base)
  {
  }

  /** `f"{base_url}{path}"`: the base followed by the path. */
  function JoinUrl(base: string, path: string): (url: string)
    ensures |url| == |base| + |path|
    ensures url[..|base|] == base && url[|base|..] == path
  {
    base + path
  }

  /** With a normalised base and a path starting with '/', the seam holds
      exactly one slash: the base's last character is not '/'. */
  lemma SingleSlashAtSeam(base: string, path: string)
    requires |path| > 0 && path[0] == '/'
    ensures var b := NormalizedBaseUrl(base);
      var url := JoinUrl(b, path);
      url[|b|] == '/' && (|b| > 0 ==> url[|b| - 1] != '/')
  {
    var b := NormalizedBaseUrl(base);
    assert JoinUrl(b, path)[|b|] == path[0];
  }

  /** The client's configuration. */
  class OllamaService {
    var baseUrl: string
    var timeout: real

    /** `__init__`: stores the base URL without trailing slashes. */
    constructor (base: string, timeout: real)
      ensures baseUrl == NormalizedBaseUrl(base) && this.timeout == timeout
    {
      baseUrl := NormalizedBaseUrl(base);
      this.timeout := timeout;
    }

    /** The URL `_request` sends to for `path`. */
    function RequestUrl(path: string): (url: string)
      reads this
      ensures |url| == |baseUrl| + |path|
      ensures url[..|baseUrl|] == baseUrl && url[|baseUrl|..] == path
    {
      JoinUrl(baseUrl, path)
    }
  }

  // ---------------------------------------------------------------------------
  // Sizes

  /** 1024 to the power `k`. */
  function Pow1024(k: nat): (r: real)
    ensures r >= 1.0
  {
    if k == 0 then 1.0 else 1024.0 * Pow1024(k - 1)
  }

  /** The scaling loop of `_humanize_size` as a function of (size, unit index):
      divide by 1024 while the size is at least 1024 and the index is below the
      TB cap. It ends at an index in `idx..4` with the size under 1024 unless
      capped, the original size equal to the result times a power of 1024, and
      a size of at least 1 whenever it divided at all. */
  function ScaleDown(size: real, idx: nat): (r: (real, nat))
    requires size > 0.0 && idx <= 4
    ensures idx <= r.1 <= 4
    ensures r.0 > 0.0 && r.0 * Pow1024(r.1 - idx) == size
    ensures r.0 < 1024.0 || r.1 == 4
    ensures r.1 > idx ==> r.0 >= 1.0
    ensures r.1 == idx <==> !(size >= 1024.0 && idx < 4)
    decreases 4 - idx
  {
    if size >= 1024.0 && idx < 4 then
      var r := ScaleDown(size / 1024.0, idx + 1);
      ScaleStep(size, idx, r);
      r
    else (size, idx)
  }

  /** What the scaling loop promises after one division by 1024, it promises
      before it. */
  lemma ScaleStep(size: real, idx: nat, r: (real, nat))
    requires size >= 1024.0 && idx < 4
    requires idx + 1 <= r.1 <= 4
    requires r.0 > 0.0 && r.0 * Pow1024(r.1 - (idx + 1)) == size / 1024.0
    requires r.1 > idx + 1 ==> r.0 >= 1.0
    ensures r.0 * Pow1024(r.1 - idx) == size
    ensures r.0 >= 1.0
  {
    PowerStep(r.0, r.1 - (idx + 1), size);
    if r.1 == idx + 1 {
      assert r.0 == size / 1024.0;
    }
  }

  /** One more factor of 1024 undoes one division by 1024. */
  lemma PowerStep(x: real, k: nat, size: real)
    requires x * Pow1024(k) == size / 1024.0
    ensures x * Pow1024(k + 1) == size
  {
    assert x * Pow1024(k + 1) == 1024.0 * (x * Pow1024(k));
  }

  /** A model size before text formatting: whole bytes, or an amount with a
      unit index 1..4 into KB, MB, GB, TB. */
  datatype SizeLabel = Bytes(whole: nat) | Scaled(amount: real, unit: nat)

  /** What `_humanize_size` prints for a numeric size: "0B" for any size up to
      0; below 1024 the truncated whole number of bytes; from 1024 on, the size
      in the largest unit (up to TB) that leaves an amount of at least 1. */
  function HumanizedSize(value: real): (r: SizeLabel)
    ensures value <= 0.0 ==> r == Bytes(0)
    ensures 0.0 < value < 1024.0 ==> r == Bytes(value.Floor as nat)
    ensures value >= 1024.0 ==>
      && r.Scaled? && 1 <= r.unit <= 4
      && 1.0 <= r.amount && (r.amount < 1024.0 || r.unit == 4)
      && r.amount * Pow1024(r.unit) == value
  {
    if value <= 0.0 then Bytes(0)
    else
      var (size, idx) := ScaleDown(value, 0);
      if idx == 0 then Bytes(size.Floor as nat) else Scaled(size, idx)
  }

  /** `_humanize_size` on a number, as the loop that divides in place. */
  method HumanizeSize(value: real) returns (result: SizeLabel)
    ensures result == HumanizedSize(value)
  {
    if value <= 0.0 {
      return Bytes(0);
    }
    var size := value;
    var idx: nat := 0;
    while size >= 1024.0 && idx < |Suffixes| - 1
      invariant 0 <= idx <= 4 && size > 0.0
      invariant ScaleDown(size, idx) == ScaleDown(value, 0)
      decreases 4 - idx
    {
      size := size / 1024.0;
      idx := idx + 1;
    }
    if Suffixes[idx] == "B" {
      result := Bytes(size.Floor as nat);
    } else {
      result := Scaled(size, idx);
    }
  }

  /** The decimal digits of `n`, most significant first. */
  function DecimalDigits(n: nat): (s: string)
    ensures |s| >= 1
    ensures forall i :: 0 <= i < |s| ==> '0' <= s[i] <= '9'
    ensures n > 0 ==> s[0] != '0'
  {
    if n < 10 then [('0' as int + n) as char]
    else DecimalDigits(n / 10) + [('0' as int + n % 10) as char]
  }

  /** The number a string of decimal digits denotes. */
  function DecimalValue(s: string): nat
    requires forall i :: 0 <= i < |s| ==> '0' <= s[i] <= '9'
  {
    if s == [] then 0 else 10 * DecimalValue(s[..|s| - 1]) + (s[|s| - 1] as int - '0' as int)
  }

  /** Reading the printed digits back gives the number. */
  lemma {:induction false} DecimalRoundTrip(n: nat)
    ensures DecimalValue(DecimalDigits(n)) == n
  {
    if n >= 10 {
      DecimalRoundTrip(n / 10);
      var s := DecimalDigits(n);
      assert s[..|s| - 1] == DecimalDigits(n / 10);
    }
  }

  /** `f"{int(size)}B"` for a byte label. */
  function BytesText(whole: nat): (t: string)
    ensures |t| >= 2 && t[|t| - 1] == 'B'
    ensures t[..|t| - 1] == DecimalDigits(whole)
    ensures DecimalValue(t[..|t| - 1]) == whole
  {
    DecimalRoundTrip(whole);
    var t := DecimalDigits(whole) + "B";
    assert t[..|t| - 1] == DecimalDigits(whole);
    t
  }

  /** Zero, negative and sub-byte sizes all print as "0B". */
  lemma SmallSizesPrintZero(value: real)
    requires value < 1.0
    ensures HumanizedSize(value) == Bytes(0) && BytesText(0) == "0B"
  {
  }

  // ---------------------------------------------------------------------------
  // Model list

  /** One entry of the `models` array; each field may be missing. */
  datatype ModelEntry = ModelEntry(name: Option<string>, size: Option<real>, modifiedAt: Option<string>)

  /** The `models` field of the tags payload. */
  datatype ModelsField = MissingModels | ModelList(entries: seq<ModelEntry>) | NotAList

  /** How the tags request ended: an HTTP error, a body that is not JSON, a
      JSON object, or other JSON. */
  datatype TagsResponse = TagsHttpError | TagsInvalidJson | TagsObject(models: ModelsField) | TagsNotObject

  /** A listed model's size: humanised from the payload, or fixed text. */
  datatype SizeField = Humanized(sizeLabel: SizeLabel) | FixedSize(text: string)

  datatype ModelInfo = ModelInfo(name: string, size: SizeField, modifiedAt: Option<string>)

  /** The list returned, or an exception that escapes `list_models`. */
  datatype ListResult = Models(models: seq<ModelInfo>) | ListRaised

  const FallbackModels: seq<ModelInfo> := [
    ModelInfo("llama2", FixedSize("7B"), Some("2025-12-01T10:00:00")),
    ModelInfo("codellama", FixedSize("7B"), Some("2025-12-10T15:30:00"))
  ]

  /** One listed model: name defaults to "unknown", size to 0. */
  function DescribeModel(m: ModelEntry): (info: ModelInfo)
    ensures info.name == m.name.GetOr("unknown")
    ensures info.size == Humanized(HumanizedSize(m.size.GetOr(0.0)))
    ensures m.size.None? ==> info.size == Humanized(Bytes(0))
    ensures info.modifiedAt == m.modifiedAt
  {
    ModelInfo(m.name.GetOr("unknown"), Humanized(HumanizedSize(m.size.GetOr(0.0))), m.modifiedAt)
  }

  /** `list_models`: an HTTP error, a body that is not JSON or a `models` value
      that is not a list yields the two fallback models; a missing `models`
      field yields no models; a list is described entry by entry in order; a
      JSON body that is not an object raises. */
  function ListModels(response: TagsResponse): (r: ListResult)
    ensures response == TagsHttpError || response == TagsInvalidJson || response == TagsObject(NotAList) ==>
      r == Models(FallbackModels)
    ensures response == TagsObject(MissingModels) ==> r == Models([])
    ensures response.TagsObject? && response.models.ModelList? ==>
      && r.Models? && |r.models| == |response.models.entries|
      && forall i :: 0 <= i < |r.models| ==> r.models[i] == DescribeModel(response.models.entries[i])
    ensures r == ListRaised <==> response == TagsNotObject
  {
    match response
    case TagsHttpError => Models(FallbackModels)
    case TagsInvalidJson => Models(FallbackModels)
    case TagsNotObject => ListRaised
    case TagsObject(MissingModels) => Models([])
    case TagsObject(NotAList) => Models(FallbackModels)
    case TagsObject(ModelList(entries)) =>
      Models(seq(|entries|, i requires 0 <= i < |entries| => DescribeModel(entries[i])))
  }

  /** The list is empty only when the server reported no models: the fallback
      is never empty, and a described list is as long as the server's. */
  lemma EmptyListMeansNoModels(response: TagsResponse)
    requires ListModels(response) == Models([])
    ensures response == TagsObject(MissingModels) || response == TagsObject(ModelList([]))
  {
  }

  // ---------------------------------------------------------------------------
  // Chat

  datatype ChatTurn = ChatTurn(role: string, content: string)

  /** The body posted to `/api/chat`. */
  datatype ChatPayload = ChatPayload(model: string, messages: seq<ChatTurn>, stream: bool)

  /** The `message` field of a chat reply: missing, an object with an optional
      `content`, or something else (null, a string, …). */
  datatype MessageField = NoMessage | MessageObject(content: Option<string>) | MessageNotObject

  datatype ChatData = ChatData(message: MessageField, response: Option<string>)

  /** How the chat request ended. */
  datatype ChatResponse = ChatHttpError | ChatInvalidJson | ChatObject(data: ChatData) | ChatNotObject

  /** The reply text, a service error with its message, or another exception
      escaping `chat`. */
  datatype ChatResult = Reply(text: string) | ServiceError(message: string) | ChatRaised

  /** `chat`'s request body: the model, one user turn with the message, and the stream flag. */
  function ChatRequest(message: string, model: string, stream: bool): (p: ChatPayload)
    ensures p.model == model && p.stream == stream
    ensures p.messages == [ChatTurn("user", message)]
  {
    ChatPayload(model, [ChatTurn("user", message)], stream)
  }

  predicate NonEmpty(s: Option<string>)
  {
    s.Some? && s.value != ""
  }

  /** `data.get("message", {}).get("content") or data.get("response")`. */
  function RawContent(data: ChatData): (c: Option<string>)
    requires !data.message.MessageNotObject?
    ensures data.message.MessageObject? && NonEmpty(data.message.content) ==> c == data.message.content
    ensures !(data.message.MessageObject? && NonEmpty(data.message.content)) ==> c == data.response
  {
    var content := if data.message.MessageObject? then data.message.content else None;
    if NonEmpty(content) then content else data.response
  }

  /** Content extraction in `chat`: a non-empty message content wins, else the
      `response` field; when neither is non-empty the service error is raised;
      the chosen text is returned stripped of white space. A `message` that is
      not an object raises. */
  function ExtractContent(data: ChatData): (r: ChatResult)
    ensures r == ChatRaised <==> data.message.MessageNotObject?
    ensures data.message.MessageObject? && NonEmpty(data.message.content) ==>
      r == Reply(Text.Trim(data.message.content.value, Text.IsPySpace))
    ensures !data.message.MessageNotObject? && !(data.message.MessageObject? && NonEmpty(data.message.content)) ==>
      r == (if NonEmpty(data.response) then Reply(Text.Trim(data.response.value, Text.IsPySpace))
            else ServiceError(NoContentError))
  {
    if data.message.MessageNotObject? then ChatRaised
    else
      var content := RawContent(data);
      if !NonEmpty(content) then ServiceError(NoContentError)
      else Reply(Text.Trim(content.value, Text.IsPySpace))
  }

  /** A reply is the chosen content with only white space cut from its two
      ends, and no white space left at either end. */
  lemma ReplyIsTrimmedContent(data: ChatData)
    requires ExtractContent(data).Reply?
    ensures var text := ExtractContent(data).text;
      && (|text| > 0 ==> !Text.IsPySpace(text[0]) && !Text.IsPySpace(text[|text| - 1]))
      && Text.Contains(RawContent(data).value, text)
      && Text.DropsOnlySpace(RawContent(data).value, text, Text.IsPySpace)
  {
  }

  /** Content that is only white space is not rejected and does not fall back
      to `response`: the reply is the empty string. */
  lemma BlankContentRepliesEmpty(response: Option<string>)
    ensures ExtractContent(ChatData(MessageObject(Some(" ")), response)) == Reply("")
  {
    assert forall i :: 0 <= i < |" "| ==> Text.IsPySpace(" "[i]);
  }

  /** `chat` given how the request ended: an HTTP error becomes the
      "unreachable" service error; a body that is not a JSON object raises. */
  function Chat(response: ChatResponse): (r: ChatResult)
    ensures response == ChatHttpError ==> r == ServiceError(UnreachableError)
    ensures response == ChatInvalidJson || response == ChatNotObject ==> r == ChatRaised
    ensures response.ChatObject? ==> r == ExtractContent(response.data)
    ensures r.ServiceError? ==> r.message == UnreachableError || r.message == NoContentError
  {
    match response
    case ChatHttpError => ServiceError(UnreachableError)
    case ChatInvalidJson => ChatRaised
    case ChatNotObject => ChatRaised
    case ChatObject(data) => ExtractContent(data)
  }
}
