/** The "Ask Synapse" chat panel: an append-only message log, the query being
    typed and a loading flag, driven by submitting a query and by the reply
    (or the failure) of the knowledge-query request. */
module AIChat {
  import Text
  import opened Wrappers

  datatype Role = User | Assistant

  /** A knowledge-base match returned with an answer. */
  datatype Match = Match(preview: string, source: Option<string>)

  /** A chat message. `sources` is empty for user messages and error replies,
      which carry no sources (the panel treats absent and empty alike). */
  datatype Message = Message(role: Role, content: string, sources: seq<Match>, isError: bool)

  /** The body posted to the knowledge-query endpoint. */
  datatype QueryRequest = QueryRequest(query: string, topK: int)

  /** How the knowledge query settled: an answer with optional matches, or a failure. */
  datatype QueryReply = Answered(summary: string, topMatches: Option<seq<Match>>) | QueryFailed

  const TopK: int := 5
  const ErrorText: string := "Sorry, I encountered an error processing your query. Please try again."

  /** The assistant message that a settled query appends. */
  function ReplyMessage(reply: QueryReply): (m: Message)
    ensures m.role == Assistant
    ensures reply.Answered? ==>
      m.content == reply.summary && !m.isError && m.sources == reply.topMatches.GetOr([])
    ensures reply.QueryFailed? ==> m.content == ErrorText && m.isError && m.sources == []
  {
    match reply
    case Answered(summary, matches) => Message(Assistant, summary, matches.GetOr([]), false)
    case QueryFailed => Message(Assistant, ErrorText, [], true)
  }

  /** The panel's state. */
  class ChatSession {
    var query: string
    var messages: seq<Message>
    var loading: bool

    constructor ()
      ensures query == "" && messages == [] && !loading
    {
      query := "";
      messages := [];
      loading := false;
    }

    /** Typing (or picking a suggestion) replaces the query. */
    method SetQuery(text: string)
      modifies this`query
      ensures query == text
    {
      query := text;
    }

    /** The text input is disabled while a query is in flight. */
    predicate InputDisabled()
      reads this
      ensures InputDisabled() <==> loading
      ensures InputDisabled() ==> SendDisabled()
    {
      loading
    }

    /** `loading || !query.trim()`: the send button is enabled exactly when
        nothing is in flight and the query has a character that is not white
        space. */
    predicate SendDisabled()
      reads this
      ensures !SendDisabled() ==> !loading && exists i :: 0 <= i < |query| && !Text.IsJsSpace(query[i])
      ensures loading ==> SendDisabled()
      ensures SendDisabled() <==> loading || Text.Trim(query, Text.IsJsSpace) == []
    {
      Text.BlankTrimsToEmpty(query);
      loading || Text.IsBlank(query)
    }

    /** The synchronous part of `handleSubmit`: a blank query changes nothing
        and sends nothing; otherwise the user message (the untrimmed query) is
        appended, the query is cleared, loading starts, and the original query
        is sent with `top_k = 5`. */
    method Submit() returns (request: Option<QueryRequest>)
      modifies this
      ensures Text.IsBlank(old(query)) ==>
        request == None && query == old(query) && messages == old(messages) && loading == old(loading)
      ensures !Text.IsBlank(old(query)) ==>
        && request == Some(QueryRequest(old(query), TopK))
        && messages == old(messages) + [Message(User, old(query), [], false)]
        && query == ""
        && loading
    {
      if Text.IsBlank(query) {
        request := None;
      } else {
        var sent := query;
        messages := messages + [Message(User, sent, [], false)];
        query := "";
        loading := true;
        request := Some(QueryRequest(sent, TopK));
      }
    }

    /** The part of `handleSubmit` after the request settles: one assistant
        message is appended and loading ends. */
    method Settle(reply: QueryReply)
      modifies this`messages, this`loading
      ensures messages == old(messages) + [ReplyMessage(reply)]
      ensures !loading
    {
      messages := messages + [ReplyMessage(reply)];
      loading := false;
    }

    /** One whole `handleSubmit`, with the request's settlement as input: a
        blank query changes nothing; otherwise exactly two messages are appended
        (the query, then the reply), earlier messages are untouched, the query
        is cleared and loading is off again. */
    method HandleSubmit(reply: QueryReply) returns (request: Option<QueryRequest>)
      modifies this
      ensures Text.IsBlank(old(query)) ==>
        request == None && query == old(query) && messages == old(messages) && loading == old(loading)
      ensures !Text.IsBlank(old(query)) ==>
        && request == Some(QueryRequest(old(query), TopK))
        && messages == old(messages) + [Message(User, old(query), [], false), ReplyMessage(reply)]
        && query == ""
        && !loading
      ensures messages[..|old(messages)|] == old(messages)
    {
      ghost var before := messages;
      request := Submit();
      if request.Some? {
        Settle(reply);
        assert messages == before + [Message(User, old(query), [], false), ReplyMessage(reply)];
      }
      assert messages[..|before|] == before;
    }
  }
}
