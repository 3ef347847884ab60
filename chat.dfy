/**
 * The text conversation endpoint `chat_api` of coach/views.py: find or
 * start the conversation, hand its history to the chat model in the
 * model's role/parts format, store the new exchange and credit one
 * practice minute.
 */
module Chat {
  import opened Wrappers
  import opened PyJson
  import opened Models
  import opened Responses

  datatype Role = UserRole | ModelRole {
    function Name(): string
    {
      match this
      case UserRole => "user"
      case ModelRole => "model"
    }
  }

  /** `{"role": ..., "parts": [...]}` */
  datatype ChatMessage = ChatMessage(role: Role, parts: seq<Json>)

  /** The reply of the chat model to a message, given the earlier turns. */
  type ChatModel = (seq<ChatMessage>, Json) -> string

  /** The two messages one stored exchange becomes. */
  function TurnMessages(t: Turn): seq<ChatMessage>
  {
    [ChatMessage(UserRole, [t.user]), ChatMessage(ModelRole, [Str(t.ai)])]
  }

  /** The stored history in the chat model's format. */
  function ChatHistory(history: seq<Turn>): seq<ChatMessage>
  {
    if history == [] then []
    else ChatHistory(history[..|history| - 1]) + TurnMessages(history[|history| - 1])
  }

  /**
   * The converted history has two messages per exchange, in order: the
   * user's words with role "user", then the reply with role "model".
   */
  lemma {:induction false} ChatHistoryPositions(history: seq<Turn>)
    ensures |ChatHistory(history)| == 2 * |history|
    ensures forall i :: 0 <= i < |history| ==>
              && ChatHistory(history)[2 * i] == ChatMessage(UserRole, [history[i].user])
              && ChatHistory(history)[2 * i + 1] == ChatMessage(ModelRole, [Str(history[i].ai)])
  {
    if history != [] {
      var n := |history|;
      ChatHistoryPositions(history[..n - 1]);
      assert forall i :: 0 <= i < n - 1 ==> history[..n - 1][i] == history[i];
    }
  }

  /** Reads exchanges back out of messages in the chat model's format. */
  function TurnsOf(msgs: seq<ChatMessage>): Option<seq<Turn>>
  {
    if msgs == [] then Some([])
    else if |msgs| >= 2 && msgs[0].role == UserRole && |msgs[0].parts| == 1
            && msgs[1].role == ModelRole && |msgs[1].parts| == 1 && msgs[1].parts[0].Str? then
      match TurnsOf(msgs[2..])
      case Some(rest) => Some([Turn(msgs[0].parts[0], msgs[1].parts[0].s)] + rest)
      case None => None
    else None
  }

  lemma {:induction false} TurnsOfPositions(msgs: seq<ChatMessage>, history: seq<Turn>)
    requires |msgs| == 2 * |history|
    requires forall i :: 0 <= i < |history| ==>
               && msgs[2 * i] == ChatMessage(UserRole, [history[i].user])
               && msgs[2 * i + 1] == ChatMessage(ModelRole, [Str(history[i].ai)])
    ensures TurnsOf(msgs) == Some(history)
  {
    if history != [] {
      assert msgs[0] == ChatMessage(UserRole, [history[0].user]);
      assert msgs[1] == ChatMessage(ModelRole, [Str(history[0].ai)]);
      forall i | 0 <= i < |history| - 1
        ensures && msgs[2..][2 * i] == ChatMessage(UserRole, [history[1..][i].user])
                && msgs[2..][2 * i + 1] == ChatMessage(ModelRole, [Str(history[1..][i].ai)])
      {
        assert msgs[2..][2 * i] == msgs[2 * (i + 1)];
        assert msgs[2..][2 * i + 1] == msgs[2 * (i + 1) + 1];
      }
      TurnsOfPositions(msgs[2..], history[1..]);
      assert [history[0]] + history[1..] == history;
    }
  }

  /** No exchange is lost or reordered: the history can be read back. */
  lemma ChatHistoryRoundTrip(history: seq<Turn>)
    ensures TurnsOf(ChatHistory(history)) == Some(history)
  {
    ChatHistoryPositions(history);
    TurnsOfPositions(ChatHistory(history), history);
  }

  /** The conversion loop of chat_api. */
  method ToChatHistory(history: seq<Turn>) returns (msgs: seq<ChatMessage>)
    ensures msgs == ChatHistory(history)
  {
    msgs := [];
    for i := 0 to |history|
      invariant msgs == ChatHistory(history[..i])
    {
      assert history[..i + 1][..i] == history[..i];
      msgs := msgs + [ChatMessage(UserRole, [history[i].user])];
      msgs := msgs + [ChatMessage(ModelRole, [Str(history[i].ai)])];
    }
    assert history[..|history|] == history;
  }

  /**
   * `Conversation.objects.get(id=..., user=...)`: the stored conversation
   * with that id that belongs to `user`.
   */
  function FindConversation(conversations: seq<Conversation>, id: int, user: UserId): (r: Option<Conversation>)
    ensures r.Some? ==> r.value in conversations && r.value.id == id && r.value.user == user
    ensures r.None? ==> forall c :: c in conversations ==> !(c.id == id && c.user == user)
  {
    if conversations == [] then None
    else if conversations[0].id == id && conversations[0].user == user then Some(conversations[0])
    else FindConversation(conversations[1..], id, user)
  }

  /** The JSON answer of a successful turn. */
  function TurnResponse(reply: string, conversationId: int): Response
  {
    JsonResponse(200, map["response" := Str(reply), "conversation_id" := Int(conversationId)])
  }

  /**
   * chat_api. `body` is the decoded request body (None when it is not JSON);
   * `conversations` are the stored conversations; a new conversation gets
   * id `newId` and start time `now`; `progress` is the requester's record.
   * Returns the response and the conversation the turn went to, if any.
   */
  method ChatApi(user: UserId, isPost: bool, body: Option<Json>, conversations: seq<Conversation>,
                 newId: int, now: int, progress: UserProgress, model: ChatModel)
    returns (resp: Response, conversation: Conversation?)
    requires progress.user == user
    modifies conversations, progress
    ensures !isPost ==> resp == ErrorResponse("Invalid request")
    ensures isPost && (body.None? || !body.value.Obj?) ==> resp.ServerError?
    // every path that does not answer 200 changes nothing
    ensures !resp.JsonResponse? || resp.status != 200 ==>
              && conversation == null
              && progress.Row() == old(progress.Row())
              && forall c :: c in conversations ==> c.history == old(c.history)
    // an id that names no conversation of this user is a 404
    ensures isPost && body.Some? && body.value.Obj? ==>
              var cid := Get(body.value.fields, "conversation_id", Null);
              Truthy(cid) && PyInt(cid).Ok? && FindConversation(conversations, PyInt(cid).value, user).None?
              ==> resp == JsonResponse(404, map["error" := Str("Conversation not found")])
    // an id that int() rejects re-raises its ValueError or TypeError
    ensures isPost && body.Some? && body.value.Obj? ==>
              var cid := Get(body.value.fields, "conversation_id", Null);
              Truthy(cid) && PyInt(cid).Err? ==> resp == ServerError(PyInt(cid).error)
    // no id, or the id of one of the requester's conversations, always gets an answer
    ensures isPost && body.Some? && body.value.Obj? ==>
              var cid := Get(body.value.fields, "conversation_id", Null);
              (!Truthy(cid) || (PyInt(cid).Ok? && FindConversation(conversations, PyInt(cid).value, user).Some?))
              ==> resp.JsonResponse? && resp.status == 200
    // a successful turn appends exactly one exchange and credits one minute
    ensures resp.JsonResponse? && resp.status == 200 ==>
              && isPost && body.Some? && body.value.Obj?
              && conversation != null && conversation.user == user
              && (var message := Get(body.value.fields, "message", Null);
                  var cid := Get(body.value.fields, "conversation_id", Null);
                  var earlier := if conversation in conversations then old(conversation.history) else [];
                  && conversation.history == earlier + [Turn(message, model(ChatHistory(earlier), message))]
                  && resp == TurnResponse(model(ChatHistory(earlier), message), conversation.id)
                  && (Truthy(cid) ==> PyInt(cid).Ok? && FindConversation(conversations, PyInt(cid).value, user) == Some(conversation))
                  && (!Truthy(cid) ==> fresh(conversation) && conversation.id == newId && conversation.startedAt == now))
              && progress.Row() == old(progress.Row()).(minutes := old(progress.practiceTimeMinutes) + 1)
              && forall c :: c in conversations && c != conversation ==> c.history == old(c.history)
  {
    conversation := null;
    if !isPost {
      return ErrorResponse("Invalid request"), null;
    }
    if body.None? {
      return ServerError("JSONDecodeError"), null;
    }
    if !body.value.Obj? {
      return ServerError("AttributeError"), null;
    }
    var data := body.value.fields;
    var message := Get(data, "message", Null);
    var cid := Get(data, "conversation_id", Null);
    var history: seq<Turn>;
    var target: Conversation;
    if Truthy(cid) {
      var id := PyInt(cid);
      if id.Err? {
        return ServerError(id.error), null;
      }
      var found := FindConversation(conversations, id.value, user);
      if found.None? {
        return JsonResponse(404, map["error" := Str("Conversation not found")]), null;
      }
      target := found.value;
      history := target.history;
    } else {
      target := new Conversation(newId, user, now);
      history := [];
    }
    var chatHistory := ToChatHistory(history);
    var reply := model(chatHistory, message);
    history := history + [Turn(message, reply)];
    target.history := history;
    progress.practiceTimeMinutes := progress.practiceTimeMinutes + 1;
    resp := TurnResponse(reply, target.id);
    conversation := target;
  }
}
