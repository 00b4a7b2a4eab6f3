/**
 * The chat endpoints: session creation with a derived display name and a
 * first user message, appending a user message, editing a user message (which
 * rewinds the conversation to it), deleting a message or a session, listing a
 * session's messages page by page, and the mapping from stored rows to the
 * prompt history handed to the model.
 *
 * Identifiers (uuid4) and creation times (the database clock) are inputs: each
 * method is given fresh ids and a clock reading no earlier than any stored
 * row. The agent and LLM tables are a map from agent id to the agent's name,
 * system prompt and LLM configuration. The model's answer comes from
 * `Inference.Generate` with the model invocation as an oracle.
 */
module ChatApi {
  import opened Wrappers
  import opened Text
  import opened ChatRecords
  import opened Inference
  import McpTool

  /** The user recorded on rows when the request names none. */
  const SystemUser: string := "SYSTEM"

  /** `get_username`: the `x-username` header, or "SYSTEM" when it is absent or empty. */
  function GetUsername(header: Option<string>): (user: string)
    ensures user != ""
    ensures header.Some? && header.value != "" ==> user == header.value
    ensures header.None? || header.value == "" ==> user == SystemUser
  {
    if header.Some? && header.value != "" then header.value else SystemUser
  }

  const Ellipsis: string := "..."

  /**
   * The session name as the source derives it: the first 240 characters of the
   * message, stripped, with "..." appended when the message is longer.
   */
  function ChatName(content: string): (name: string)
    ensures |name| <= NameWidth + |Ellipsis|
    ensures |content| <= NameWidth ==> name == Strip(content)
    ensures |content| > NameWidth ==> name == Strip(content[..NameWidth]) + Ellipsis
  {
    var head := Strip(content[..if |content| < NameWidth then |content| else NameWidth]);
    if |content| > NameWidth then
      assert (head + Ellipsis)[|head|..] == Ellipsis;
      head + Ellipsis
    else
      assert content[..|content|] == content;
      head
  }

  /** A 241-character message without surrounding whitespace gets a 243-character name, wider than the column. */
  lemma ChatNameOfLong(content: string)
    requires |content| > NameWidth && IsStripped(content[..NameWidth])
    ensures |ChatName(content)| == NameWidth + |Ellipsis|
  {
    StripOfStripped(content[..NameWidth]);
  }

  lemma ChatNameOverflows()
    ensures var long: string := seq(NameWidth + 1, _ => 'a'); |ChatName(long)| == NameWidth + |Ellipsis| > NameWidth
  {
    var long: string := seq(NameWidth + 1, _ => 'a');
    assert long[..NameWidth][0] == 'a' && long[..NameWidth][NameWidth - 1] == 'a';
    ChatNameOfLong(long);
  }

  /**
   * The session name the store records: as `ChatName` for messages that fit
   * the column; a longer message is cut short enough that the stripped head
   * and "..." together still fit.
   */
  function SessionName(content: string): (name: string)
    ensures |name| <= NameWidth
    ensures |content| <= NameWidth ==> name == ChatName(content)
    ensures |content| > NameWidth ==> name == Strip(content[..NameWidth - |Ellipsis|]) + Ellipsis
  {
    if |content| > NameWidth then
      var head := Strip(content[..NameWidth - |Ellipsis|]);
      assert (head + Ellipsis)[..|head|] == head;
      head + Ellipsis
    else Strip(content)
  }

  /** An agent row with the LLM row it points to, if that row exists. */
  datatype LlmConfig = LlmConfig(
    provider: string,
    model: string,
    apiKey: Option<string>,
    baseUrl: Option<string>,
    proxyRequired: bool,
    streaming: bool)

  datatype Agent = Agent(name: string, systemPrompt: string, llm: Option<LlmConfig>)

  /** The prompt an agent's system prompt contributes: itself when it is non-empty, otherwise nothing. */
  function SystemPart(systemPrompt: string): seq<Prompt> {
    if systemPrompt != "" then [SystemPrompt(systemPrompt)] else []
  }

  /** The prompt a stored row turns into; roles other than these four are dropped. */
  function RolePrompt(m: ChatMessage): Option<Prompt> {
    if m.role == "user" then Some(HumanPrompt(m.content))
    else if m.role == "assistant" then Some(AiPrompt(m.content))
    else if m.role == "system" then Some(SystemPrompt(m.content))
    else if m.role == "tool" then Some(ToolPrompt(m.content, ""))
    else None
  }

  function Mapped(ms: seq<ChatMessage>): seq<Prompt> {
    if ms == [] then []
    else (if RolePrompt(ms[0]).Some? then [RolePrompt(ms[0]).value] else []) + Mapped(ms[1..])
  }

  /** The prompt history: the agent's system prompt, then the session's rows in order. */
  function PromptHistory(systemPrompt: string, ms: seq<ChatMessage>): (ps: seq<Prompt>)
    ensures |ps| <= |ms| + 1
    ensures systemPrompt != "" ==> |ps| > 0 && ps[0] == SystemPrompt(systemPrompt) && ps[1..] == Mapped(ms)
    ensures systemPrompt == "" ==> ps == Mapped(ms)
  {
    MappedLength(ms);
    SystemPart(systemPrompt) + Mapped(ms)
  }

  lemma MappedLength(ms: seq<ChatMessage>)
    ensures |Mapped(ms)| <= |ms|
  {
  }

  /** Mapping preserves the order of the rows: the history of a split table is the two histories joined. */
  lemma {:induction false} MappedAppend(a: seq<ChatMessage>, b: seq<ChatMessage>)
    ensures Mapped(a + b) == Mapped(a) + Mapped(b)
  {
    if a == [] {
      assert a + b == b;
    } else {
      var h := if RolePrompt(a[0]).Some? then [RolePrompt(a[0]).value] else [];
      assert (a + b)[0] == a[0];
      assert (a + b)[1..] == a[1..] + b;
      assert Mapped(a + b) == h + Mapped(a[1..] + b);
      MappedAppend(a[1..], b);
    }
  }

  /**
   * Each prompt comes from a stored row with the matching role and the same
   * content, and each row with a recognised role contributes its prompt.
   */
  lemma {:induction false} MappedFaithful(ms: seq<ChatMessage>)
    ensures forall p :: p in Mapped(ms) ==> exists m :: m in ms && RolePrompt(m) == Some(p)
    ensures forall m :: m in ms && RolePrompt(m).Some? ==> RolePrompt(m).value in Mapped(ms)
  {
    if ms != [] {
      MappedFaithful(ms[1..]);
      forall p | p in Mapped(ms)
        ensures exists m :: m in ms && RolePrompt(m) == Some(p)
      {
        if RolePrompt(ms[0]).Some? && p == RolePrompt(ms[0]).value {
          assert ms[0] in ms;
        } else {
          assert p in Mapped(ms[1..]);
          var m :| m in ms[1..] && RolePrompt(m) == Some(p);
          assert m in ms;
        }
      }
      forall m | m in ms && RolePrompt(m).Some?
        ensures RolePrompt(m).value in Mapped(ms)
      {
        if m != ms[0] {
          var j :| 0 <= j < |ms| && ms[j] == m;
          assert m in ms[1..] by { assert ms[1..][j - 1] == m; }
        }
      }
    }
  }

  /**
   * A row stored as "tool_input" or "tool_response" (the tool roles the CHECK
   * constraint admits) is dropped from the history.
   */
  lemma ToolRowsDropped(a: seq<ChatMessage>, m: ChatMessage, b: seq<ChatMessage>)
    requires m.role == "tool_input" || m.role == "tool_response"
    ensures Mapped(a + [m] + b) == Mapped(a + b)
  {
    MappedAppend(a + [m], b);
    MappedAppend(a, [m]);
    MappedAppend(a, b);
    assert Mapped([m]) == [] by {
      assert [m][1..] == [];
    }
  }

  /** A store whose rows obey the role constraint never yields a tool message. */
  lemma NoToolPrompts(systemPrompt: string, ms: seq<ChatMessage>)
    requires forall m :: m in ms ==> m.role in Roles
    ensures forall p :: p in PromptHistory(systemPrompt, ms) ==> !p.ToolPrompt?
  {
    MappedFaithful(ms);
    forall p | p in PromptHistory(systemPrompt, ms)
      ensures !p.ToolPrompt?
    {
      if p !in SystemPart(systemPrompt) {
        assert p in Mapped(ms);
        var m :| m in ms && RolePrompt(m) == Some(p);
      }
    }
  }

  /** The oracle standing in for tool loading; chat turns pass no MCP servers. */
  const NoTools: (string, map<string, string>) -> Option<seq<McpTool.ToolInfo>> := (c, e) => None

  /**
   * The reply text a chat turn stores: none when the agent's LLM row is
   * missing or `generate_llm_response` fails or returns nothing with content;
   * otherwise the content of a direct call of the configured model (never
   * streaming) on the prompts.
   */
  function ModelReply(agent: Agent, prompts: seq<Prompt>, invoke: Invocation -> Option<Response>): (reply: Option<string>)
    ensures agent.llm.None? ==> reply.None?
    ensures reply.Some? ==>
      && agent.llm.Some?
      && var c := agent.llm.value;
         var built := SelectModel(c.provider, c.model, c.apiKey, c.baseUrl, false);
         built.Ok? && !Streams(built.value) && invoke(DirectCall(built.value, prompts)) == Some(ReplyMessage(reply.value))
    ensures agent.llm.Some? ==>
      var c := agent.llm.value;
      var built := SelectModel(c.provider, c.model, c.apiKey, c.baseUrl, false);
      built.Ok? && invoke(DirectCall(built.value, prompts)).Some? && invoke(DirectCall(built.value, prompts)).value.ReplyMessage?
      ==> reply == Some(invoke(DirectCall(built.value, prompts)).value.content)
  {
    if agent.llm.None? then None
    else
      var c := agent.llm.value;
      GenerateChoice(c.provider, c.model, c.apiKey, c.baseUrl, None, Some(prompts), NoTools, invoke);
      ReplyContent(Generate(c.provider, c.model, c.apiKey, c.baseUrl, None, Some(prompts), NoTools, invoke))
  }

  /** The assistant row stored for a reply: one row when there is a reply, none otherwise. */
  function AssistantRow(id: string, sid: string, agentName: string, reply: Option<string>, user: string, at: int)
    : (rows: seq<ChatMessage>)
    ensures |rows| <= 1 && (rows != [] <==> reply.Some?)
    ensures rows != [] ==> rows[0].role == "assistant" && rows[0].content == reply.value && rows[0].sessionId == sid
  {
    if reply.Some? then [ChatMessage(id, sid, agentName, "assistant", reply.value, user, user, at)] else []
  }

  /** The first row with the given id in the given session, or -1. */
  function Locate(ms: seq<ChatMessage>, mid: string, sid: string): (i: int)
    ensures -1 <= i < |ms|
    ensures i >= 0 ==> ms[i].id == mid && ms[i].sessionId == sid
    ensures i < 0 ==> forall m :: m in ms ==> !(m.id == mid && m.sessionId == sid)
  {
    if ms == [] then -1
    else if ms[0].id == mid && ms[0].sessionId == sid then 0
    else
      var j := Locate(ms[1..], mid, sid);
      if j < 0 then -1 else j + 1
  }

  /** `offset(skip).limit(limit)`: at most `limit` rows, starting after the first `skip`. */
  function Page<T>(xs: seq<T>, skip: nat, limit: nat): (r: seq<T>)
    ensures |r| == if skip >= |xs| then 0 else if limit < |xs| - skip then limit else |xs| - skip
    ensures forall i :: 0 <= i < |r| ==> r[i] == xs[skip + i]
  {
    if skip >= |xs| then []
    else if limit < |xs| - skip then xs[skip..skip + limit]
    else xs[skip..]
  }

  /** A page of a session's messages holds only that session's rows, in creation order. */
  lemma PageOfSession(ms: seq<ChatMessage>, sid: string, skip: nat, limit: nat)
    requires Chronological(ms)
    ensures var p := Page(SessionMessages(ms, sid), skip, limit);
      && |p| <= limit
      && Chronological(p)
      && (forall i :: 0 <= i < |p| ==> p[i].sessionId == sid)
  {
    SessionMessagesOrdered(ms, sid);
    var h := SessionMessages(ms, sid);
    var p := Page(h, skip, limit);
    forall i, j | 0 <= i < j < |p|
      ensures p[i].created <= p[j].created && p[i].id != p[j].id
    {
      assert p[i] == h[skip + i] && p[j] == h[skip + j];
    }
  }

  /**
   * What an edit keeps: the edited row, and of the other rows exactly those
   * that are not later messages of the same session; nothing else appears.
   */
  lemma EditRewind(ms: seq<ChatMessage>, i: nat, e: ChatMessage)
    requires Chronological(ms) && i < |ms|
    requires e.id == ms[i].id && e.created == ms[i].created && e.sessionId == ms[i].sessionId
    ensures var kept := Select(ms[i := e], NotAfter(e.sessionId, e.created));
      && e in kept
      && (forall m :: m in ms && m.id != e.id ==> (m in kept <==> !(m.sessionId == e.sessionId && m.created > e.created)))
      && (forall m :: m in kept ==> m == e || (m in ms && m.id != e.id))
  {
    var ms' := ms[i := e];
    assert ms'[i] == e;
    forall m | m in ms && m.id != e.id
      ensures m in ms'
    {
      var j :| 0 <= j < |ms| && ms[j] == m;
      assert ms'[j] == m;
    }
    forall m | m in ms' && m != e
      ensures m in ms && m.id != e.id
    {
      var j :| 0 <= j < |ms'| && ms'[j] == m;
      assert j != i && ms[j] == m;
    }
  }

  /** An edit leaves every other session's messages as they were. */
  lemma EditLeavesOtherSessions(ms: seq<ChatMessage>, i: nat, e: ChatMessage, other: string)
    requires i < |ms| && e.sessionId == ms[i].sessionId && other != e.sessionId
    ensures SessionMessages(Select(ms[i := e], NotAfter(e.sessionId, e.created)), other) == SessionMessages(ms, other)
  {
    var c := NotAfter(e.sessionId, e.created);
    SelectCommutes(ms[i := e], c, InSession(other));
    SelectIgnoresDropped(ms, i, e, InSession(other));
    SelectAll(Select(ms, InSession(other)), c);
  }

  class ChatStore {
    var sessions: map<string, ChatSession>
    var messages: seq<ChatMessage>

    ghost predicate Valid()
      reads this
    {
      WellFormed(sessions, messages)
    }

    /** `now` is no earlier than the creation time of any stored row. */
    predicate ClockAt(now: int)
      reads this
    {
      forall m :: m in messages ==> m.created <= now
    }

    /** No stored row has this id. */
    predicate FreshId(id: string)
      reads this
    {
      forall m :: m in messages ==> m.id != id
    }

    constructor ()
      ensures Valid() && sessions == map[] && messages == []
    {
      sessions := map[];
      messages := [];
    }

    /** `db.add` of a message row. */
    method Insert(m: ChatMessage)
      requires Valid() && m.role in Roles && m.sessionId in sessions && ClockAt(m.created) && FreshId(m.id)
      modifies this
      ensures Valid() && ClockAt(m.created)
      ensures sessions == old(sessions) && messages == old(messages) + [m]
    {
      ChronologicalAppend(messages, m);
      messages := messages + [m];
    }

    /** Adds the assistant row for a reply, if there is one. */
    method InsertReply(id: string, sid: string, agentName: string, reply: Option<string>, user: string, at: int)
      requires Valid() && sid in sessions && ClockAt(at) && FreshId(id)
      modifies this
      ensures Valid()
      ensures sessions == old(sessions)
      ensures messages == old(messages) + AssistantRow(id, sid, agentName, reply, user, at)
    {
      var rows := AssistantRow(id, sid, agentName, reply, user, at);
      if rows != [] {
        Insert(rows[0]);
        assert rows == [rows[0]];
      }
    }

    /** `create_chat_session_with_message`. */
    method CreateSessionWithMessage(agentId: string, content: string, username: string, agents: map<string, Agent>,
                                    sessionId: string, messageId: string, replyId: string, now: int, replyAt: int,
                                    invoke: Invocation -> Option<Response>)
      returns (r: Result<(ChatSession, seq<ChatMessage>), HttpError>)
      requires Valid() && sessionId !in sessions
      requires FreshId(messageId) && FreshId(replyId) && messageId != replyId
      requires ClockAt(now) && now <= replyAt
      modifies this
      ensures Valid()
      ensures agentId !in agents ==>
        && r == Err(HttpError(NotFound, "Agent '" + agentId + "' not found"))
        && sessions == old(sessions) && messages == old(messages)
      ensures agentId in agents ==>
        var agent := agents[agentId];
        var session := ChatSession(sessionId, SessionName(content), agentId, username, username, now);
        var first := ChatMessage(messageId, sessionId, agent.name, "user", content, username, username, now);
        var reply := AssistantRow(replyId, sessionId, agent.name,
                                  ModelReply(agent, PromptHistory(agent.systemPrompt, [first]), invoke), username, replyAt);
        && sessions == old(sessions)[sessionId := session]
        && messages == old(messages) + [first] + reply
        && SessionMessages(messages, sessionId) == [first] + reply
        && r == Ok((session, [first] + reply))
    {
      if agentId !in agents {
        return Err(HttpError(NotFound, "Agent '" + agentId + "' not found"));
      }
      var agent := agents[agentId];
      var session := ChatSession(sessionId, SessionName(content), agentId, username, username, now);
      var first := ChatMessage(messageId, sessionId, agent.name, "user", content, username, username, now);
      ghost var before := messages;
      AddSession(sessions, messages, session);
      sessions := sessions[sessionId := session];
      Insert(first);
      var prompts := SystemPart(agent.systemPrompt) + [HumanPrompt(content)];
      FirstTurnPrompt(agent.systemPrompt, first);
      var reply := ModelReply(agent, prompts, invoke);
      InsertReply(replyId, sessionId, agent.name, reply, username, replyAt);
      var rows := AssistantRow(replyId, sessionId, agent.name, reply, username, replyAt);
      NewSessionHistory(before, first, rows);
      r := Ok((session, [first] + rows));
    }

    /** `create_chat_message`. */
    method CreateChatMessage(sessionId: string, content: string, username: string, agents: map<string, Agent>,
                             messageId: string, replyId: string, now: int, replyAt: int,
                             invoke: Invocation -> Option<Response>)
      returns (r: Result<seq<ChatMessage>, HttpError>)
      requires Valid()
      requires FreshId(messageId) && FreshId(replyId) && messageId != replyId
      requires ClockAt(now) && now <= replyAt
      modifies this
      ensures Valid()
      ensures sessionId !in old(sessions) ==>
        && r == Err(HttpError(NotFound, "Chat session '" + sessionId + "' not found"))
        && sessions == old(sessions) && messages == old(messages)
      ensures sessionId in old(sessions) && old(sessions)[sessionId].agentId !in agents ==>
        && r == Err(HttpError(NotFound, "Agent for session '" + sessionId + "' not found"))
        && sessions == old(sessions) && messages == old(messages)
      ensures sessionId in old(sessions) && old(sessions)[sessionId].agentId in agents ==>
        var agent := agents[old(sessions)[sessionId].agentId];
        var first := ChatMessage(messageId, sessionId, agent.name, "user", content, username, username, now);
        var history := SessionMessages(old(messages) + [first], sessionId);
        var reply := AssistantRow(replyId, sessionId, agent.name,
                                  ModelReply(agent, PromptHistory(agent.systemPrompt, history), invoke), username, replyAt);
        && sessions == old(sessions)
        && messages == old(messages) + [first] + reply
        && r == Ok([first] + reply)
    {
      if sessionId !in sessions {
        return Err(HttpError(NotFound, "Chat session '" + sessionId + "' not found"));
      }
      if sessions[sessionId].agentId !in agents {
        return Err(HttpError(NotFound, "Agent for session '" + sessionId + "' not found"));
      }
      var agent := agents[sessions[sessionId].agentId];
      var first := ChatMessage(messageId, sessionId, agent.name, "user", content, username, username, now);
      Insert(first);
      var prompts := PromptHistory(agent.systemPrompt, SessionMessages(messages, sessionId));
      var reply := ModelReply(agent, prompts, invoke);
      InsertReply(replyId, sessionId, agent.name, reply, username, replyAt);
      r := Ok([first] + AssistantRow(replyId, sessionId, agent.name, reply, username, replyAt));
    }

    /** The loop that deletes the session's messages created after `at`. */
    static method Rewind(ms: seq<ChatMessage>, sid: string, at: int) returns (kept: seq<ChatMessage>)
      ensures kept == Select(ms, NotAfter(sid, at))
    {
      var c := NotAfter(sid, at);
      kept := [];
      for j := 0 to |ms|
        invariant kept == Select(ms[..j], c)
      {
        SelectAppend(ms[..j], [ms[j]], c);
        assert ms[..j + 1] == ms[..j] + [ms[j]];
        assert Select([ms[j]], c) == if Keeps(c, ms[j]) then [ms[j]] else [] by {
          assert [ms[j]][1..] == [];
        }
        if Keeps(c, ms[j]) {
          kept := kept + [ms[j]];
        }
      }
      assert ms[..|ms|] == ms;
    }

    /** `update_chat_message`: rewrites a user message and rewinds the conversation to it. */
    method UpdateChatMessage(sessionId: string, messageId: string, content: string, username: string,
                             agents: map<string, Agent>, replyId: string, replyAt: int,
                             invoke: Invocation -> Option<Response>)
      returns (r: Result<seq<ChatMessage>, HttpError>)
      requires Valid() && FreshId(replyId) && ClockAt(replyAt)
      modifies this
      ensures Valid()
      ensures sessionId !in old(sessions) ==>
        && r == Err(HttpError(NotFound, "Chat session '" + sessionId + "' not found"))
        && sessions == old(sessions) && messages == old(messages)
      ensures sessionId in old(sessions) && Locate(old(messages), messageId, sessionId) < 0 ==>
        && r == Err(HttpError(NotFound, "Chat message '" + messageId + "' not found in session '" + sessionId + "'"))
        && sessions == old(sessions) && messages == old(messages)
      ensures sessionId in old(sessions) && Locate(old(messages), messageId, sessionId) >= 0
              && old(messages)[Locate(old(messages), messageId, sessionId)].role != "user" ==>
        && r == Err(HttpError(BadRequest, "Only user messages can be modified"))
        && sessions == old(sessions) && messages == old(messages)
      ensures sessionId in old(sessions) && Locate(old(messages), messageId, sessionId) >= 0
              && old(messages)[Locate(old(messages), messageId, sessionId)].role == "user"
              && old(sessions)[sessionId].agentId !in agents ==>
        && r == Err(HttpError(NotFound, "Agent for session not found"))
        && sessions == old(sessions) && messages == old(messages)
      ensures sessionId in old(sessions) && Locate(old(messages), messageId, sessionId) >= 0
              && old(messages)[Locate(old(messages), messageId, sessionId)].role == "user"
              && old(sessions)[sessionId].agentId in agents ==>
        var i := Locate(old(messages), messageId, sessionId);
        var agent := agents[old(sessions)[sessionId].agentId];
        var edited := old(messages)[i].(content := content, agentName := agent.name, role := "user", lastUpdatedBy := username);
        var kept := Select(old(messages)[i := edited], NotAfter(sessionId, edited.created));
        var reply := AssistantRow(replyId, sessionId, agent.name,
                                  ModelReply(agent, PromptHistory(agent.systemPrompt, SessionMessages(kept, sessionId)), invoke),
                                  username, replyAt);
        && sessions == old(sessions)
        && messages == kept + reply
        && r == Ok([edited] + reply)
    {
      if sessionId !in sessions {
        return Err(HttpError(NotFound, "Chat session '" + sessionId + "' not found"));
      }
      var i := Locate(messages, messageId, sessionId);
      if i < 0 {
        return Err(HttpError(NotFound, "Chat message '" + messageId + "' not found in session '" + sessionId + "'"));
      }
      if messages[i].role != "user" {
        return Err(HttpError(BadRequest, "Only user messages can be modified"));
      }
      if sessions[sessionId].agentId !in agents {
        return Err(HttpError(NotFound, "Agent for session not found"));
      }
      var agent := agents[sessions[sessionId].agentId];
      var edited := messages[i].(content := content, agentName := agent.name, role := "user", lastUpdatedBy := username);
      ghost var before := messages;
      var kept := Rewind(messages[i := edited], sessionId, edited.created);
      KeptWellFormed(sessions, before, i, edited);
      messages := kept;
      var prompts := PromptHistory(agent.systemPrompt, SessionMessages(messages, sessionId));
      var reply := ModelReply(agent, prompts, invoke);
      assert FreshId(replyId) && ClockAt(replyAt) by {
        forall m | m in kept
          ensures m.id != replyId && m.created <= replyAt
        {
          assert m in before[i := edited];
          var j :| 0 <= j < |before| && before[i := edited][j] == m;
          assert before[j].id == m.id && before[j].created == m.created;
          assert before[j] in before;
        }
      }
      InsertReply(replyId, sessionId, agent.name, reply, username, replyAt);
      r := Ok([edited] + AssistantRow(replyId, sessionId, agent.name, reply, username, replyAt));
    }

    /** `delete_chat_message`. */
    method DeleteChatMessage(sessionId: string, messageId: string) returns (r: Result<(), HttpError>)
      requires Valid()
      modifies this
      ensures Valid()
      ensures sessionId !in old(sessions) ==>
        && r == Err(HttpError(NotFound, "Chat session '" + sessionId + "' not found"))
        && sessions == old(sessions) && messages == old(messages)
      ensures sessionId in old(sessions) && Locate(old(messages), messageId, sessionId) < 0 ==>
        && r == Err(HttpError(NotFound, "Chat message '" + messageId + "' not found in session '" + sessionId + "'"))
        && sessions == old(sessions) && messages == old(messages)
      ensures sessionId in old(sessions) && Locate(old(messages), messageId, sessionId) >= 0 ==>
        && r == Ok(())
        && sessions == old(sessions)
        && messages == Select(old(messages), OtherThan(messageId))
        && |messages| == |old(messages)| - 1
    {
      if sessionId !in sessions {
        return Err(HttpError(NotFound, "Chat session '" + sessionId + "' not found"));
      }
      var i := Locate(messages, messageId, sessionId);
      if i < 0 {
        return Err(HttpError(NotFound, "Chat message '" + messageId + "' not found in session '" + sessionId + "'"));
      }
      SelectRemovesOne(messages, i);
      SelectChronological(messages, OtherThan(messageId));
      messages := Select(messages, OtherThan(messageId));
      r := Ok(());
    }

    /** `delete_chat_session`, with the cascade to the session's messages. */
    method DeleteChatSession(sessionId: string) returns (r: Result<(), HttpError>)
      requires Valid()
      modifies this
      ensures Valid()
      ensures sessionId !in old(sessions) ==>
        && r == Err(HttpError(NotFound, "Chat session '" + sessionId + "' not found"))
        && sessions == old(sessions) && messages == old(messages)
      ensures sessionId in old(sessions) ==>
        && r == Ok(())
        && sessions == old(sessions) - {sessionId}
        && messages == Select(old(messages), OutsideSession(sessionId))
    {
      if sessionId !in sessions {
        return Err(HttpError(NotFound, "Chat session '" + sessionId + "' not found"));
      }
      CascadeDelete(sessions, messages, sessionId);
      sessions := sessions - {sessionId};
      messages := Select(messages, OutsideSession(sessionId));
      r := Ok(());
    }

    /** `get_session_messages`. */
    method GetSessionMessages(sessionId: string, skip: nat, limit: nat) returns (r: Result<seq<ChatMessage>, HttpError>)
      ensures sessionId !in sessions ==> r == Err(HttpError(NotFound, "Chat session '" + sessionId + "' not found"))
      ensures sessionId in sessions ==> r == Ok(Page(SessionMessages(messages, sessionId), skip, limit))
    {
      if sessionId !in sessions {
        return Err(HttpError(NotFound, "Chat session '" + sessionId + "' not found"));
      }
      r := Ok(Page(SessionMessages(messages, sessionId), skip, limit));
    }
  }

  const NotFound: nat := 404
  const BadRequest: nat := 400

  /** The status code and detail an endpoint answers with when it refuses a request. */
  datatype HttpError = HttpError(status: nat, detail: string)

  /** Adding a session whose name fits the column keeps the tables well formed. */
  lemma AddSession(sessions: map<string, ChatSession>, ms: seq<ChatMessage>, s: ChatSession)
    requires WellFormed(sessions, ms) && s.id !in sessions && |s.name| <= NameWidth
    ensures WellFormed(sessions[s.id := s], ms)
  {
  }

  /**
   * The prompts of a session's first turn, the agent's system prompt and the
   * message, are the history of a session holding only that message.
   */
  lemma FirstTurnPrompt(systemPrompt: string, first: ChatMessage)
    requires first.role == "user"
    ensures SystemPart(systemPrompt) + [HumanPrompt(first.content)] == PromptHistory(systemPrompt, [first])
  {
    assert [first][1..] == [];
    assert Mapped([first]) == [HumanPrompt(first.content)] + Mapped([]);
  }

  /** A new session's messages are its first message and the reply row, if any. */
  lemma NewSessionHistory(before: seq<ChatMessage>, first: ChatMessage, rows: seq<ChatMessage>)
    requires forall m :: m in before ==> m.sessionId != first.sessionId
    requires forall m :: m in rows ==> m.sessionId == first.sessionId
    ensures SessionMessages(before + [first] + rows, first.sessionId) == [first] + rows
  {
    var c := InSession(first.sessionId);
    assert Select(before + [first], c) == [first] by {
      SelectAppend(before, [first], c);
      SelectNone(before, c);
      assert Select([first], c) == [first] by {
        assert [first][1..] == [];
      }
    }
    assert Select(rows, c) == rows by {
      SelectAll(rows, c);
    }
    SelectAppend(before + [first], rows, c);
  }

  /** What an edit keeps still satisfies the table invariants. */
  lemma KeptWellFormed(sessions: map<string, ChatSession>, ms: seq<ChatMessage>, i: nat, e: ChatMessage)
    requires WellFormed(sessions, ms) && i < |ms|
    requires e.id == ms[i].id && e.created == ms[i].created && e.sessionId == ms[i].sessionId && e.role in Roles
    ensures WellFormed(sessions, Select(ms[i := e], NotAfter(e.sessionId, e.created)))
  {
    var ms' := ms[i := e];
    assert Chronological(ms') by {
      forall a, b | 0 <= a < b < |ms'|
        ensures ms'[a].created <= ms'[b].created && ms'[a].id != ms'[b].id
      {
        assert ms'[a].created == ms[a].created && ms'[a].id == ms[a].id;
        assert ms'[b].created == ms[b].created && ms'[b].id == ms[b].id;
      }
    }
    SelectChronological(ms', NotAfter(e.sessionId, e.created));
    forall m | m in ms'
      ensures m.role in Roles && m.sessionId in sessions
    {
      var j :| 0 <= j < |ms'| && ms'[j] == m;
      if j != i {
        assert ms[j] in ms;
      } else {
        assert ms[i] in ms;
      }
    }
  }
}
