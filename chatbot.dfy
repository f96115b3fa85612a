/**
 * The website chatbot's conversation store: `POST /message` (get or create a
 * conversation, append the visitor's message and the assistant's reply, persist
 * the transcript), `POST /end` (mail the transcript to the studio, mark it sent,
 * evict it from memory), `GET /history/:id` and the hourly eviction of
 * conversations idle for more than a day.
 *
 * The in-memory map, the `chatbot_conversations` table and the mails sent are the
 * state. The AI reply, the mailer's outcome, whether a database write succeeds and
 * the generated conversation id are inputs; one request happens at one instant `now`
 * (milliseconds).
 */
module Chatbot {
  import opened JsCore

  /** Conversations idle for longer than this many milliseconds are evicted. */
  const MaxAge: int := 24 * 60 * 60 * 1000

  const Guest := "Guest"
  const AssistantName := "Tysun AI Assistant"

  const MessageRequired := "Message is required"
  const ConfigurationError := "Configuration error. Please contact support."
  const QuotaError := "Service temporarily unavailable. Please try again in a moment or email productions@tysunmike.us"
  const GenericError := "Sorry, I encountered an error. Please try again or contact us directly at productions@tysunmike.us"
  const IdRequired := "Conversation ID is required"
  const NotFound := "Conversation not found"

  datatype ChatMessage = ChatMessage(role: string, content: string, timestamp: int)

  /** An entry of the in-memory store (the AI session object it also holds is not modelled). */
  datatype Conversation = Conversation(id: string, messages: seq<ChatMessage>, userName: string,
                                       userEmail: Option<string>, startedAt: int, lastMessageAt: int)

  /** A row of `chatbot_conversations`, keyed by its conversation id. */
  datatype StoredConversation = StoredConversation(userName: string, userEmail: Option<string>,
                                                   messages: seq<ChatMessage>, createdAt: int, updatedAt: int,
                                                   emailSent: bool, emailSentAt: Option<int>)

  /** The transcript mail sent to the studio: sender name, reply-to address, and one
      (speaker, text) line per message. */
  datatype TranscriptMail = TranscriptMail(fromName: string, replyTo: Option<string>, lines: seq<(string, string)>)

  datatype ChatState = ChatState(memory: map<string, Conversation>, db: map<string, StoredConversation>,
                                 outbox: seq<TranscriptMail>)

  /** What the AI session answers: a reply, or a thrown error with its message. */
  datatype AiOutcome = AiReply(text: string) | AiError(message: string)

  datatype MessageReply =
    | Replied(conversationId: string, message: string, timestamp: int)   // 200
    | MessageRejected(error: string)                                      // 400
    | MessageFailed(error: string)                                        // 500

  datatype EndReply =
    | Ended                                  // 200, "Conversation sent successfully"
    | EndRejected(code: int, error: string)  // 400 or 404
    | EndFailed                              // 500

  /** `!message || !message.trim()`: the message is missing or all whitespace. */
  predicate Blank(message: Option<string>)
    ensures !Present(message) ==> Blank(message)
    ensures Present(message) && (!IsSpace(message.value[0]) || !IsSpace(message.value[|message.value| - 1])) ==>
              !Blank(message)
  {
    !Present(message) || forall i :: 0 <= i < |message.value| ==> IsSpace(message.value[i])
  }

  /** `Blank` is the route's test: trimming leaves nothing. */
  lemma BlankMeansTrimmedEmpty(message: Option<string>)
    ensures Blank(message) <==> !Present(message) || Trim(message.value) == []
  {
    if Present(message) {
      TrimEmptyIffBlank(message.value);
    }
  }

  /** The 500 text for an error thrown while answering a message. */
  function ErrorText(msg: string): (t: string)
    ensures t == ConfigurationError <==> Contains(msg, "API key")
    ensures t == QuotaError <==> !Contains(msg, "API key") && Contains(msg, "quota")
    ensures t == GenericError <==> !Contains(msg, "API key") && !Contains(msg, "quota")
  {
    if Contains(msg, "API key") then ConfigurationError
    else if Contains(msg, "quota") then QuotaError
    else GenericError
  }

  /** The id a message is filed under: the one supplied, or a freshly generated one. */
  function ConversationId(conversationId: Option<string>, freshId: string): (id: string)
    ensures id != [] <==> Present(conversationId) || freshId != []
    ensures Present(conversationId) ==> id == conversationId.value
    ensures !Present(conversationId) ==> id == freshId
  {
    if Present(conversationId) then conversationId.value else freshId
  }

  /** A conversation that is not in memory starts empty; the visitor is "Guest" unless named. */
  function NewConversation(id: string, userName: Option<string>, userEmail: Option<string>, now: int): (c: Conversation)
    ensures c.id == id && c.messages == [] && c.startedAt == now && c.lastMessageAt == now
  {
    Conversation(id, [], if Present(userName) then userName.value else Guest,
                 if Present(userEmail) then userEmail else None, now, now)
  }

  /** The conversation `/message` works on: the one in memory, or a new one. The
      database is not consulted. */
  function Current(memory: map<string, Conversation>, id: string, userName: Option<string>,
                   userEmail: Option<string>, now: int): Conversation
  {
    if id in memory then memory[id] else NewConversation(id, userName, userEmail, now)
  }

  /** The conversation with the visitor's message pushed. */
  function Asked(c: Conversation, message: string, now: int): Conversation
  {
    c.(messages := c.messages + [ChatMessage("user", message, now)])
  }

  /** The conversation with the assistant's reply pushed, marked active at `now`, and the
      name and address replaced by the non-empty ones given. */
  function Answered(c: Conversation, text: string, userName: Option<string>, userEmail: Option<string>, now: int): Conversation
  {
    c.(messages := c.messages + [ChatMessage("assistant", text, now)],
       lastMessageAt := now,
       userName := if Present(userName) then userName.value else c.userName,
       userEmail := if Present(userEmail) then userEmail else c.userEmail)
  }

  /** The row written by the upsert: a new row, or the old one with the transcript, the
      update time and the names replaced (creation time and sent flag are kept). */
  function Persisted(db: map<string, StoredConversation>, id: string, c: Conversation): StoredConversation
  {
    if id in db then db[id].(userName := c.userName, userEmail := c.userEmail, messages := c.messages,
                             updatedAt := c.lastMessageAt)
    else StoredConversation(c.userName, c.userEmail, c.messages, c.startedAt, c.lastMessageAt, false, None)
  }

  /** `POST /message` as a function of the state. The visitor's message is pushed onto
      the conversation object before the AI is asked; when the conversation was already
      in memory that object is the stored one, so a failed reply leaves the visitor's
      message in the store. */
  function PostMessage(st: ChatState, message: Option<string>, conversationId: Option<string>,
                       userName: Option<string>, userEmail: Option<string>, freshId: string, now: int,
                       ai: AiOutcome, dbOk: bool): (r: (ChatState, MessageReply))
    ensures r.1.MessageRejected? <==> Blank(message)
    ensures r.1.MessageRejected? ==> r == (st, MessageRejected(MessageRequired))
    ensures r.1.Replied? <==> !Blank(message) && ai.AiReply?
    ensures r.1.Replied? ==> r.1 == Replied(ConversationId(conversationId, freshId), ai.text, now)
    ensures r.1.MessageFailed? ==> r.1.error == ErrorText(ai.message) && r.0.db == st.db
    ensures r.0.outbox == st.outbox
    // only the conversation the message is filed under changes, and it is added only on a reply
    ensures var id := ConversationId(conversationId, freshId);
      forall k :: k in r.0.memory <==> k in st.memory || (r.1.Replied? && k == id)
    ensures var id := ConversationId(conversationId, freshId);
      forall k :: k in st.memory && k != id ==> r.0.memory[k] == st.memory[k]
  {
    if Blank(message) then (st, MessageRejected(MessageRequired))
    else
      var id := ConversationId(conversationId, freshId);
      var asked := Asked(Current(st.memory, id, userName, userEmail, now), message.value, now);
      match ai
      case AiError(msg) =>
        var memory := if id in st.memory then st.memory[id := asked] else st.memory;
        (st.(memory := memory), MessageFailed(ErrorText(msg)))
      case AiReply(text) =>
        var answered := Answered(asked, text, userName, userEmail, now);
        var db := if dbOk then st.db[id := Persisted(st.db, id, answered)] else st.db;
        (ChatState(st.memory[id := answered], db, st.outbox), Replied(id, text, now))
  }

  /** The messages a conversation had before this request (none for a new one). */
  function Before(memory: map<string, Conversation>, id: string): seq<ChatMessage>
  {
    if id in memory then memory[id].messages else []
  }

  /** A reply appends exactly the visitor's message and then the assistant's, both stamped
      `now`, and the conversation counts as active at `now`. */
  lemma ReplyAppendsPair(st: ChatState, message: Option<string>, conversationId: Option<string>,
                         userName: Option<string>, userEmail: Option<string>, freshId: string, now: int,
                         ai: AiOutcome, dbOk: bool)
    requires PostMessage(st, message, conversationId, userName, userEmail, freshId, now, ai, dbOk).1.Replied?
    ensures var id := ConversationId(conversationId, freshId);
      var c := PostMessage(st, message, conversationId, userName, userEmail, freshId, now, ai, dbOk).0.memory[id];
      c.messages == Before(st.memory, id) + [ChatMessage("user", message.value, now), ChatMessage("assistant", ai.text, now)] &&
      c.lastMessageAt == now && c.id == Current(st.memory, id, userName, userEmail, now).id
  {
  }

  /** The visitor's name is "Guest" for a new conversation unless one is given, and a
      stored name or address is replaced only by a non-empty one. */
  lemma ReplyKeepsOrReplacesNames(st: ChatState, message: Option<string>, conversationId: Option<string>,
                                  userName: Option<string>, userEmail: Option<string>, freshId: string, now: int,
                                  ai: AiOutcome, dbOk: bool)
    requires PostMessage(st, message, conversationId, userName, userEmail, freshId, now, ai, dbOk).1.Replied?
    ensures var id := ConversationId(conversationId, freshId);
      var c := PostMessage(st, message, conversationId, userName, userEmail, freshId, now, ai, dbOk).0.memory[id];
      c.userName == (if Present(userName) then userName.value else if id in st.memory then st.memory[id].userName else Guest) &&
      c.userEmail == (if Present(userEmail) then userEmail else if id in st.memory then st.memory[id].userEmail else None)
  {
  }

  /** A failed reply answers 500, persists nothing, and leaves the visitor's message
      appended to a conversation that was already in memory; a new conversation is
      not stored at all. */
  lemma FailedReplyKeepsQuestion(st: ChatState, message: Option<string>, conversationId: Option<string>,
                                 userName: Option<string>, userEmail: Option<string>, freshId: string, now: int,
                                 msg: string, dbOk: bool)
    requires !Blank(message)
    ensures var id := ConversationId(conversationId, freshId);
      var r := PostMessage(st, message, conversationId, userName, userEmail, freshId, now, AiError(msg), dbOk);
      r.1 == MessageFailed(ErrorText(msg)) &&
      r.0.memory == (if id in st.memory
                     then st.memory[id := st.memory[id].(messages := st.memory[id].messages + [ChatMessage("user", message.value, now)])]
                     else st.memory)
  {
  }

  /** A failed database write is invisible: the reply and the memory store are the same. */
  lemma DatabaseFailureIsSilent(st: ChatState, message: Option<string>, conversationId: Option<string>,
                                userName: Option<string>, userEmail: Option<string>, freshId: string, now: int,
                                ai: AiOutcome)
    ensures var ok := PostMessage(st, message, conversationId, userName, userEmail, freshId, now, ai, true);
      var failed := PostMessage(st, message, conversationId, userName, userEmail, freshId, now, ai, false);
      ok.1 == failed.1 && ok.0.memory == failed.0.memory && failed.0.db == st.db
  {
  }

  /** A persisted reply stores the same transcript as memory; the row's creation time and
      sent flag survive the upsert. Since `/message` reads only memory, a conversation
      evicted from memory restarts empty and its stored transcript is overwritten. */
  lemma ReplyPersistsTranscript(st: ChatState, message: Option<string>, conversationId: Option<string>,
                                userName: Option<string>, userEmail: Option<string>, freshId: string, now: int,
                                ai: AiOutcome)
    requires PostMessage(st, message, conversationId, userName, userEmail, freshId, now, ai, true).1.Replied?
    ensures var id := ConversationId(conversationId, freshId);
      var r := PostMessage(st, message, conversationId, userName, userEmail, freshId, now, ai, true).0;
      r.db[id].messages == r.memory[id].messages && r.db[id].updatedAt == now &&
      (id in st.db ==> r.db[id].createdAt == st.db[id].createdAt && r.db[id].emailSent == st.db[id].emailSent) &&
      (id !in st.memory ==> |r.db[id].messages| == 2)
  {
  }

  /** `role === 'user' ? userName : 'Tysun AI Assistant'`. */
  function Speaker(role: string, userName: string): (who: string)
    ensures role == "user" ==> who == userName
    ensures role != "user" ==> who == AssistantName && who != []
  {
    if role == "user" then userName else AssistantName
  }

  /** The transcript lines of the mail, one per message in order. */
  function Transcript(messages: seq<ChatMessage>, userName: string): (lines: seq<(string, string)>)
    ensures |lines| == |messages|
    ensures forall i :: 0 <= i < |messages| ==>
              lines[i] == (if messages[i].role == "user" then userName else AssistantName, messages[i].content)
  {
    if messages == [] then []
    else [(Speaker(messages[0].role, userName), messages[0].content)] + Transcript(messages[1..], userName)
  }

  /** The conversation `/end` and `/history` find: memory first, then the table. */
  function Lookup(st: ChatState, id: string): (c: Option<Conversation>)
    ensures id in st.memory ==> c == Some(st.memory[id])
    ensures c.None? <==> id !in st.memory && id !in st.db
    ensures id !in st.memory && id in st.db ==> c.value.messages == st.db[id].messages && c.value.id == id
  {
    if id in st.memory then Some(st.memory[id])
    else if id in st.db then
      var row := st.db[id];
      Some(Conversation(id, row.messages, row.userName, row.userEmail, row.createdAt, row.updatedAt))
    else None
  }

  /** The mail for a conversation, replying to the visitor when an address is known. */
  function MailFor(c: Conversation): (m: TranscriptMail)
    ensures m.fromName == c.userName
    ensures m.replyTo.Some? <==> Present(c.userEmail)
    ensures m.replyTo.Some? ==> m.replyTo == c.userEmail
    ensures |m.lines| == |c.messages|
    ensures forall i :: 0 <= i < |c.messages| ==> m.lines[i].1 == c.messages[i].content
  {
    TranscriptMail(c.userName, if Present(c.userEmail) then c.userEmail else None, Transcript(c.messages, c.userName))
  }

  /** The conversation under the non-empty name and address given to `/end`. */
  function Renamed(c: Conversation, userEmail: Option<string>, userName: Option<string>): Conversation
  {
    c.(userEmail := if Present(userEmail) then userEmail else c.userEmail,
       userName := if Present(userName) then userName.value else c.userName)
  }

  /** `POST /end` as a function of the state. The name and address given replace the
      conversation's; when it came from memory the stored object itself is changed, which
      shows when the mail or the table update then fails. */
  function EndConversation(st: ChatState, conversationId: Option<string>, userEmail: Option<string>,
                           userName: Option<string>, now: int, mailOk: bool, markOk: bool): (r: (ChatState, EndReply))
    ensures r.1 == EndRejected(400, IdRequired) <==> !Present(conversationId)
    ensures r.1 == EndRejected(404, NotFound) <==>
              Present(conversationId) && (Lookup(st, conversationId.value).None? || Lookup(st, conversationId.value).value.messages == [])
    ensures r.1.EndRejected? ==> r.0 == st
    // the transcript is mailed at most once, and a conversation leaves memory only once mailed and marked
    ensures |r.0.outbox| == |st.outbox| + (if r.1.Ended? || (r.1.EndFailed? && mailOk) then 1 else 0)
    ensures r.1.Ended? <==> !r.1.EndRejected? && mailOk && markOk
    ensures r.1.Ended? ==> r.0.memory == st.memory - {conversationId.value}
    ensures r.1.EndFailed? ==> r.0.memory.Keys == st.memory.Keys && r.0.db == st.db
  {
    if !Present(conversationId) then (st, EndRejected(400, IdRequired))
    else
      var id := conversationId.value;
      var found := Lookup(st, id);
      if found.None? || found.value.messages == [] then (st, EndRejected(404, NotFound))
      else
        var c := Renamed(found.value, userEmail, userName);
        var memory := if id in st.memory then st.memory[id := c] else st.memory;
        if !mailOk then (st.(memory := memory), EndFailed)
        else
          var outbox := st.outbox + [MailFor(c)];
          if !markOk then (st.(memory := memory, outbox := outbox), EndFailed)
          else
            var db := if id in st.db then st.db[id := st.db[id].(emailSent := true, emailSentAt := Some(now))] else st.db;
            (ChatState(st.memory - {id}, db, outbox), Ended)
  }

  /** A successful end mails the transcript of the conversation found, under the name
      given or else the stored one, and marks the stored row as sent. */
  lemma EndMailsTranscript(st: ChatState, id: string, userEmail: Option<string>, userName: Option<string>, now: int)
    requires EndConversation(st, Some(id), userEmail, userName, now, true, true).1.Ended?
    ensures var r := EndConversation(st, Some(id), userEmail, userName, now, true, true).0;
      var c := Lookup(st, id).value;
      var name := if Present(userName) then userName.value else c.userName;
      r.outbox == st.outbox + [MailFor(Renamed(c, userEmail, userName))] &&
      r.outbox[|st.outbox|].lines == Transcript(c.messages, name) &&
      r.db.Keys == st.db.Keys && (id in st.db ==> r.db[id].emailSent && r.db[id].emailSentAt == Some(now))
  {
  }

  /** `GET /history/:id`: the conversation found, or `None` for a 404. Unlike `/end`,
      a conversation with no messages is still returned. */
  function History(st: ChatState, id: string): (r: Option<(string, seq<ChatMessage>, string, int)>)
    ensures r.Some? <==> Lookup(st, id).Some?
    ensures r.Some? ==> r.value.0 == Lookup(st, id).value.id && r.value.1 == Lookup(st, id).value.messages
  {
    match Lookup(st, id)
    case None => None
    case Some(c) => Some((c.id, c.messages, c.userName, c.startedAt))
  }

  /** A conversation stored without messages is listed by `/history` but is "not found" for `/end`. */
  lemma EmptyConversationListedButNotEnded(st: ChatState, id: string, userEmail: Option<string>,
                                           userName: Option<string>, now: int, mailOk: bool, markOk: bool)
    requires id != [] && id in st.memory && st.memory[id].messages == []
    ensures History(st, id).Some?
    ensures EndConversation(st, Some(id), userEmail, userName, now, mailOk, markOk) == (st, EndRejected(404, NotFound))
  {
  }

  /** After a reply, the conversation can be ended: the mail's transcript closes with the
      visitor's message and the assistant's answer, and only the table keeps the conversation. */
  lemma ReplyThenEnd(st: ChatState, message: Option<string>, conversationId: Option<string>,
                     userName: Option<string>, userEmail: Option<string>, freshId: string, now: int,
                     ai: AiOutcome, dbOk: bool, later: int)
    requires freshId != []
    requires PostMessage(st, message, conversationId, userName, userEmail, freshId, now, ai, dbOk).1.Replied?
    ensures var id := ConversationId(conversationId, freshId);
      var s1 := PostMessage(st, message, conversationId, userName, userEmail, freshId, now, ai, dbOk).0;
      var r := EndConversation(s1, Some(id), None, None, later, true, true);
      var lines := r.0.outbox[|st.outbox|].lines;
      r.1.Ended? && |r.0.outbox| == |st.outbox| + 1 && |lines| >= 2 &&
      lines[|lines| - 2] == (s1.memory[id].userName, message.value) &&
      lines[|lines| - 1] == (AssistantName, ai.text) &&
      id !in r.0.memory && History(r.0, id).Some? == (id in r.0.db)
  {
    var id := ConversationId(conversationId, freshId);
    var s1 := PostMessage(st, message, conversationId, userName, userEmail, freshId, now, ai, dbOk).0;
    ReplyAppendsPair(st, message, conversationId, userName, userEmail, freshId, now, ai, dbOk);
    var c := s1.memory[id];
    assert Lookup(s1, id) == Some(c);
    var msgs := c.messages;
    assert msgs[|msgs| - 2] == ChatMessage("user", message.value, now);
    assert msgs[|msgs| - 1] == ChatMessage("assistant", ai.text, now);
  }

  /** The conversations the hourly cleanup keeps: those active within the last day. */
  function Swept(memory: map<string, Conversation>, now: int): (m: map<string, Conversation>)
    ensures forall id :: id in m <==> id in memory && now - memory[id].lastMessageAt <= MaxAge
    ensures forall id :: id in m ==> m[id] == memory[id]
  {
    map id | id in memory && now - memory[id].lastMessageAt <= MaxAge :: memory[id]
  }

  /** A conversation that just received a reply survives every cleanup within a day. */
  lemma ReplySurvivesSweep(st: ChatState, message: Option<string>, conversationId: Option<string>,
                           userName: Option<string>, userEmail: Option<string>, freshId: string, now: int,
                           ai: AiOutcome, dbOk: bool, later: int)
    requires PostMessage(st, message, conversationId, userName, userEmail, freshId, now, ai, dbOk).1.Replied?
    requires later <= now + MaxAge
    ensures ConversationId(conversationId, freshId) in
              Swept(PostMessage(st, message, conversationId, userName, userEmail, freshId, now, ai, dbOk).0.memory, later)
  {
    ReplyAppendsPair(st, message, conversationId, userName, userEmail, freshId, now, ai, dbOk);
  }

  /** The in-memory store, the conversations table and the mails sent. */
  class ConversationStore {
    var memory: map<string, Conversation>
    var db: map<string, StoredConversation>
    var outbox: seq<TranscriptMail>

    function Snapshot(): ChatState
      reads this
    {
      ChatState(memory, db, outbox)
    }

    constructor (db: map<string, StoredConversation>)
      ensures Snapshot() == ChatState(map[], db, [])
    {
      memory := map[];
      this.db := db;
      outbox := [];
    }

    /** `POST /message`. */
    method Message(message: Option<string>, conversationId: Option<string>, userName: Option<string>,
                   userEmail: Option<string>, freshId: string, now: int, ai: AiOutcome, dbOk: bool)
      returns (reply: MessageReply)
      modifies this
      ensures (Snapshot(), reply) ==
              PostMessage(old(Snapshot()), message, conversationId, userName, userEmail, freshId, now, ai, dbOk)
    {
      if Blank(message) {
        return MessageRejected(MessageRequired);
      }
      var id := ConversationId(conversationId, freshId);
      var stored := id in memory;
      var c := Asked(Current(memory, id, userName, userEmail, now), message.value, now);
      if stored {
        // the pushed message lands in the object the store holds
        memory := memory[id := c];
      }
      if ai.AiError? {
        return MessageFailed(ErrorText(ai.message));
      }
      c := Answered(c, ai.text, userName, userEmail, now);
      memory := memory[id := c];
      assert memory == old(memory)[id := c];
      // a failed upsert is logged and ignored
      if dbOk {
        db := db[id := Persisted(db, id, c)];
      }
      reply := Replied(id, ai.text, now);
    }

    /** `POST /end`. */
    method End(conversationId: Option<string>, userEmail: Option<string>, userName: Option<string>,
               now: int, mailOk: bool, markOk: bool) returns (reply: EndReply)
      modifies this
      ensures (Snapshot(), reply) == EndConversation(old(Snapshot()), conversationId, userEmail, userName, now, mailOk, markOk)
    {
      if !Present(conversationId) {
        return EndRejected(400, IdRequired);
      }
      var id := conversationId.value;
      var found := Lookup(Snapshot(), id);
      if found.None? || found.value.messages == [] {
        return EndRejected(404, NotFound);
      }
      var c := Renamed(found.value, userEmail, userName);
      if id in memory {
        memory := memory[id := c];
      }
      if !mailOk {
        return EndFailed;
      }
      outbox := outbox + [MailFor(c)];
      if !markOk {
        return EndFailed;
      }
      if id in db {
        db := db[id := db[id].(emailSent := true, emailSentAt := Some(now))];
      }
      memory := memory - {id};
      assert memory == old(memory) - {id};
      reply := Ended;
    }

    /** The hourly cleanup: drops every conversation idle for more than a day. */
    method Sweep(now: int)
      modifies this
      ensures memory == Swept(old(memory), now)
      ensures db == old(db) && outbox == old(outbox)
    {
      var ids := memory.Keys;
      ghost var before := memory;
      while ids != {}
        invariant ids <= before.Keys
        invariant db == old(db) && outbox == old(outbox)
        invariant forall id :: id in memory <==>
                    id in before && (id in ids || now - before[id].lastMessageAt <= MaxAge)
        invariant forall id :: id in memory ==> memory[id] == before[id]
        decreases ids
      {
        var id :| id in ids;
        if now - memory[id].lastMessageAt > MaxAge {
          memory := memory - {id};
        }
        ids := ids - {id};
      }
      assert memory == Swept(before, now);
    }
  }
}
