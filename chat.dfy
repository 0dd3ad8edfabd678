/**
 * Conversation storage and prompt assembly (queryPineconeAndQueryGPT.js.js):
 * the history string of a conversation, appending a turn to a stored
 * conversation, and the answer function's sequence of saves, lookups,
 * the vector query and the chat call.
 */
module Chat {
  import opened Wrappers
  import opened JsText
  import opened Documents

  /** The fields a conversation record is found by. */
  datatype ConversationKey = ConversationKey(clientName: string, visitorId: string, chatbotId: string)

  /** The `_id` the database gives a stored turn. */
  type MessageId = nat

  /** One element of a record's `content`: who spoke, what was said, and when (an abstract instant). */
  datatype Turn = Turn(id: MessageId, sender: string, text: string, timestamp: nat)

  /** A stored conversation record. */
  datatype Conversation = Conversation(content: seq<Turn>, lastModified: nat)

  /** The conversation collection: the records by key, and the next `_id` the database hands out. */
  datatype Store = Store(conversations: map<ConversationKey, Conversation>, nextId: MessageId)

  /** The customization collection's key and the one field the answer function reads. */
  datatype CustomizationKey = CustomizationKey(email: string, chatbotId: string)
  datatype Customization = Customization(sysPrompt: string)

  // ---------------------------------------------------------------------------
  // The history string (getCurrentChatContext)
  // ---------------------------------------------------------------------------

  /** `sender + ": " + text + "\n"`. */
  function TurnLine(t: Turn): string {
    t.sender + ": " + t.text + "\n"
  }

  /** The history after the loop has visited every turn of `content`, built as the loop builds it, by appending. */
  function History(content: seq<Turn>): string
    decreases |content|
  {
    if content == [] then "" else History(content[..|content| - 1]) + TurnLine(content[|content| - 1])
  }

  /** An independent reading of the same string: the first turn's line, then the rest. */
  function HistoryFromFront(content: seq<Turn>): string
    decreases |content|
  {
    if content == [] then "" else TurnLine(content[0]) + HistoryFromFront(content[1..])
  }

  /** The history of two consecutive stretches of turns is the one history after the other. */
  lemma {:induction false} HistoryAppend(a: seq<Turn>, b: seq<Turn>)
    ensures History(a + b) == History(a) + History(b)
    decreases |b|
  {
    if b == [] {
      assert a + b == a;
    } else {
      var front, last := b[..|b| - 1], b[|b| - 1];
      var c := a + b;
      assert c[..|c| - 1] == a + front;
      assert c[|c| - 1] == last;
      HistoryAppend(a, front);
      assert History(b) == History(front) + TurnLine(last);
    }
  }

  /** Folding from the back and from the front give the same string: every turn's line, in order. */
  lemma {:induction false} HistoriesAgree(content: seq<Turn>)
    ensures History(content) == HistoryFromFront(content)
    decreases |content|
  {
    if content != [] {
      var first, rest := [content[0]], content[1..];
      assert first + rest == content;
      HistoryAppend(first, rest);
      HistoriesAgree(rest);
      assert first[..0] == [];
      assert History(first) == TurnLine(content[0]);
    }
  }

  /** Each turn adds at least its ": " and line feed, the history ends in a line feed, and it is "" exactly for no turns. */
  lemma {:induction false} HistoryLength(content: seq<Turn>)
    ensures |History(content)| >= 3 * |content|
    ensures content != [] ==> History(content)[|History(content)| - 1] == '\n'
    ensures content == [] <==> History(content) == ""
    decreases |content|
  {
    if content != [] {
      HistoryLength(content[..|content| - 1]);
    }
  }

  // ---------------------------------------------------------------------------
  // Appending a turn (saveCurrentChatContext)
  // ---------------------------------------------------------------------------

  /** What one save does to the collection, and the `_id` it returns. */
  datatype Saved = Saved(store: Store, id: Option<MessageId>)

  /**
   * `findOneAndUpdate(key, {$push: {content: turn}, $set: {lastModified}}, {new: true})`
   * followed by reading the last element's `_id`. Without an existing record
   * the update finds nothing and returns `null`; reading `.err` on it throws,
   * the error is caught, and the function returns undefined.
   */
  function Save(st: Store, key: ConversationKey, sender: string, text: string, now: nat): Saved {
    if key in st.conversations then
      var c := st.conversations[key];
      var turn := Turn(st.nextId, sender, text, now);
      Saved(Store(st.conversations[key := Conversation(c.content + [turn], now)], st.nextId + 1), Some(st.nextId))
    else Saved(st, None)
  }

  /** Every stored turn's `_id` is below the next one to be handed out. */
  ghost predicate IdsBelowNext(st: Store) {
    forall k, t :: k in st.conversations && t in st.conversations[k].content ==> t.id < st.nextId
  }

  /**
   * A save of an existing record appends exactly one turn at the end of that
   * record, leaves every other record as it was, and returns the `_id` of the
   * appended (last) element; without a record nothing changes and the result
   * is undefined.
   */
  lemma SaveAppends(st: Store, key: ConversationKey, sender: string, text: string, now: nat)
    ensures var r := Save(st, key, sender, text, now);
      && (r.id.Some? <==> key in st.conversations)
      && (r.id.None? ==> r.store == st)
      && (r.id.Some? ==>
            && r.store.conversations.Keys == st.conversations.Keys
            && (forall k :: k in st.conversations && k != key ==> r.store.conversations[k] == st.conversations[k])
            && var content := r.store.conversations[key].content;
            && content == st.conversations[key].content + [content[|content| - 1]]
            && content[|content| - 1] == Turn(r.id.value, sender, text, now)
            && r.store.conversations[key].lastModified == now)
  {
  }

  /** The returned `_id` is new: no turn stored before has it, and the ids stay below the next one. */
  lemma SaveFreshId(st: Store, key: ConversationKey, sender: string, text: string, now: nat)
    requires IdsBelowNext(st)
    ensures var r := Save(st, key, sender, text, now);
      && IdsBelowNext(r.store)
      && (r.id.Some? ==> forall k, t :: k in st.conversations && t in st.conversations[k].content ==> t.id != r.id.value)
  {
    var r := Save(st, key, sender, text, now);
    if key in st.conversations {
      forall k, t | k in r.store.conversations && t in r.store.conversations[k].content
        ensures t.id < r.store.nextId
      {
        if k == key && t !in st.conversations[key].content {
          assert t == Turn(st.nextId, sender, text, now);
        }
      }
    }
  }

  // ---------------------------------------------------------------------------
  // Prompt assembly
  // ---------------------------------------------------------------------------

  /** The number of matches asked for (queryPineconeAndQueryGPT.js.js:128). */
  const TopK: nat := 3

  /** The vector query's request body. */
  datatype QueryRequest = QueryRequest(vector: Embedding, topK: nat, includeValues: bool, includeMetadata: bool, namespace: string)

  /** The two metadata fields of a query match that the answer function reads. */
  datatype Match = Match(pageContent: string, txtPath: SourceId)

  /** The page contents of the matches, in the order they were returned. */
  function PageContents(matches: seq<Match>): (pcs: seq<string>)
    ensures |pcs| == |matches| && forall i :: 0 <= i < |matches| ==> pcs[i] == matches[i].pageContent
  {
    if matches == [] then [] else [matches[0].pageContent] + PageContents(matches[1..])
  }

  /** The sources of the matches as `join` renders them, in the order they were returned. */
  function SourceTexts(matches: seq<Match>): (srcs: seq<string>)
    ensures |srcs| == |matches|
  {
    if matches == [] then [] else [SourceText(matches[0].txtPath)] + SourceTexts(matches[1..])
  }

  /** Element `i` is match `i`'s source as a template literal renders it. */
  lemma {:induction false} SourceTextsAt(matches: seq<Match>, i: nat)
    requires i < |matches|
    ensures SourceTexts(matches)[i] == SourceText(matches[i].txtPath)
    decreases i
  {
    if i > 0 {
      SourceTextsAt(matches[1..], i - 1);
    }
  }

  /** `matches.map(match => match.metadata.pageContent).join(" ")`. */
  function ContextString(matches: seq<Match>): string {
    JoinWithSpace(PageContents(matches))
  }

  /** `matches.map(match => match.metadata.txtPath).join(" ")`. */
  function SourceString(matches: seq<Match>): string {
    JoinWithSpace(SourceTexts(matches))
  }

  /**
   * Match `i`'s page content sits in the context string at `Offset`, followed
   * by a single space unless it is the last.
   */
  lemma ContextHoldsEachMatch(matches: seq<Match>, i: nat)
    requires i < |matches|
    ensures var pcs := PageContents(matches); var ctx := ContextString(matches); var at := Offset(pcs, i);
      && at + |matches[i].pageContent| <= |ctx|
      && ctx[at..at + |matches[i].pageContent|] == matches[i].pageContent
      && (i + 1 < |matches| ==> at + |matches[i].pageContent| < |ctx| && ctx[at + |matches[i].pageContent|] == ' ')
  {
    JoinAt(PageContents(matches), i);
  }

  /**
   * Match `i`'s rendered source sits in the source string at `Offset`,
   * followed by a single space unless it is the last.
   */
  lemma SourceHoldsEachMatch(matches: seq<Match>, i: nat)
    requires i < |matches|
    ensures var srcs := SourceTexts(matches); var src := SourceString(matches); var at := Offset(srcs, i);
      && at + |srcs[i]| <= |src|
      && src[at..at + |srcs[i]|] == srcs[i] == SourceText(matches[i].txtPath)
      && (i + 1 < |matches| ==> at + |srcs[i]| < |src| && src[at + |srcs[i]|] == ' ')
  {
    JoinAt(SourceTexts(matches), i);
    SourceTextsAt(matches, i);
  }

  /** When no page content has a space, splitting the context string on spaces gives back the matches' contents in order. */
  lemma ContextSplitsBack(matches: seq<Match>)
    requires |matches| >= 1
    requires forall i :: 0 <= i < |matches| ==> SpaceFree(matches[i].pageContent)
    ensures SplitOnSpace(ContextString(matches)) == PageContents(matches)
  {
    SplitJoin(PageContents(matches));
  }

  /**
   * The system message template after substitution: the customization's
   * prompt, then the context and source lines, each indented by eight spaces.
   */
  function SystemMessage(sysPrompt: string, context: string, source: string): string {
    sysPrompt + "\n        CONTEXT: " + context + "\n        SOURCE: " + source + "\n        "
  }

  /**
   * The prompt comes first; the context follows the "CONTEXT: " label and
   * the source the "SOURCE: " label, each label starting a new line indented
   * by eight spaces, and the message ends with a line feed and eight spaces.
   */
  lemma SystemMessageLayout(sysPrompt: string, context: string, source: string)
    ensures var m := SystemMessage(sysPrompt, context, source);
      var c := |sysPrompt| + 18;
      var s := c + |context| + 17;
      && |m| == s + |source| + 9
      && m[..|sysPrompt|] == sysPrompt
      && m[|sysPrompt|..c - 9] == "\n        "
      && m[c - 9..c] == "CONTEXT: " && m[c..c + |context|] == context
      && m[c + |context|..s - 8] == "\n        "
      && m[s - 8..s] == "SOURCE: " && m[s..s + |source|] == source
      && m[s + |source|..] == "\n        "
  {
  }

  /**
   * What the chain sends: the system message, the `history` placeholder and
   * the question. The chain's memory is a `BufferMemory` created for this one
   * call, so the placeholder holds no earlier messages.
   */
  datatype ChatPrompt = ChatPrompt(system: string, history: seq<string>, input: string)

  // ---------------------------------------------------------------------------
  // The answer function (queryPineconeVectorStoreAndQueryLLM)
  // ---------------------------------------------------------------------------

  /** The embedder of the question, the vector index's query and the chat chain, as oracles; `None` is a rejection. */
  datatype QueryServices = QueryServices(
    embedQuery: string -> Option<Embedding>,
    query: QueryRequest -> Option<seq<Match>>,
    chat: ChatPrompt -> Option<string>)

  /** One call into the outside world. */
  datatype Effect =
    | SavedTurn(key: ConversationKey, sender: string, text: string)
    | LookedUpCustomization(customizationKey: CustomizationKey)
    | EmbeddedQuery(question: string)
    | QueriedIndex(request: QueryRequest)
    | CalledChat(prompt: ChatPrompt)

  /** Which awaited call rejected the answer function's promise. */
  datatype AnswerFailure = MissingCustomization | EmbeddingFailed | QueryFailed | ChatFailed

  /**
   * How the answer function settles: rejected, resolved undefined with no
   * matches, or `{data, messageId}`. `response` is the chain output's
   * `response` field, the reply text; `data` itself is the whole output object.
   */
  datatype Answer = Rejected(reason: AnswerFailure) | NoMatches | Answered(response: string, messageId: Option<MessageId>)

  /** The settlement, the conversation collection afterwards, and the calls made, in order. */
  datatype AnswerRun = AnswerRun(answer: Answer, store: Store, effects: seq<Effect>)

  /** The answer function as a whole, from the collections and the oracles to its outcome. */
  function AnswerQuestion(st: Store, customizations: map<CustomizationKey, Customization>, question: string,
                          clientName: string, chatbotId: string, visitorId: string, askedAt: nat, answeredAt: nat,
                          svc: QueryServices): AnswerRun
  {
    var key := ConversationKey(clientName, visitorId, chatbotId);
    var ckey := CustomizationKey(clientName, chatbotId);
    var asked := Save(st, key, "Visitor", question, askedAt);
    var started := [SavedTurn(key, "Visitor", question), LookedUpCustomization(ckey)];
    if ckey !in customizations then AnswerRun(Rejected(MissingCustomization), asked.store, started)
    else
      var embedded := svc.embedQuery(question);
      var afterEmbed := started + [EmbeddedQuery(question)];
      if embedded.None? then AnswerRun(Rejected(EmbeddingFailed), asked.store, afterEmbed)
      else
        var request := QueryRequest(embedded.value, TopK, true, true, chatbotId);
        var afterQuery := afterEmbed + [QueriedIndex(request)];
        var response := svc.query(request);
        if response.None? then AnswerRun(Rejected(QueryFailed), asked.store, afterQuery)
        else if |response.value| == 0 then AnswerRun(NoMatches, asked.store, afterQuery)
        else
          var matches := response.value;
          var prompt := ChatPrompt(SystemMessage(customizations[ckey].sysPrompt, ContextString(matches), SourceString(matches)), [], question);
          var afterChat := afterQuery + [CalledChat(prompt)];
          var reply := svc.chat(prompt);
          if reply.None? then AnswerRun(Rejected(ChatFailed), asked.store, afterChat)
          else
            var answered := Save(asked.store, key, "AI", reply.value, answeredAt);
            AnswerRun(Answered(reply.value, answered.id), answered.store, afterChat + [SavedTurn(key, "AI", reply.value)])
  }

  /**
   * The visitor's question is saved first, before the customization lookup,
   * and the question is embedded and the index queried only after that.
   */
  lemma VisitorSavedFirst(st: Store, customizations: map<CustomizationKey, Customization>, question: string,
                          clientName: string, chatbotId: string, visitorId: string, askedAt: nat, answeredAt: nat,
                          svc: QueryServices)
    ensures var run := AnswerQuestion(st, customizations, question, clientName, chatbotId, visitorId, askedAt, answeredAt, svc);
      && 2 <= |run.effects| <= 6
      && run.effects[0] == SavedTurn(ConversationKey(clientName, visitorId, chatbotId), "Visitor", question)
      && run.effects[1] == LookedUpCustomization(CustomizationKey(clientName, chatbotId))
      && (forall i :: 0 <= i < |run.effects| && (run.effects[i].EmbeddedQuery? || run.effects[i].QueriedIndex?) ==> i >= 2)
  {
  }

  /**
   * A missing customization is found only after the question was saved: the
   * promise rejects, and the store is what the visitor's save left (the
   * question is stored only when the visitor's record exists).
   */
  lemma MissingCustomizationAfterSave(st: Store, customizations: map<CustomizationKey, Customization>, question: string,
                                      clientName: string, chatbotId: string, visitorId: string, askedAt: nat, answeredAt: nat,
                                      svc: QueryServices)
    requires CustomizationKey(clientName, chatbotId) !in customizations
    ensures var run := AnswerQuestion(st, customizations, question, clientName, chatbotId, visitorId, askedAt, answeredAt, svc);
      && run.answer == Rejected(MissingCustomization)
      && run.store == Save(st, ConversationKey(clientName, visitorId, chatbotId), "Visitor", question, askedAt).store
      && |run.effects| == 2
  {
  }

  /** Every vector query asks for the top 3 matches with values and metadata, in the chatbot's namespace. */
  lemma QueryInChatbotNamespace(st: Store, customizations: map<CustomizationKey, Customization>, question: string,
                                clientName: string, chatbotId: string, visitorId: string, askedAt: nat, answeredAt: nat,
                                svc: QueryServices)
    ensures var run := AnswerQuestion(st, customizations, question, clientName, chatbotId, visitorId, askedAt, answeredAt, svc);
      forall i :: 0 <= i < |run.effects| && run.effects[i].QueriedIndex? ==>
        var r := run.effects[i].request;
        r.topK == TopK && r.includeValues && r.includeMetadata && r.namespace == chatbotId
        && Some(r.vector) == svc.embedQuery(question)
  {
  }

  /**
   * With zero matches the chat is never called, no AI turn is saved, and the
   * function resolves undefined; the store is what the visitor's save left
   * (the question is stored only when the visitor's record exists).
   */
  lemma NoChatWithoutMatches(st: Store, customizations: map<CustomizationKey, Customization>, question: string,
                             clientName: string, chatbotId: string, visitorId: string, askedAt: nat, answeredAt: nat,
                             svc: QueryServices)
    ensures var run := AnswerQuestion(st, customizations, question, clientName, chatbotId, visitorId, askedAt, answeredAt, svc);
      && (run.answer.NoMatches? <==>
            CustomizationKey(clientName, chatbotId) in customizations
            && svc.embedQuery(question).Some?
            && svc.query(QueryRequest(svc.embedQuery(question).value, TopK, true, true, chatbotId)) == Some([]))
      && (run.answer.NoMatches? ==>
            && run.store == Save(st, ConversationKey(clientName, visitorId, chatbotId), "Visitor", question, askedAt).store
            && forall i :: 0 <= i < |run.effects| ==> !run.effects[i].CalledChat? && !(run.effects[i].SavedTurn? && run.effects[i].sender == "AI"))
  {
  }

  /**
   * Whichever call rejects (the customization lookup, the embedding, the
   * query or the chat), the visitor's question was saved first and stays as
   * that save left it: the store is the one after the visitor's save.
   */
  lemma RejectionKeepsQuestion(st: Store, customizations: map<CustomizationKey, Customization>, question: string,
                               clientName: string, chatbotId: string, visitorId: string, askedAt: nat, answeredAt: nat,
                               svc: QueryServices)
    ensures var run := AnswerQuestion(st, customizations, question, clientName, chatbotId, visitorId, askedAt, answeredAt, svc);
      run.answer.Rejected? ==>
        && run.store == Save(st, ConversationKey(clientName, visitorId, chatbotId), "Visitor", question, askedAt).store
        && run.effects[0] == SavedTurn(ConversationKey(clientName, visitorId, chatbotId), "Visitor", question)
        && forall i :: 0 <= i < |run.effects| ==> !(run.effects[i].SavedTurn? && run.effects[i].sender == "AI")
  {
  }

  /**
   * When the chat answers, exactly two turns are appended to an existing
   * conversation, the visitor's question and then the reply, and the
   * returned `messageId` is the second one's id; the prompt carries the
   * matches' context and sources, no history, and the question as input.
   */
  lemma AnsweredAppendsTwoTurns(st: Store, customizations: map<CustomizationKey, Customization>, question: string,
                                clientName: string, chatbotId: string, visitorId: string, askedAt: nat, answeredAt: nat,
                                svc: QueryServices)
    ensures var run := AnswerQuestion(st, customizations, question, clientName, chatbotId, visitorId, askedAt, answeredAt, svc);
      var key := ConversationKey(clientName, visitorId, chatbotId);
      run.answer.Answered? ==>
        && |run.effects| == 6
        && run.effects[4].CalledChat?
        && run.effects[3].QueriedIndex?
        && var m := svc.query(run.effects[3].request);
        && m.Some? && |m.value| >= 1
        && run.effects[4].prompt.system
           == SystemMessage(customizations[CustomizationKey(clientName, chatbotId)].sysPrompt, ContextString(m.value), SourceString(m.value))
        && run.effects[4].prompt.history == [] && run.effects[4].prompt.input == question
        && svc.chat(run.effects[4].prompt) == Some(run.answer.response)
        && run.effects[5] == SavedTurn(key, "AI", run.answer.response)
        && (key in st.conversations ==>
              && run.store.conversations == st.conversations[key := Conversation(
                   st.conversations[key].content + [Turn(st.nextId, "Visitor", question, askedAt), Turn(st.nextId + 1, "AI", run.answer.response, answeredAt)],
                   answeredAt)]
              && run.answer.messageId == Some(st.nextId + 1))
        && (key !in st.conversations ==> run.store == st && run.answer.messageId.None?)
  {
    var run := AnswerQuestion(st, customizations, question, clientName, chatbotId, visitorId, askedAt, answeredAt, svc);
    var key := ConversationKey(clientName, visitorId, chatbotId);
    if run.answer.Answered? && key in st.conversations {
      var c := st.conversations[key].content;
      var asked := Turn(st.nextId, "Visitor", question, askedAt);
      var replied := Turn(st.nextId + 1, "AI", run.answer.response, answeredAt);
      assert (c + [asked]) + [replied] == c + [asked, replied];
    }
  }

  // ---------------------------------------------------------------------------
  // The database and the external services, as one object with a call log
  // ---------------------------------------------------------------------------

  /**
   * The conversation and customization collections together with the
   * embedder, the index and the chat model; `trace` records every call,
   * reads of the conversation collection excepted.
   */
  class Backend {
    var store: Store
    const customizations: map<CustomizationKey, Customization>
    ghost var trace: seq<Effect>

    constructor (store: Store, customizations: map<CustomizationKey, Customization>)
      ensures this.store == store && this.customizations == customizations && trace == []
    {
      this.store := store;
      this.customizations := customizations;
      trace := [];
    }

    /** `ChatMessage.findOne(key)`. */
    method FindConversation(key: ConversationKey) returns (found: Option<Conversation>)
      ensures found == (if key in store.conversations then Some(store.conversations[key]) else None)
    {
      found := if key in store.conversations then Some(store.conversations[key]) else None;
    }

    /** `ChatMessage.findOneAndUpdate` with `$push` and `$set`, returning the updated record (`new: true`) or `null`. */
    method PushContent(key: ConversationKey, sender: string, text: string, now: nat) returns (updated: Option<Conversation>)
      modifies this
      ensures store == Save(old(store), key, sender, text, now).store
      ensures updated == (if key in old(store.conversations) then Some(store.conversations[key]) else None)
      ensures trace == old(trace) + [SavedTurn(key, sender, text)]
    {
      var found := key in store.conversations;
      store := Save(store, key, sender, text, now).store;
      updated := if found then Some(store.conversations[key]) else None;
      trace := trace + [SavedTurn(key, sender, text)];
    }

    /** `Customization.findOne({email, chatbotId})`. */
    method FindCustomization(key: CustomizationKey) returns (found: Option<Customization>)
      modifies this
      ensures store == old(store)
      ensures found == (if key in customizations then Some(customizations[key]) else None)
      ensures trace == old(trace) + [LookedUpCustomization(key)]
    {
      found := if key in customizations then Some(customizations[key]) else None;
      trace := trace + [LookedUpCustomization(key)];
    }

    /** `new OpenAIEmbeddings().embedQuery(question)`. */
    method EmbedQuery(question: string, svc: QueryServices) returns (embedding: Option<Embedding>)
      modifies this
      ensures store == old(store)
      ensures embedding == svc.embedQuery(question)
      ensures trace == old(trace) + [EmbeddedQuery(question)]
    {
      embedding := svc.embedQuery(question);
      trace := trace + [EmbeddedQuery(question)];
    }

    /** `index.query({queryRequest})`. */
    method Query(request: QueryRequest, svc: QueryServices) returns (matches: Option<seq<Match>>)
      modifies this
      ensures store == old(store)
      ensures matches == svc.query(request)
      ensures trace == old(trace) + [QueriedIndex(request)]
    {
      matches := svc.query(request);
      trace := trace + [QueriedIndex(request)];
    }

    /** `chain.call({input})`, yielding `response.response`. */
    method CallChat(prompt: ChatPrompt, svc: QueryServices) returns (reply: Option<string>)
      modifies this
      ensures store == old(store)
      ensures reply == svc.chat(prompt)
      ensures trace == old(trace) + [CalledChat(prompt)]
    {
      reply := svc.chat(prompt);
      trace := trace + [CalledChat(prompt)];
    }
  }

  /**
   * `getCurrentChatContext(clientName, visitorId, chatbotId)`: the history
   * string of the stored conversation, or "" when there is none.
   */
  method GetCurrentChatContext(db: Backend, clientName: string, visitorId: string, chatbotId: string) returns (history: string)
    ensures var key := ConversationKey(clientName, visitorId, chatbotId);
      history == if key in db.store.conversations then HistoryFromFront(db.store.conversations[key].content) else ""
  {
    var res := db.FindConversation(ConversationKey(clientName, visitorId, chatbotId));
    if res.None? {
      return "";
    }
    var content := res.value.content;
    history := "";
    var i := 0;
    while i < |content|
      invariant 0 <= i <= |content|
      invariant history == History(content[..i])
    {
      assert content[..i + 1][..i] == content[..i];
      history := history + TurnLine(content[i]);
      i := i + 1;
    }
    assert content[..i] == content;
    HistoriesAgree(content);
  }

  /**
   * `saveCurrentChatContext(sender, text, clientName, visitorId, chatbotId)`:
   * append a turn and return the last element's `_id`, or undefined when no
   * record exists.
   */
  method SaveCurrentChatContext(db: Backend, sender: string, text: string, clientName: string, visitorId: string, chatbotId: string,
                                now: nat)
    returns (id: Option<MessageId>)
    modifies db
    ensures var r := Save(old(db.store), ConversationKey(clientName, visitorId, chatbotId), sender, text, now);
      db.store == r.store && id == r.id
    ensures db.trace == old(db.trace) + [SavedTurn(ConversationKey(clientName, visitorId, chatbotId), sender, text)]
  {
    var key := ConversationKey(clientName, visitorId, chatbotId);
    var updated := db.PushContent(key, sender, text, now);
    if updated.None? {
      // `null.err` throws; the catch logs it and the function returns undefined
      return None;
    }
    var content := updated.value.content;
    id := Some(content[|content| - 1].id);
  }

  /**
   * `queryPineconeVectorStoreAndQueryLLM(question, clientName, chatbotId, visitorId)`:
   * save the question, read the system prompt, embed the question, query the
   * index and, when there are matches, ask the chat model and save its reply.
   * `askedAt` and `answeredAt` are the instants of the two saves.
   */
  method QueryPineconeVectorStoreAndQueryLLM(db: Backend, question: string, clientName: string, chatbotId: string, visitorId: string,
                                             askedAt: nat, answeredAt: nat, svc: QueryServices)
    returns (answer: Answer)
    modifies db
    ensures var run := AnswerQuestion(old(db.store), db.customizations, question, clientName, chatbotId, visitorId, askedAt, answeredAt, svc);
      answer == run.answer && db.store == run.store && db.trace == old(db.trace) + run.effects
  {
    var _ := SaveCurrentChatContext(db, "Visitor", question, clientName, visitorId, chatbotId, askedAt);
    var customization := db.FindCustomization(CustomizationKey(clientName, chatbotId));
    if customization.None? {
      // reading `sysPrompt` of null throws and the promise rejects
      return Rejected(MissingCustomization);
    }
    var queryEmbedding := db.EmbedQuery(question, svc);
    if queryEmbedding.None? {
      return Rejected(EmbeddingFailed);
    }
    var queryResponse := db.Query(QueryRequest(queryEmbedding.value, TopK, true, true, chatbotId), svc);
    if queryResponse.None? {
      return Rejected(QueryFailed);
    }
    if |queryResponse.value| == 0 {
      // no matches: the chat model is not asked and the function returns undefined
      return NoMatches;
    }
    var matches := queryResponse.value;
    var concatenatedPageContent := ContextString(matches);
    var source := SourceString(matches);
    var chatPrompt := ChatPrompt(SystemMessage(customization.value.sysPrompt, concatenatedPageContent, source), [], question);
    var response := db.CallChat(chatPrompt, svc);
    if response.None? {
      return Rejected(ChatFailed);
    }
    var messageId := SaveCurrentChatContext(db, "AI", response.value, clientName, visitorId, chatbotId, answeredAt);
    return Answered(response.value, messageId);
  }
}
