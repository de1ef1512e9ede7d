/**
 * The per-user agent (src/actors/user_actor.rs): its fixed configuration,
 * the prompt it builds for the completion service, and the decision chain of
 * its `InteractWithUser` handler. Every environment read and HTTP exchange is
 * an input: the handler is a function from their outcomes to the reply.
 */
module UserActor {
  import opened Wrappers
  import opened Message

  /** The settings an agent is created with. No handler ever changes them. */
  datatype AgentConfig = AgentConfig(
    ownerId: string,
    name: string,
    personality: string,
    pictureUrl: Option<string>,
    expertise: string,
    goals: seq<string>,
    knowledgeBase: string)

  /** A running agent: the id it was registered under and its configuration. */
  datatype UserActor = UserActor(id: string, config: AgentConfig)

  // ---------------------------------------------------------------------------
  // Prompt construction
  // ---------------------------------------------------------------------------

  /** Total number of characters in `parts`. */
  function TotalLength(parts: seq<string>): nat {
    if parts == [] then 0 else |parts[0]| + TotalLength(parts[1..])
  }

  /**
   * Rust's `join`: the parts with `sep` between neighbours.
   */
  function Join(parts: seq<string>, sep: string): (r: string)
    ensures |parts| > 0 ==> StartsWith(r, parts[0])
  {
    if parts == [] then ""
    else if |parts| == 1 then parts[0]
    else parts[0] + sep + Join(parts[1..], sep)
  }

  /**
   * An empty list joins to the empty text and one part to itself; a longer
   * list's text starts with its first part and ends with its last, so no
   * separator precedes the first part or follows the last one.
   */
  lemma {:induction false} JoinEnds(parts: seq<string>, sep: string)
    ensures parts == [] ==> Join(parts, sep) == ""
    ensures |parts| == 1 ==> Join(parts, sep) == parts[0]
    ensures |parts| > 0 ==> StartsWith(Join(parts, sep), parts[0])
    ensures |parts| > 0 ==> EndsWith(Join(parts, sep), parts[|parts| - 1])
  {
    if |parts| > 1 {
      var last := parts[|parts| - 1];
      var rest := Join(parts[1..], sep);
      JoinEnds(parts[1..], sep);
      assert parts[1..][|parts| - 2] == last;
      var r := parts[0] + sep + rest;
      assert r == Join(parts, sep);
      assert r[..|parts[0]|] == parts[0];
      assert r[|r| - |last|..] == rest[|rest| - |last|..];
    }
  }

  /** The joined text holds every part and one separator between each neighbouring pair. */
  lemma {:induction false} JoinLength(parts: seq<string>, sep: string)
    requires parts != []
    ensures |Join(parts, sep)| == TotalLength(parts) + (|parts| - 1) * |sep|
  {
    if |parts| > 1 {
      JoinLength(parts[1..], sep);
      assert (|parts| - 1) * |sep| == (|parts| - 2) * |sep| + |sep|;
    }
  }

  /** Joining two non-empty lists puts exactly one separator between their texts. */
  lemma {:induction false} JoinAppend(a: seq<string>, b: seq<string>, sep: string)
    requires a != [] && b != []
    ensures Join(a + b, sep) == Join(a, sep) + sep + Join(b, sep)
  {
    var ab := a + b;
    assert ab[0] == a[0] && |ab| > 1;
    assert Join(ab, sep) == a[0] + sep + Join(ab[1..], sep);
    if |a| == 1 {
      assert ab[1..] == b;
    } else {
      assert ab[1..] == a[1..] + b;
      JoinAppend(a[1..], b, sep);
      assert Join(a, sep) == a[0] + sep + Join(a[1..], sep);
      assert Join(ab, sep) == a[0] + sep + (Join(a[1..], sep) + sep + Join(b, sep));
    }
  }

  /** The goal list as it appears in the prompt. */
  const GoalSeparator := ", "

  /** The fixed text of the prompt template, around its five slots. */
  const Intro := "You are a "
  const AfterExpertise := " life coach with a "
  const AfterPersonality := " personality. You are helping the user achieve the following goals: "
  const AfterGoals := ". Use your knowledge base: "
  const AfterKnowledge := ". Respond to this user query: "

  /**
   * The completion prompt: the template with expertise, personality, the
   * joined goals, the knowledge base and the user query in that order.
   */
  function Prompt(expertise: string, personality: string, goals: string,
                  knowledgeBase: string, userQuery: string): (r: string)
    ensures |r| == |Intro| + |AfterExpertise| + |AfterPersonality| + |AfterGoals| + |AfterKnowledge|
                   + |expertise| + |personality| + |goals| + |knowledgeBase| + |userQuery|
  {
    Intro + (expertise + (AfterExpertise + (personality + (AfterPersonality + (goals
      + (AfterGoals + (knowledgeBase + (AfterKnowledge + userQuery))))))))
  }

  /** From offset `o`, `r` reads the text `t` and then the value `v`. */
  predicate Piece(r: string, o: nat, t: string, v: string) {
    && o + |t| + |v| <= |r|
    && r[o..o + |t|] == t
    && r[o + |t|..o + |t| + |v|] == v
  }

  /** If from offset `o` the text reads `t`, then `v`, then `y`, each starts where the previous one ends. */
  lemma SlotStep(r: string, o: nat, t: string, v: string, y: string)
    requires o <= |r| && r[o..] == t + (v + y)
    ensures o + |t| + |v| + |y| == |r|
    ensures Piece(r, o, t, v) && r[o + |t| + |v|..] == y
  {
    var w := t + (v + y);
    assert w[..|t|] == t && w[|t|..|t| + |v|] == v && w[|t| + |v|..] == y;
    assert r[o..][..|t|] == r[o..o + |t|];
    assert r[o..][|t|..|t| + |v|] == r[o + |t|..o + |t| + |v|];
    assert r[o..][|t| + |v|..] == r[o + |t| + |v|..];
  }

  /** The converse of `SlotStep`: consecutive pieces from offset `o` make up the suffix from `o`. */
  lemma SlotUnstep(r: string, o: nat, t: string, v: string, y: string)
    requires Piece(r, o, t, v) && r[o + |t| + |v|..] == y
    ensures r[o..] == t + (v + y)
  {
    assert r[o..] == r[o..o + |t|] + (r[o + |t|..o + |t| + |v|] + r[o + |t| + |v|..]);
  }

  /** `r` is the ten pieces `t0, v1, t1, ..., t4, v5`, one after another, and nothing else. */
  predicate Layout(r: string, t0: string, v1: string, t1: string, v2: string, t2: string,
                   v3: string, t3: string, v4: string, t4: string, v5: string) {
    var o1 := |t0| + |v1|;
    var o2 := o1 + |t1| + |v2|;
    var o3 := o2 + |t2| + |v3|;
    var o4 := o3 + |t3| + |v4|;
    && |r| == o4 + |t4| + |v5|
    && Piece(r, 0, t0, v1) && Piece(r, o1, t1, v2) && Piece(r, o2, t2, v3)
    && Piece(r, o3, t3, v4) && Piece(r, o4, t4, v5)
  }

  /**
   * `r` is the template filled with the five values: the template's opening
   * and its four fixed texts alternate with the values, in order, and
   * together make up all of `r`.
   */
  predicate FillsTemplate(r: string, expertise: string, personality: string, goals: string,
                          knowledgeBase: string, userQuery: string) {
    Layout(r, Intro, expertise, AfterExpertise, personality, AfterPersonality, goals,
           AfterGoals, knowledgeBase, AfterKnowledge, userQuery)
  }

  /** The first two pieces of a nested concatenation, and the rest after them. */
  lemma FrontSlots(r: string, t0: string, v1: string, t1: string, v2: string, y: string)
    requires r == t0 + (v1 + (t1 + (v2 + y)))
    ensures Piece(r, 0, t0, v1) && Piece(r, |t0| + |v1|, t1, v2)
    ensures r[|t0| + |v1| + |t1| + |v2|..] == y
  {
    assert r[0..] == r;
    SlotStep(r, 0, t0, v1, t1 + (v2 + y));
    SlotStep(r, |t0| + |v1|, t1, v2, y);
  }

  /** The last three pieces of a nested concatenation, from offset `o` to the end. */
  lemma BackSlots(r: string, o: nat, t2: string, v3: string, t3: string, v4: string, t4: string, v5: string)
    requires o <= |r| && r[o..] == t2 + (v3 + (t3 + (v4 + (t4 + v5))))
    ensures |r| == o + |t2| + |v3| + |t3| + |v4| + |t4| + |v5|
    ensures Piece(r, o, t2, v3)
    ensures Piece(r, o + |t2| + |v3|, t3, v4)
    ensures Piece(r, o + |t2| + |v3| + |t3| + |v4|, t4, v5)
  {
    SlotStep(r, o, t2, v3, t3 + (v4 + (t4 + v5)));
    var o3 := o + |t2| + |v3|;
    SlotStep(r, o3, t3, v4, t4 + v5);
    assert t4 + v5 == t4 + (v5 + "");
    SlotStep(r, o3 + |t3| + |v4|, t4, v5, "");
  }

  /** The nested concatenation of the ten pieces lays them out one after another. */
  lemma FiveSlots(t0: string, v1: string, t1: string, v2: string, t2: string,
                  v3: string, t3: string, v4: string, t4: string, v5: string)
    ensures Layout(t0 + (v1 + (t1 + (v2 + (t2 + (v3 + (t3 + (v4 + (t4 + v5)))))))),
                   t0, v1, t1, v2, t2, v3, t3, v4, t4, v5)
  {
    var back := t2 + (v3 + (t3 + (v4 + (t4 + v5))));
    var r := t0 + (v1 + (t1 + (v2 + back)));
    FrontSlots(r, t0, v1, t1, v2, back);
    BackSlots(r, |t0| + |v1| + |t1| + |v2|, t2, v3, t3, v4, t4, v5);
  }

  /** The prompt fills the template: every fixed text and every value in its place. */
  lemma PromptSlots(expertise: string, personality: string, goals: string,
                    knowledgeBase: string, userQuery: string)
    ensures FillsTemplate(Prompt(expertise, personality, goals, knowledgeBase, userQuery),
                          expertise, personality, goals, knowledgeBase, userQuery)
  {
    FiveSlots(Intro, expertise, AfterExpertise, personality, AfterPersonality, goals,
              AfterGoals, knowledgeBase, AfterKnowledge, userQuery);
  }

  /** The converse of `FiveSlots`: a text laid out as the ten pieces is their nested concatenation. */
  lemma FiveSlotsJoined(r: string, t0: string, v1: string, t1: string, v2: string, t2: string,
                        v3: string, t3: string, v4: string, t4: string, v5: string)
    requires Layout(r, t0, v1, t1, v2, t2, v3, t3, v4, t4, v5)
    ensures r == t0 + (v1 + (t1 + (v2 + (t2 + (v3 + (t3 + (v4 + (t4 + v5))))))))
  {
    var o1 := |t0| + |v1|;
    var o2 := o1 + |t1| + |v2|;
    var o3 := o2 + |t2| + |v3|;
    var o4 := o3 + |t3| + |v4|;
    SlotUnstep(r, o4, t4, v5, "");
    assert v5 + "" == v5;
    SlotUnstep(r, o3, t3, v4, r[o4..]);
    SlotUnstep(r, o2, t2, v3, r[o3..]);
    SlotUnstep(r, o1, t1, v2, r[o2..]);
    SlotUnstep(r, 0, t0, v1, r[o1..]);
    assert r == r[0..];
  }

  /**
   * The converse of `PromptSlots`: a text that fills the template with the
   * five values is the prompt, so the template description pins it exactly.
   */
  lemma FilledTemplateIsPrompt(r: string, expertise: string, personality: string, goals: string,
                               knowledgeBase: string, userQuery: string)
    requires FillsTemplate(r, expertise, personality, goals, knowledgeBase, userQuery)
    ensures r == Prompt(expertise, personality, goals, knowledgeBase, userQuery)
  {
    FiveSlotsJoined(r, Intro, expertise, AfterExpertise, personality, AfterPersonality, goals,
                    AfterGoals, knowledgeBase, AfterKnowledge, userQuery);
  }

  /** The prompt an agent builds for `userQuery` from its own configuration. */
  function AgentPrompt(agent: UserActor, userQuery: string): (r: string)
    ensures FillsTemplate(r, agent.config.expertise, agent.config.personality,
                          Join(agent.config.goals, GoalSeparator), agent.config.knowledgeBase, userQuery)
  {
    var c := agent.config;
    PromptSlots(c.expertise, c.personality, Join(c.goals, GoalSeparator), c.knowledgeBase, userQuery);
    Prompt(c.expertise, c.personality, Join(c.goals, GoalSeparator), c.knowledgeBase, userQuery)
  }

  /**
   * Derived from the template: the query is its last slot, so for one agent
   * distinct queries yield distinct prompts.
   */
  lemma PromptDeterminesQuery(agent: UserActor, q1: string, q2: string)
    requires AgentPrompt(agent, q1) == AgentPrompt(agent, q2)
    ensures q1 == q2
  {
  }

  // ---------------------------------------------------------------------------
  // Outcomes of the external calls
  // ---------------------------------------------------------------------------

  /** An HTTP request that either got a response or failed in transport. */
  datatype Transport<T> = Delivered(response: T) | TransportError(reason: string)

  /** The completion service's body: not JSON, or JSON whose `choices[0].text` may be absent. */
  datatype CompletionBody = Unparsable(reason: string) | Parsed(choiceText: Option<string>)

  /** A vector-store response: its status code and its body text, when that could be read. */
  datatype HttpResponse = HttpResponse(status: nat, body: Option<string>)

  /** `StatusCode::is_success`: a 2xx status. */
  predicate IsSuccess(status: nat): (b: bool)
    ensures b <==> status / 100 == 2
  {
    200 <= status <= 299
  }

  /**
   * Everything the handler learns from outside: whether each API key is set,
   * how each HTTP exchange ended, and the random UUID that ends the record id.
   */
  datatype Env = Env(
    openAiKeySet: bool,
    completion: Transport<CompletionBody>,
    pineconeKeySet: bool,
    vectorStore: Transport<HttpResponse>,
    recordUuid: string)

  /** The record sent to the vector store (its placeholder embedding left out). */
  datatype ChatRecord = ChatRecord(id: string, userId: string, actorId: string, query: string, response: string)

  /** The record for one exchange; its id is `chat-<userId>-<uuid>`. */
  function RecordFor(actorId: string, userId: string, query: string, response: string, uuid: string): (rec: ChatRecord)
    ensures StartsWith(rec.id, "chat-" + userId + "-")
    ensures rec.userId == userId && rec.actorId == actorId && rec.query == query && rec.response == response
  {
    var prefix := "chat-" + userId + "-";
    assert (prefix + uuid)[..|prefix|] == prefix;
    ChatRecord(prefix + uuid, userId, actorId, query, response)
  }

  // ---------------------------------------------------------------------------
  // fetch_response_from_openai
  // ---------------------------------------------------------------------------

  /** What a completion attempt did: the prompt it sent, if any, and its result. */
  datatype Completion = Completion(sentPrompt: Option<string>, result: Result<string, string>)

  const MissingOpenAiKey := "OpenAI API key not found"
  const RequestFailed := "Request failed: "
  const ParseFailed := "Failed to parse response: "
  const NoResponseText := "No response text found"

  /** The agent's completion request, given the outcomes of the key read and the HTTP exchange. */
  function FetchResponse(agent: UserActor, userQuery: string, openAiKeySet: bool,
                         completion: Transport<CompletionBody>): (c: Completion)
    ensures c.sentPrompt.None? <==> !openAiKeySet
    ensures c.sentPrompt.Some? ==> c.sentPrompt.value == AgentPrompt(agent, userQuery)
    ensures !openAiKeySet ==> c.result == Err(MissingOpenAiKey)
    ensures openAiKeySet && completion.TransportError? ==>
              c.result == Err(RequestFailed + completion.reason)
    ensures openAiKeySet && completion.Delivered? && completion.response.Unparsable? ==>
              c.result == Err(ParseFailed + completion.response.reason)
    ensures openAiKeySet && completion == Delivered(Parsed(None)) ==> c.result == Err(NoResponseText)
    ensures c.result.Ok? <==> openAiKeySet && completion.Delivered? && completion.response.Parsed?
                              && completion.response.choiceText.Some?
    ensures c.result.Ok? ==> c.result.value == completion.response.choiceText.value
  {
    if !openAiKeySet then Completion(None, Err(MissingOpenAiKey))
    else
      var prompt := AgentPrompt(agent, userQuery);
      match completion
      case TransportError(e) => Completion(Some(prompt), Err(RequestFailed + e))
      case Delivered(Unparsable(e)) => Completion(Some(prompt), Err(ParseFailed + e))
      case Delivered(Parsed(None)) => Completion(Some(prompt), Err(NoResponseText))
      case Delivered(Parsed(Some(text))) => Completion(Some(prompt), Ok(text))
  }

  // ---------------------------------------------------------------------------
  // store_chat_in_vector_db
  // ---------------------------------------------------------------------------

  /** What a store attempt did: the record it sent, if any, and its result. */
  datatype Store = Store(sentRecord: Option<ChatRecord>, result: Result<(), string>)

  const MissingPineconeKey := "Pinecone API key not found"
  const StoreRejected := "Failed to store interaction: "

  /**
   * Store one exchange: fails without a key, on a transport error, and on any
   * non-2xx status (quoting the response body, or nothing when it is unreadable).
   */
  function StoreChat(agent: UserActor, userId: string, message: string, response: string,
                     pineconeKeySet: bool, recordUuid: string, send: Transport<HttpResponse>): (s: Store)
    ensures s.sentRecord.Some? <==> pineconeKeySet
    ensures s.sentRecord.Some? ==> s.sentRecord.value == RecordFor(agent.id, userId, message, response, recordUuid)
    ensures !pineconeKeySet ==> s.result == Err(MissingPineconeKey)
    ensures pineconeKeySet && send.TransportError? ==> s.result == Err(RequestFailed + send.reason)
    ensures s.result.Ok? <==> pineconeKeySet && send.Delivered? && IsSuccess(send.response.status)
    ensures pineconeKeySet && send.Delivered? && !IsSuccess(send.response.status) ==>
              s.result.Err? && StartsWith(s.result.error, StoreRejected)
  {
    if !pineconeKeySet then Store(None, Err(MissingPineconeKey))
    else
      var rec := RecordFor(agent.id, userId, message, response, recordUuid);
      match send
      case TransportError(e) => Store(Some(rec), Err(RequestFailed + e))
      case Delivered(resp) =>
        if IsSuccess(resp.status) then Store(Some(rec), Ok(()))
        else
          var text := match resp.body case Some(b) => b case None => "";
          assert (StoreRejected + text)[..|StoreRejected|] == StoreRejected;
          Store(Some(rec), Err(StoreRejected + text))
  }

  // ---------------------------------------------------------------------------
  // Handler<InteractWithUser>
  // ---------------------------------------------------------------------------

  /** The handler's answer, or the panic of `unwrap` on a missing Pinecone key. */
  datatype Reply = Replied(result: Result<string, string>) | Panicked

  /** What handling one query did: the prompt sent, the record sent, and the reply. */
  datatype Interaction = Interaction(completionPrompt: Option<string>, storeAttempt: Option<ChatRecord>, reply: Reply)

  const StoreFailed := "Failed to store chat in vector database"

  /**
   * The `InteractWithUser` handler as written: the completion chain, then a
   * vector-store write whose transport failure fails the whole interaction and
   * whose status code is never looked at. The record's user id is the agent's
   * own id; the request's `userId` is not read.
   */
  function Handle(agent: UserActor, msg: InteractWithUser, env: Env): (r: Interaction)
    ensures var c := FetchResponse(agent, msg.query, env.openAiKeySet, env.completion);
      && r.completionPrompt == c.sentPrompt
      && (c.result.Err? ==> r.reply == Replied(c.result) && r.storeAttempt.None?)
      && (c.result.Ok? && !env.pineconeKeySet ==> r.reply.Panicked? && r.storeAttempt.None?)
      && (c.result.Ok? && env.pineconeKeySet ==>
            && r.storeAttempt == Some(RecordFor(agent.id, agent.id, msg.query, c.result.value, env.recordUuid))
            && r.reply == Replied(if env.vectorStore.TransportError? then Err(StoreFailed) else c.result))
    ensures r.storeAttempt.Some? ==> r.completionPrompt.Some?
    ensures r.reply == Replied(Err(MissingOpenAiKey)) <==> !env.openAiKeySet
  {
    var userQuery := msg.query;
    var userId := agent.id;
    var actorId := agent.id;
    var c := agent.config;
    var fullPrompt := Prompt(c.expertise, c.personality, Join(c.goals, GoalSeparator), c.knowledgeBase, userQuery);
    if !env.openAiKeySet then Interaction(None, None, Replied(Err(MissingOpenAiKey)))
    else
      match env.completion
      case TransportError(e) =>
        assert (RequestFailed + e)[0] != MissingOpenAiKey[0];
        Interaction(Some(fullPrompt), None, Replied(Err(RequestFailed + e)))
      case Delivered(Unparsable(e)) =>
        assert (ParseFailed + e)[0] != MissingOpenAiKey[0];
        Interaction(Some(fullPrompt), None, Replied(Err(ParseFailed + e)))
      case Delivered(Parsed(None)) => Interaction(Some(fullPrompt), None, Replied(Err(NoResponseText)))
      case Delivered(Parsed(Some(responseText))) =>
        var record := RecordFor(actorId, userId, userQuery, responseText, env.recordUuid);
        if !env.pineconeKeySet then Interaction(Some(fullPrompt), None, Panicked)
        else if env.vectorStore.TransportError? then Interaction(Some(fullPrompt), Some(record), Replied(Err(StoreFailed)))
        else Interaction(Some(fullPrompt), Some(record), Replied(Ok(responseText)))
  }

  /** The reply does not depend on the `userId` carried by the request. */
  lemma HandleIgnoresRequestUser(agent: UserActor, u1: string, u2: string, query: string, env: Env)
    ensures Handle(agent, InteractWithUser(u1, query), env) == Handle(agent, InteractWithUser(u2, query), env)
  {
  }

  /**
   * Unlike `StoreChat`, the handler does not check the store's status: with the
   * same record and a delivered non-2xx response, `StoreChat` fails while the
   * handler still returns the completion text.
   */
  lemma HandleIgnoresStoreStatus(agent: UserActor, msg: InteractWithUser, env: Env)
    requires env.openAiKeySet && env.pineconeKeySet
    requires env.completion.Delivered? && env.completion.response.Parsed?
    requires env.completion.response.choiceText.Some?
    requires env.vectorStore.Delivered? && !IsSuccess(env.vectorStore.response.status)
    ensures var text := env.completion.response.choiceText.value;
      var s := StoreChat(agent, agent.id, msg.query, text, true, env.recordUuid, env.vectorStore);
      && Handle(agent, msg, env).reply == Replied(Ok(text))
      && Handle(agent, msg, env).storeAttempt == s.sentRecord
      && s.result.Err?
  {
  }
}
