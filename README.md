# Actor registry and per-user agent, modelled in Dafny

This project models the core of a Rust/actix backend that runs one
"user actor" (an AI coaching agent) per configured assistant:

- **the manager** (`src/actors/manager.rs`): a registry from the
  stringified actor id to the agent registered under it, with handlers to
  create an agent, count agents, query whether one exists, forward a user
  query to one agent and broadcast a notification to all or some agents;
- **the user actor** (`src/actors/user_actor.rs`): the prompt it builds for
  the completion service, the decision chain of its `InteractWithUser`
  handler, and its two helpers `fetch_response_from_openai` and
  `store_chat_in_vector_db`.

Files:

- `wrappers.dfy` — `Option`, `Result`, `StartsWith`, `EndsWith`.
- `message.dfy` — the request records of `src/actors/message.rs` that the
  modelled handlers use.
- `user_actor.dfy` — module `UserActor`: pure functions. Every environment
  read and HTTP exchange is an input (`Env`): whether `OPENAI_API_KEY` and
  `PINECONE_API_KEY` are set, how the completion and vector-store requests
  ended, and the random UUID that ends the stored record's id. The handler
  returns the prompt it sent, the record it sent and its reply.
- `manager.dfy` — module `Manager`: the class `Manager` whose field
  `actors: map<string, AgentConfig>` is the registry, with one method per
  handler; the create step as a function on tables with lemmas about runs of
  creates; and a client module `ManagerClient` that, with the agent and
  query of the integration test, creates an agent twice, counts, asks it the
  query, forwards to it and to an unknown id, and broadcasts.

Modelling decisions:

- The manager calls the agent's constructor with eight arguments (the new
  `Uuid`, then the owner's `user_id`, then the configuration), while
  `UserActor::new` takes seven, starting with `id: String`. The model takes
  one mapping: the table entry stores all the fields of the `CreateActor`
  message (`AgentConfig`, owner id included), the key is the stringified
  actor id, and the agent registered under key `k` is `UserActor(k, actors[k])`,
  so the agent's own `id` is its actor id. No handler reads the owner id.
- The freshly generated id is a parameter of `CreateActor` (already
  stringified), so a collision can be forced. The handler's `Ok(actor_id)`
  is modelled as that string.
- Forwarding returns which agent receives which `InteractWithUser`, and
  takes the agent mailbox's answer as a parameter (`Answered(result)` or
  `MailboxError`). Broadcasting returns the `InteractWithActor`
  notifications; each goes to the agent registered under its `actorId`. The
  table's iteration order is unspecified, so the loop picks keys with `:|`.
- A missing `PINECONE_API_KEY` makes the handler `unwrap` an error, which
  panics; the model's reply is then `Panicked`, a distinct outcome, and no
  store request is sent.
- The handler follows the code as written: a vector-store transport failure
  fails the whole interaction with "Failed to store chat in vector database"
  (src/actors/user_actor.rs:219-221); the handler waits for the store request instead
  of detaching it; the store's HTTP status is not checked on this path (only
  `store_chat_in_vector_db` checks it); and the stored record's `user_id` is
  the agent's own id, not the requesting user's.

## Model

| member | source | states |
|---|---|---|
| `Manager.Manager.constructor` | src/actors/manager.rs:15-19 | a new manager has an empty table, so its count is 0 |
| `Manager.Manager.CreateActor` | src/actors/manager.rs:89-111 | the new table is the create step of the old one: a free id is added and returned, the count grows by one, earlier keys stay; a taken id gives an error and leaves the table as it was |
| `Manager.Create` | src/actors/manager.rs:90-110 | on a free id: `Ok(id)`, keys are the old keys plus the id, the new entry holds the message's configuration, size grows by exactly one; on a taken id: an error containing "already exists" and the same table; in both cases every earlier entry is kept unchanged |
| `Manager.ConfigOf` | src/actors/manager.rs:97-106 | the agent is configured from every field of the create request, owned by the requesting user: the request can be read back from the configuration unchanged |
| `Manager.DuplicateError` | src/actors/manager.rs:92-95 | the duplicate-id error text contains "already exists" |
| `Manager.RunCreatesKeeps` | src/actors/manager.rs:109 | after any run of creates every entry that existed before is still present with the same configuration (entries are never removed or overwritten) |
| `Manager.RunCreatesRegisters` | src/actors/manager.rs:89-111 | over any run of creates there is one result per request, the table grows by exactly the number of successful creates, and the returned ids are new, pairwise distinct and still registered at the end |
| `Manager.Lookup` | src/actors/manager.rs:48 | finds an agent exactly when the id is a key, and the agent found carries that id and its stored configuration |
| `Manager.Manager.GetActorCount` | src/actors/manager.rs:117-119 | returns the number of keys and changes nothing |
| `Manager.Manager.QueryActorState` | src/actors/manager.rs:47-53 | `Ok("Actor {id} is active")` if and only if the id is registered, otherwise `Err("Actor {id} not found")`; read-only |
| `Manager.Manager.ForwardToActor` | src/actors/manager.rs:125-147 | an unknown id routes to no agent and returns "No actor found for user {u} and actor {a}"; a known id routes exactly that agent an `InteractWithUser` with the same user id and query, and returns its answer, or "Actor failed to respond" on a mailbox error; read-only |
| `Manager.Manager.BroadcastNotification` | src/actors/manager.rs:29-41 | always `Ok(())`; the notified ids are all registered ids when the recipient list is empty, otherwise the registered ids that are listed; each notified agent gets exactly one notification, with the unchanged text; read-only |
| `Manager.Selected` | src/actors/manager.rs:31 | an empty recipient list selects every agent; a non-empty one selects exactly the ids at some position of the list |
| `UserActor.Join` | src/actors/user_actor.rs:162 | the goals joined with ", ": a non-empty list's text starts with its first goal |
| `UserActor.JoinEnds` | src/actors/user_actor.rs:162 | an empty goal list joins to the empty text and a single goal to itself; a longer list's text starts with the first goal and ends with the last, so there is no leading or trailing separator |
| `UserActor.JoinLength` | src/actors/user_actor.rs:162 | a non-empty list's joined text is as long as its goals together plus one separator between each neighbouring pair |
| `UserActor.JoinAppend` | src/actors/user_actor.rs:45 | joining two non-empty lists back to back puts exactly one separator between their joined texts |
| `UserActor.Prompt` | src/actors/user_actor.rs:155-165 | the prompt's length is the template's fixed text plus the five inserted values |
| `UserActor.PromptSlots` | src/actors/user_actor.rs:155-165 | the prompt fills the template: the opening "You are a ", expertise, " life coach with a ", personality, " personality. You are helping the user achieve the following goals: ", goals, ". Use your knowledge base: ", knowledge base, ". Respond to this user query: " and the query, each at the offset where the one before it ends, together covering the whole prompt |
| `UserActor.FilledTemplateIsPrompt` | src/actors/user_actor.rs:155-165 | the converse: any text that fills the template with the five values is the prompt, so the template description determines the prompt exactly |
| `UserActor.AgentPrompt` | src/actors/user_actor.rs:45-56 | the prompt an agent sends fills the template with its expertise, its personality, its goals joined with ", ", its knowledge base and the query |
| `UserActor.PromptDeterminesQuery` | src/actors/user_actor.rs:164 | derived from the query being the template's last slot: for one agent, equal prompts mean equal queries |
| `UserActor.IsSuccess` | src/actors/user_actor.rs:118 | a status counts as success exactly when it is in the 2xx class |
| `UserActor.RecordFor` | src/actors/user_actor.rs:197-209 | the stored record's id starts with `chat-<user id>-`, and its user id, actor id, query and response are the given ones |
| `UserActor.FetchResponse` | src/actors/user_actor.rs:39-82 | no prompt is sent exactly when the OpenAI key is missing, which gives "OpenAI API key not found"; a transport error gives "Request failed: " plus the reason, an unparsable body "Failed to parse response: " plus the reason, a missing `choices[0].text` "No response text found"; the result is `Ok` exactly when that text exists, and is that text; the prompt sent is the agent's prompt for the query |
| `UserActor.StoreChat` | src/actors/user_actor.rs:84-126 | a record is sent exactly when the Pinecone key is set (otherwise "Pinecone API key not found"); a transport error gives "Request failed: " plus the reason; the result is `Ok(())` exactly when the response status is 2xx, and any other status gives an error starting "Failed to store interaction: " |
| `UserActor.Handle` | src/actors/user_actor.rs:143-225 | sends the same prompt and fails with the same error as `FetchResponse`, and then stores nothing; after a completion text, a missing Pinecone key panics with nothing stored; otherwise it stores the record `chat-<agent id>-<uuid>` with the agent's id as both user and actor id, the query and the text, and returns the text unless the store request failed in transport, in which case "Failed to store chat in vector database"; no store happens without a completion request; "OpenAI API key not found" is returned exactly when that key is missing |
| `UserActor.HandleIgnoresRequestUser` | src/actors/user_actor.rs:145-147 | the handler's behaviour does not depend on the request's user id |
| `UserActor.HandleIgnoresStoreStatus` | src/actors/user_actor.rs:212-223 | with a completion text and a delivered non-2xx store response, the handler still returns the text while `StoreChat` on the same response fails, and both send the same record |

## Left out

- HTTP requests to the completion service and the vector store, and every
  environment variable read: they are inputs of the model (`Env`), not
  performed. The JSON request bodies (model name, `max_tokens`, bearer and
  `Api-Key` headers, endpoint URLs) are not modelled; only the prompt and the
  stored record's fields are.
- The actix runtime: mailboxes, `ResponseFuture`, `do_send`/`send`, and every
  claim about concurrency, suspension or ordering between agents. The model is
  sequential: each handler is one step on the table.
- Manager.Manager.ForwardToActor: takes the agent's mailbox answer as a
  parameter instead of running the agent, so it does not say what the
  runtime answers when the agent's handler panics.
- Floating-point values: the completion `temperature` and the placeholder
  embedding vector, and `generate_embedding`, which always succeeds and so
  never triggers its `?`.
- Random UUID generation (version 4 UUIDs, section 5.4 of RFC 9562): the
  actor id and the record-id suffix are parameters.
- The service wrappers under `src/services/`, the HTTP routes under
  `src/routes/`, `src/main.rs`: I/O and server glue outside this core.
- The stub handlers `ActivateTask` and `TrackTaskProgress` (they print and
  return constants) and the broadcast receiver `Handler<InteractWithActor>`
  (it only prints and returns `Ok(())`).
- The message records without handlers: `StoreInteraction`,
  `AssignPersonality`, `FetchHistoricalInteractions`, `SaveState`,
  `LoadState`.
- The integration tests drive a live server over HTTP; the client module
  uses their agent and query but takes the completion's answer, the store
  response and the ids as values, and does not model the HTTP routes.
