/**
 * The request records exchanged between the HTTP layer, the manager and the
 * per-user agents (src/actors/message.rs). Only the records that some modelled
 * handler consumes or produces are declared here.
 */
module Message {
  import opened Wrappers

  /** Create a new agent for `userId` with the given configuration. */
  datatype CreateActor = CreateActor(
    userId: string,
    name: string,
    personality: string,
    expertise: string,
    goals: seq<string>,
    knowledgeBase: string,
    pictureUrl: Option<string>)

  /** A query routed by the manager to the agent registered under `actorId`. */
  datatype ForwardToActor = ForwardToActor(userId: string, actorId: string, query: string)

  /** The request an agent answers: a user query. */
  datatype InteractWithUser = InteractWithUser(userId: string, query: string)

  /** A notification for every agent (empty `recipients`) or the listed ones. */
  datatype BroadcastNotification = BroadcastNotification(message: string, recipients: seq<string>)

  /** The notification one agent receives from a broadcast. */
  datatype InteractWithActor = InteractWithActor(actorId: string, message: string)

  /** Ask whether an agent is registered. */
  datatype QueryActorState = QueryActorState(actorId: string)
}
