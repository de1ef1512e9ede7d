/**
 * The actor registry and router (src/actors/manager.rs). The manager owns one
 * table from the stringified actor id to the agent registered under it; each
 * handler is one sequential step on that table. The random id of a new agent
 * is an input, and forwarding and broadcasting report which agent receives
 * which message instead of sending it.
 */
module Manager {
  import opened Wrappers
  import opened Message
  import opened UserActor

  /** The registry: actor id to the configuration the agent was started with. */
  type Table = map<string, AgentConfig>

  /** The configuration recorded for an agent created from `msg`. */
  function ConfigOf(msg: CreateActor): (c: AgentConfig)
    ensures c.ownerId == msg.userId
    ensures MessageOf(c) == msg
  {
    AgentConfig(msg.userId, msg.name, msg.personality, msg.pictureUrl, msg.expertise, msg.goals, msg.knowledgeBase)
  }

  /** The create request that describes configuration `c`, its owner as the requesting user. */
  function MessageOf(c: AgentConfig): CreateActor {
    CreateActor(c.ownerId, c.name, c.personality, c.expertise, c.goals, c.knowledgeBase, c.pictureUrl)
  }

  /** The agent registered under `actorId`, if any. */
  function Lookup(table: Table, actorId: string): (a: Option<UserActor>)
    ensures a.Some? <==> actorId in table
    ensures a.Some? ==> a.value.id == actorId && a.value.config == table[actorId]
  {
    if actorId in table then Some(UserActor(actorId, table[actorId])) else None
  }

  /** `s` contains `t` starting at offset `i`. */
  predicate ContainsAt(s: string, t: string, i: int) {
    0 <= i <= |s| - |t| && s[i..i + |t|] == t
  }

  /** `s` contains `t` somewhere. */
  ghost predicate ContainsText(s: string, t: string) {
    exists i :: ContainsAt(s, t, i)
  }

  const AlreadyExists := "already exists"

  /** The error of a create whose generated id is taken. */
  function DuplicateError(userId: string, actorId: string): (e: string)
    ensures ContainsText(e, AlreadyExists)
  {
    var before := "Actor for user " + userId + " ";
    var e := before + AlreadyExists + " with actor_id " + actorId;
    assert ContainsAt(e, AlreadyExists, |before|);
    e
  }

  /**
   * One create step on a table: a taken id is refused and changes nothing;
   * a free id is added with the new configuration, and nothing else changes.
   */
  function Create(table: Table, msg: CreateActor, freshId: string): (out: (Result<string, string>, Table))
    ensures freshId in table ==> out.0.Err? && ContainsText(out.0.error, AlreadyExists) && out.1 == table
    ensures freshId !in table ==>
              && out.0 == Ok(freshId)
              && out.1.Keys == table.Keys + {freshId}
              && out.1[freshId] == ConfigOf(msg)
              && |out.1| == |table| + 1
    ensures forall id :: id in table ==> id in out.1 && out.1[id] == table[id]
  {
    if freshId in table then (Err(DuplicateError(msg.userId, freshId)), table)
    else (Ok(freshId), table[freshId := ConfigOf(msg)])
  }

  /** One create request: the message and the id the generator produced for it. */
  datatype CreateRequest = CreateRequest(msg: CreateActor, freshId: string)

  /** Running creates one after another: their results and the final table. */
  function RunCreates(table: Table, reqs: seq<CreateRequest>): (seq<Result<string, string>>, Table)
    decreases |reqs|
  {
    if reqs == [] then ([], table)
    else
      var step := Create(table, reqs[0].msg, reqs[0].freshId);
      var rest := RunCreates(step.1, reqs[1..]);
      ([step.0] + rest.0, rest.1)
  }

  /** The ids of the successful creates among `rs`, in order. */
  function CreatedIds(rs: seq<Result<string, string>>): seq<string> {
    if rs == [] then []
    else (if rs[0].Ok? then [rs[0].value] else []) + CreatedIds(rs[1..])
  }

  /** The table after a run of creates keeps every earlier entry unchanged. */
  lemma {:induction false} RunCreatesKeeps(table: Table, reqs: seq<CreateRequest>)
    decreases |reqs|
    ensures forall id :: id in table ==> id in RunCreates(table, reqs).1 && RunCreates(table, reqs).1[id] == table[id]
  {
    if reqs != [] {
      var step := Create(table, reqs[0].msg, reqs[0].freshId);
      RunCreatesKeeps(step.1, reqs[1..]);
    }
  }

  /** Splitting off the first result. */
  lemma CreatedIdsCons(r: Result<string, string>, rs: seq<Result<string, string>>)
    ensures CreatedIds([r] + rs) == (if r.Ok? then [r.value] else []) + CreatedIds(rs)
  {
    assert ([r] + rs)[1..] == rs;
  }

  /** `ids` are registered in `t`, are new with respect to `table`, and are pairwise distinct. */
  ghost predicate FreshlyRegistered(table: Table, ids: seq<string>, t: Table) {
    && |t| == |table| + |ids|
    && (forall i :: 0 <= i < |ids| ==> ids[i] in t && ids[i] !in table)
    && (forall i, j :: 0 <= i < j < |ids| ==> ids[i] != ids[j])
  }

  /** A successful create in front of a run keeps `FreshlyRegistered`. */
  lemma FreshlyRegisteredCons(table: Table, id: string, next: Table, ids: seq<string>, t: Table)
    requires id !in table && next.Keys == table.Keys + {id} && |next| == |table| + 1
    requires id in t
    requires FreshlyRegistered(next, ids, t)
    ensures FreshlyRegistered(table, [id] + ids, t)
  {
    var all := [id] + ids;
    forall i | 0 <= i < |all| ensures all[i] in t && all[i] !in table {
      if i > 0 { assert all[i] == ids[i - 1]; }
    }
    forall i, j | 0 <= i < j < |all| ensures all[i] != all[j] {
      assert all[j] == ids[j - 1];
      if i > 0 { assert all[i] == ids[i - 1]; }
    }
  }

  /**
   * Over any run of creates: one result per request, and the table grows by
   * exactly the successful ones, whose ids are new, pairwise distinct and
   * still registered at the end.
   */
  lemma {:induction false} RunCreatesRegisters(table: Table, reqs: seq<CreateRequest>)
    decreases |reqs|
    ensures |RunCreates(table, reqs).0| == |reqs|
    ensures FreshlyRegistered(table, CreatedIds(RunCreates(table, reqs).0), RunCreates(table, reqs).1)
  {
    if reqs != [] {
      var step := Create(table, reqs[0].msg, reqs[0].freshId);
      var rest := RunCreates(step.1, reqs[1..]);
      RunCreatesRegisters(step.1, reqs[1..]);
      CreatedIdsCons(step.0, rest.0);
      if step.0.Ok? {
        RunCreatesKeeps(step.1, reqs[1..]);
        FreshlyRegisteredCons(table, reqs[0].freshId, step.1, CreatedIds(rest.0), rest.1);
      }
    }
  }

  /** How an agent's mailbox answered a forwarded request. */
  datatype MailboxReply = Answered(result: Result<string, string>) | MailboxError

  /** A forwarded request and the agent it is delivered to. */
  datatype Routed = Routed(target: UserActor, request: InteractWithUser)

  const ActorFailed := "Actor failed to respond"

  /** The registry and router. */
  class Manager {
    var actors: Table

    /** A new manager has no agents. */
    constructor ()
      ensures actors == map[] && |actors| == 0
    {
      actors := map[];
    }

    /**
     * Register an agent under the generated id `freshId`; refuse, changing
     * nothing, when that id is already registered.
     */
    method CreateActor(msg: CreateActor, freshId: string) returns (r: Result<string, string>)
      modifies this
      ensures (r, actors) == Create(old(actors), msg, freshId)
      ensures r.Ok? <==> freshId !in old(actors)
      ensures old(actors).Keys <= actors.Keys
      ensures r.Ok? ==> |actors| == |old(actors)| + 1 && r.value in actors
      ensures r.Err? ==> actors == old(actors)
    {
      if freshId in actors {
        return Err(DuplicateError(msg.userId, freshId));
      }
      actors := actors[freshId := ConfigOf(msg)];
      r := Ok(freshId);
    }

    /** The number of registered agents. */
    method GetActorCount() returns (n: nat)
      ensures n == |actors.Keys|
    {
      n := |actors|;
    }

    /** Whether `msg.actorId` is registered, as a message. */
    method QueryActorState(msg: QueryActorState) returns (r: Result<string, string>)
      ensures r.Ok? <==> msg.actorId in actors
      ensures r.Ok? ==> r.value == "Actor " + msg.actorId + " is active"
      ensures r.Err? ==> r.error == "Actor " + msg.actorId + " not found"
    {
      if Lookup(actors, msg.actorId).Some? {
        r := Ok("Actor " + msg.actorId + " is active");
      } else {
        r := Err("Actor " + msg.actorId + " not found");
      }
    }

    /**
     * Route a query to the agent registered under `msg.actorId`. An unknown id
     * is refused without contacting any agent; a known one receives the query
     * with the caller's user id, and its reply (given as `mailbox`) is returned.
     */
    method ForwardToActor(msg: ForwardToActor, mailbox: MailboxReply) returns (routed: Option<Routed>, r: Result<string, string>)
      ensures routed.None? <==> msg.actorId !in actors
      ensures routed.None? ==> r == Err("No actor found for user " + msg.userId + " and actor " + msg.actorId)
      ensures routed.Some? ==>
                && routed.value.target == UserActor(msg.actorId, actors[msg.actorId])
                && routed.value.request == InteractWithUser(msg.userId, msg.query)
                && r == (if mailbox.Answered? then mailbox.result else Err(ActorFailed))
    {
      var userId := msg.userId;
      var actorId := msg.actorId;
      var query := msg.query;
      match Lookup(actors, actorId)
      case Some(actor) =>
        routed := Some(Routed(actor, InteractWithUser(userId, query)));
        r := if mailbox.Answered? then mailbox.result else Err(ActorFailed);
      case None =>
        routed := None;
        r := Err("No actor found for user " + userId + " and actor " + actorId);
    }

    /**
     * Notify every registered agent (when `msg.recipients` is empty) or the
     * registered agents that are listed. Each notified agent gets exactly one
     * notification, carrying its own id and the unchanged text; ids listed but
     * not registered are skipped. `deliveries[i]` goes to the agent registered
     * under `deliveries[i].actorId`; the order follows the table's iteration
     * order, which is unspecified.
     */
    method BroadcastNotification(msg: BroadcastNotification) returns (deliveries: seq<InteractWithActor>, r: Result<(), string>)
      ensures r == Ok(())
      ensures forall i :: 0 <= i < |deliveries| ==> deliveries[i].message == msg.message
      ensures forall i, j :: 0 <= i < j < |deliveries| ==> deliveries[i].actorId != deliveries[j].actorId
      ensures Recipients(deliveries) ==
                if msg.recipients == [] then actors.Keys else actors.Keys * Elements(msg.recipients)
    {
      deliveries := [];
      var remaining := actors.Keys;
      while remaining != {}
        invariant remaining <= actors.Keys
        invariant forall i :: 0 <= i < |deliveries| ==> deliveries[i].message == msg.message
        invariant forall i :: 0 <= i < |deliveries| ==> deliveries[i].actorId !in remaining
        invariant forall i, j :: 0 <= i < j < |deliveries| ==> deliveries[i].actorId != deliveries[j].actorId
        invariant Recipients(deliveries) == set id | id in actors.Keys - remaining && Selected(msg, id)
        decreases remaining
      {
        var actorId :| actorId in remaining;
        if Selected(msg, actorId) {
          RecipientsAppend(deliveries, InteractWithActor(actorId, msg.message));
          deliveries := deliveries + [InteractWithActor(actorId, msg.message)];
        }
        remaining := remaining - {actorId};
      }
      r := Ok(());
    }
  }

  /** The broadcast's test for one registered id: no recipient list, or listed. */
  predicate Selected(msg: BroadcastNotification, actorId: string): (b: bool)
    ensures msg.recipients == [] ==> b
    ensures msg.recipients != [] ==>
              (b <==> exists i :: 0 <= i < |msg.recipients| && msg.recipients[i] == actorId)
  {
    msg.recipients == [] || actorId in msg.recipients
  }

  /** The ids the notifications in `ds` are addressed to. */
  function Recipients(ds: seq<InteractWithActor>): set<string> {
    set i | 0 <= i < |ds| :: ds[i].actorId
  }

  /** Appending a notification adds its id to the recipients. */
  lemma RecipientsAppend(ds: seq<InteractWithActor>, d: InteractWithActor)
    ensures Recipients(ds + [d]) == Recipients(ds) + {d.actorId}
  {
    var ds' := ds + [d];
    assert ds'[|ds|] == d;
    forall id | id in Recipients(ds) ensures id in Recipients(ds') {
      var i :| 0 <= i < |ds| && ds[i].actorId == id;
      assert ds'[i] == ds[i];
    }
  }

  /** The ids listed in `s`. */
  function Elements(s: seq<string>): set<string> {
    set x | x in s
  }
}

/** A client of the registry, with the agent and the query of the system's integration test. */
module ManagerClient {
  import opened Wrappers
  import opened Message
  import opened UserActor
  import opened Manager

  /** The create request the integration test sends. */
  function TestCreate(): CreateActor {
    CreateActor("user1", "Test Actor", "balanced", "Health & Fitness",
                ["I need to make sure I am eating healthy.", "I need to lose 25lbs!"],
                "Fitness and nutrition expertise with focus on weight management",
                Some("https://images.unsplash.com/photo-1594824476967-48c8b964273f"))
  }

  /** Creating an agent registers it once; repeating the create under the same id is refused. */
  method CreateTwice(coachId: string) {
    var m := new Manager();
    var created := m.CreateActor(TestCreate(), coachId);
    assert created == Ok(coachId);
    var count := m.GetActorCount();
    assert count == 1;

    var again := m.CreateActor(TestCreate(), coachId);
    assert again.Err?;
    count := m.GetActorCount();
    assert count == 1;
  }

  /** The created agent answers the integration test's query with the completion's text. */
  method AskCoach(coachId: string, recordUuid: string) {
    var question := "What should I eat after a workout?";
    var env := Env(true, Delivered(Parsed(Some("Eat protein."))), true, Delivered(HttpResponse(500, None)), recordUuid);
    var interaction := Handle(UserActor(coachId, ConfigOf(TestCreate())), InteractWithUser("user1", question), env);
    assert interaction.reply == Replied(Ok("Eat protein."));
  }

  /** Forwarding to a created agent and to an unknown id, and broadcasting. */
  method CreateThenInteract(coachId: string, unknownId: string)
    requires coachId != unknownId
  {
    var m := new Manager();
    var created := m.CreateActor(TestCreate(), coachId);
    assert created == Ok(coachId);

    var question := "What should I eat after a workout?";
    var coach := UserActor(coachId, ConfigOf(TestCreate()));
    var routed, answer := m.ForwardToActor(ForwardToActor("user1", coachId, question), Answered(Ok("Eat protein.")));
    assert routed == Some(Routed(coach, InteractWithUser("user1", question)));
    assert answer == Ok("Eat protein.");

    var missed, error := m.ForwardToActor(ForwardToActor("user1", unknownId, question), MailboxError);
    assert missed.None? && error.Err?;

    var notified, ok := m.BroadcastNotification(BroadcastNotification("hello", [unknownId]));
    assert Recipients(notified) == {};
    notified, ok := m.BroadcastNotification(BroadcastNotification("hello", []));
    assert Recipients(notified) == {coachId};
  }
}
