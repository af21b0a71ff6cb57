/**
 * The services around the registration table, each proved to take the step Registrations gives
 * it, and the count queries that read it.
 */
module RegistrationServices {
  import opened Common
  import opened TelegramFooter
  import opened Registrations
  import Text

  /** Where an agent can be reached; empty strings count as not set. */
  datatype Channels = Channels(telegramChat: string, webhookUrl: string)

  /** The registrations among `ids` that belong to a bounty. */
  function Of(regs: map<RegistrationId, Registration>, ids: set<RegistrationId>, bounty: JobId): set<RegistrationId> {
    set id | id in ids && id in regs && regs[id].bounty == bounty
  }

  function CountIn(counts: map<JobId, nat>, bounty: JobId): nat {
    if bounty in counts then counts[bounty] else 0
  }

  lemma OfAdd(regs: map<RegistrationId, Registration>, ids: set<RegistrationId>, id: RegistrationId, bounty: JobId)
    requires id in regs && id !in ids
    ensures |Of(regs, ids + {id}, bounty)| == |Of(regs, ids, bounty)| + (if regs[id].bounty == bounty then 1 else 0)
  {
    if regs[id].bounty == bounty {
      assert Of(regs, ids + {id}, bounty) == Of(regs, ids, bounty) + {id};
    } else {
      assert Of(regs, ids + {id}, bounty) == Of(regs, ids, bounty);
    }
  }

  /** The message an update carries, as received; no text is no message. */
  function Received(message: Option<string>): Action {
    if message.None? then Ignore else Receive(message.value)
  }

  /** An accepted update writes the submission its message makes; any other update writes nothing. */
  ghost function UpdateEffect(t: Tables, env: Environment, reply: Result<Option<string>>, message: Option<string>,
                              chat: string, newId: Option<DeliverableId>): Tables
  {
    match Received(message)
    case Submit(id, content) => if reply.Ok? then Apply(t, env, SubmitTelegram(chat, id, content, newId)) else t
    case _ => t
  }

  /** What the chat is answered. */
  ghost function UpdateReply(t: Tables, env: Environment, message: Option<string>, chat: string,
                             newId: Option<DeliverableId>): Option<string>
  {
    match Received(message)
    case StartReply => Some("Your chat ID")
    case Ignore => None
    case Submit(id, content) =>
      var error := TelegramError(t, env, chat, id, content, newId);
      if error.Some? then error else Some("Submission received")
  }

  class Service {
    const env: Environment
    const telegramEnabled: bool
    const webhookSecret: string
    var registrations: map<RegistrationId, Registration>
    var deliverables: map<DeliverableId, Deliverable>
    var queue: seq<QueuedJob>
    var exhausted: set<RegistrationId>
    var reputation: seq<ReputationCall>

    function State(): Tables
      reads this
    {
      Tables(registrations, deliverables, queue, exhausted, reputation)
    }

    constructor (env: Environment, telegramEnabled: bool, webhookSecret: string)
      ensures this.env == env && this.telegramEnabled == telegramEnabled && this.webhookSecret == webhookSecret
      ensures State() == EMPTY_TABLES
    {
      this.env, this.telegramEnabled, this.webhookSecret := env, telegramEnabled, webhookSecret;
      registrations, deliverables, queue, exhausted, reputation := map[], map[], [], {}, [];
    }

    // ---- Registration -----------------------------------------------------------------------

    /** Insert, enqueue the dispatch job, report to reputation. */
    method RegisterAgent(id: RegistrationId, bounty: JobId, agent: AgentId, owner: UserId, nonce: string)
      modifies this
      ensures State() == Apply(old(State()), env, Register(id, bounty, agent, owner, nonce))
      ensures registrations == old(registrations)[id := Registration(bounty, agent, owner, Pending, None, nonce)]
      ensures queue == old(queue) + [QueuedJob(id, 0)] && reputation == old(reputation) + [RegisteredFor(agent)]
      ensures deliverables == old(deliverables) && exhausted == old(exhausted)
    {
      registrations := registrations[id := Registration(bounty, agent, owner, Pending, None, nonce)];
      queue := queue + [QueuedJob(id, 0)];
      reputation := reputation + [RegisteredFor(agent)];
    }

    method DeregisterAgent(bounty: JobId, agent: AgentId)
      modifies this`registrations
      ensures State() == Apply(old(State()), env, Deregister(bounty, agent))
      ensures forall id :: id in registrations <==>
        id in old(registrations) && (old(registrations)[id].bounty != bounty || old(registrations)[id].agent != agent)
      ensures forall id :: id in registrations ==> registrations[id] == old(registrations)[id]
    {
      registrations := map id | id in registrations
                                && !(registrations[id].bounty == bounty && registrations[id].agent == agent)
                             :: registrations[id];
    }

    method RetryDispatch(id: RegistrationId) returns (queued: bool)
      modifies this`queue
      ensures State() == Apply(old(State()), env, Registrations.RetryDispatch(id))
      ensures queued <==> id in registrations
      ensures queue == if id in registrations then old(queue) + [QueuedJob(id, 0)] else old(queue)
    {
      if id !in registrations {
        return false;
      }
      queue := queue + [QueuedJob(id, 0)];
      return true;
    }

    /** Queued and not yet submitted: exactly what a polling owner has to pick up. */
    method GetDispatched(owner: UserId) returns (rows: seq<RegistrationId>)
      ensures NoDuplicates(rows)
      ensures forall id :: id in rows <==>
        id in registrations && registrations[id].owner == owner
        && registrations[id].dispatch.Queued? && registrations[id].deliverable.None?
    {
      rows := Listing(set id | id in registrations && registrations[id].owner == owner
                               && registrations[id].dispatch == Queued && registrations[id].deliverable == None);
    }

    /** What the scheduler decides on: the work a bounty has to show, one deliverable per counted registration. */
    method CountSubmitted(bounty: JobId) returns (count: nat)
      ensures count == |Submitted(registrations, bounty)| <= |Registered(registrations, bounty)|
      ensures count > 0 <==> exists id :: id in registrations && registrations[id].bounty == bounty
                                          && registrations[id].deliverable != None
      ensures DeliverablesOk(State()) ==> count == |LiveDeliverables(State(), bounty)|
    {
      SubsetSize(Submitted(registrations, bounty), Registered(registrations, bounty));
      if DeliverablesOk(State()) {
        LiveDeliverablesCounted(State(), bounty);
      }
      if id :| id in registrations && registrations[id].bounty == bounty && registrations[id].deliverable != None {
        assert id in Submitted(registrations, bounty);
      }
      if id :| id in Submitted(registrations, bounty) {
        assert registrations[id].deliverable != None;
      }
      count := |set id | id in registrations && registrations[id].bounty == bounty
                         && registrations[id].deliverable.Some?|;
    }

    // ---- Dispatch ---------------------------------------------------------------------------

    /**
     * One attempt at the job in place `at`. Telegram first, then the webhook, else polling; a
     * missing bounty or agent and a failed post throw, which costs the job an attempt.
     */
    method ProcessNext(at: nat, bountyFound: bool, agent: Option<Channels>, postOk: bool) returns (attempt: Attempt)
      requires at < |queue|
      modifies this
      ensures State() == Apply(old(State()), env, Process(at, attempt))
      ensures attempt == NoChannel <==>
        bountyFound && agent.Some? && agent.value.webhookUrl == ""
        && (agent.value.telegramChat == "" || !telegramEnabled)
      ensures attempt == Delivered <==>
        bountyFound && agent.Some? && postOk
        && (agent.value.webhookUrl != "" || (agent.value.telegramChat != "" && telegramEnabled))
      ensures var job := old(queue)[at];
        && (attempt != Failed ==>
              && queue == old(queue)[..at] + old(queue)[at + 1..] && exhausted == old(exhausted)
              && registrations.Keys == old(registrations).Keys
              && (forall id :: id in registrations && id != job.registration ==>
                    registrations[id] == old(registrations)[id])
              && (job.registration in registrations ==>
                    registrations[job.registration] == old(registrations)[job.registration]
                      .(dispatch := if attempt == Delivered then Dispatched else Queued)))
        && (attempt == Failed ==> registrations == old(registrations))
        && (attempt == Failed && job.attemptsMade < 2 ==>
              && queue == old(queue)[at := QueuedJob(job.registration, job.attemptsMade + 1)]
              && exhausted == old(exhausted))
        && (attempt == Failed && job.attemptsMade >= 2 ==>
              && queue == old(queue)[..at] + old(queue)[at + 1..]
              && exhausted == old(exhausted) + {job.registration})
      ensures deliverables == old(deliverables) && reputation == old(reputation)
    {
      var job := queue[at];
      if !bountyFound || agent.None? {
        attempt := Failed;
      } else if agent.value.telegramChat != "" && telegramEnabled {
        attempt := if postOk then Delivered else Failed;
      } else if agent.value.webhookUrl != "" {
        attempt := if postOk then Delivered else Failed;
      } else {
        attempt := NoChannel;
      }
      if attempt == Failed {
        if job.attemptsMade + 1 < ATTEMPTS {
          queue := queue[at := job.(attemptsMade := job.attemptsMade + 1)];
        } else {
          queue := Without(queue, at);
          exhausted := exhausted + {job.registration};
        }
      } else {
        var written := if attempt == Delivered then Dispatched else Queued;
        if job.registration in registrations {
          registrations := registrations[job.registration := registrations[job.registration].(dispatch := written)];
        }
        queue := Without(queue, at);
      }
    }

    // ---- Submission -------------------------------------------------------------------------

    /** Submission over HTTP. `newId` is the inserted row's id, None when the insert fails. */
    method HandleSubmission(b: HttpSubmission, newId: Option<DeliverableId>) returns (result: Result<DeliverableId>)
      modifies this
      ensures State() == Apply(old(State()), env, SubmitHttp(b, newId))
      ensures match HttpError(old(State()), env, b, newId)
              case Some(message) => result == Err(message)
              case None => newId.Some? && result == Ok(newId.value)
      ensures var id := b.registration;
        var own := id in old(registrations) && old(registrations)[id].agent == b.agent;
        var unsubmitted := own && old(registrations)[id].deliverable == None;
        var tokenOk := b.agent !in env.tokens || env.tokens[b.agent] == "" || b.token == Some(env.tokens[b.agent]);
        var sigOk := b.agent !in env.tokens || env.tokens[b.agent] == ""
                     || (own && (old(registrations)[id].nonce == ""
                                 || b.sig == Some(env.sha256Hex(old(registrations)[id].nonce + ":" + id))));
        && (result.Ok? <==> unsubmitted && tokenOk && sigOk && b.fileOk && newId.Some?)
        && (!own ==> result == Err("Registration not found"))
        && (own && !unsubmitted ==> result == Err("Deliverable already submitted"))
        && (unsubmitted && !tokenOk ==> result == Err("Invalid agent_token"))
        && (unsubmitted && tokenOk && !sigOk ==> result == Err("Invalid nonce_sig"))
      ensures result.Err? ==> State() == old(State())
      ensures result.Ok? ==>
        var r := old(registrations)[b.registration];
        && deliverables == old(deliverables)[result.value := Deliverable(r.bounty, b.registration, b.agent, b.notes)]
        && registrations
           == old(registrations)[b.registration := r.(deliverable := Some(result.value), dispatch := Dispatched)]
        && reputation == old(reputation)
           + [SubmittedBy(b.agent, r.bounty !in env.deadlines || b.now <= env.deadlines[r.bounty])]
        && queue == old(queue)
    {
      if b.registration !in registrations || registrations[b.registration].agent != b.agent {
        return Err("Registration not found");
      }
      var r := registrations[b.registration];
      if r.deliverable.Some? {
        return Err("Deliverable already submitted");
      }
      var credentials := CredentialError(env, r, b.registration, b.token, b.sig);
      if credentials.Some? {
        return Err(credentials.value);
      }
      var wasOnTime := if r.bounty in env.deadlines then b.now <= env.deadlines[r.bounty] else true;
      if !b.fileOk {
        return Err("Failed to download deliverable from the provided URL");
      }
      if newId.None? {
        return Err("Failed to create deliverable record");
      }
      deliverables := deliverables[newId.value := Deliverable(r.bounty, b.registration, b.agent, b.notes)];
      registrations := registrations[b.registration := r.(deliverable := newId, dispatch := Dispatched)];
      reputation := reputation + [SubmittedBy(b.agent, wasOnTime)];
      return Ok(newId.value);
    }

    /**
     * A Telegram update. With a wrong secret header, or without a text, nothing happens; else only a
     * tagged reply can write, and it writes what the parser made of it.
     */
    method HandleUpdate(incomingSecret: Option<string>, message: Option<string>, chat: string,
                        newId: Option<DeliverableId>) returns (reply: Result<Option<string>>)
      modifies this
      ensures reply.Err? <==> webhookSecret != "" && incomingSecret != Some(webhookSecret)
      ensures State() == UpdateEffect(old(State()), env, reply, message, chat, newId)
      ensures reply.Ok? ==> reply.value == UpdateReply(old(State()), env, message, chat, newId)
      ensures reply.Err? || message == None || !Tagged(Text.Trim(message.value)) ==> State() == old(State())
      ensures reply.Ok? && message != None && Tagged(Text.Trim(message.value)) ==>
        var text := Text.Trim(message.value);
        State() == Apply(old(State()), env, SubmitTelegram(chat, text[1..37], Text.Trim(text[38..]), newId))
    {
      if webhookSecret != "" && incomingSecret != Some(webhookSecret) {
        return Err("Invalid secret token");
      }
      if message.None? || message.value == "" {
        return Ok(None);
      }
      ReceiveMeaning(message.value);
      match Receive(message.value)
      case StartReply => reply := Ok(Some("Your chat ID"));
      case Ignore => reply := Ok(None);
      case Submit(id, content) =>
        var text := ProcessSubmission(chat, id, content, newId);
        reply := Ok(Some(text));
    }

    method ProcessSubmission(chat: string, id: RegistrationId, content: string, newId: Option<DeliverableId>)
      returns (reply: string)
      modifies this
      ensures State() == Apply(old(State()), env, SubmitTelegram(chat, id, content, newId))
      ensures reply == match TelegramError(old(State()), env, chat, id, content, newId)
                       case Some(error) => error
                       case None => "Submission received"
      ensures var own := id in old(registrations) && old(registrations)[id].agent in env.chats
                         && env.chats[old(registrations)[id].agent] == chat;
        var accepted := own && old(registrations)[id].deliverable == None && newId.Some? &&
          var (r, parsed) := (old(registrations)[id], Parse(content));
          || r.agent !in env.tokens || env.tokens[r.agent] == ""
          || (parsed.agentToken == Some(env.tokens[r.agent])
              && (r.nonce == "" || parsed.nonceSig == Some(env.sha256Hex(r.nonce + ":" + id))));
        && (accepted ==>
              && deliverables == old(deliverables)[newId.value :=
                   Deliverable(old(registrations)[id].bounty, id, old(registrations)[id].agent, Parse(content).content)]
              && registrations == old(registrations)[id :=
                   old(registrations)[id].(deliverable := newId, dispatch := Dispatched)])
        && (!accepted ==> deliverables == old(deliverables) && registrations == old(registrations))
      ensures queue == old(queue) && reputation == old(reputation) && exhausted == old(exhausted)
    {
      TelegramAcceptedIff(State(), env, chat, id, content, newId);
      if id !in registrations {
        return "Registration not found";
      }
      var r := registrations[id];
      if !(r.agent in env.chats && env.chats[r.agent] == chat) {
        return "This registration belongs to a different agent";
      }
      if r.deliverable.Some? {
        return "A submission for this registration already exists";
      }
      var parsed := ParseSubmissionFooter(content);
      var credentials := CredentialError(env, r, id, parsed.agentToken, parsed.nonceSig);
      if credentials.Some? {
        return credentials.value;
      }
      if newId.None? {
        return "Failed to save your submission";
      }
      deliverables := deliverables[newId.value := Deliverable(r.bounty, id, r.agent, parsed.content)];
      registrations := registrations[id := r.(deliverable := newId, dispatch := Dispatched)];
      return "Submission received";
    }

    // ---- Counts -----------------------------------------------------------------------------

    /** Counts rows per bounty in one pass over the query's answer. */
    method Tallied(rows: seq<RegistrationId>) returns (counts: map<JobId, nat>)
      requires NoDuplicates(rows) && forall id :: id in rows ==> id in registrations
      ensures forall bounty :: CountIn(counts, bounty) == |Of(registrations, (set id | id in rows), bounty)|
    {
      counts := map[];
      ghost var done: set<RegistrationId> := {};
      for i := 0 to |rows|
        invariant forall id :: id in done <==> id in rows[..i]
        invariant forall bounty :: CountIn(counts, bounty) == |Of(registrations, done, bounty)|
      {
        assert rows[i] in rows && rows[i] !in rows[..i];
        assert rows[..i + 1] == rows[..i] + [rows[i]];
        var id := registrations[rows[i]].bounty;
        forall bounty: JobId
          ensures |Of(registrations, done + {rows[i]}, bounty)|
               == CountIn(counts, bounty) + (if id == bounty then 1 else 0)
        {
          OfAdd(registrations, done, rows[i], bounty);
        }
        counts := counts[id := (if id in counts then counts[id] else 0) + 1];
        done := done + {rows[i]};
      }
      assert rows[..|rows|] == rows;
      assert done == (set id | id in rows);
    }

    /** Agrees with CountSubmitted on every requested bounty. */
    method FetchSubmissionCounts(ids: set<JobId>) returns (counts: map<JobId, nat>)
      ensures forall bounty :: bounty in ids ==> CountIn(counts, bounty) == |Submitted(registrations, bounty)|
      ensures forall bounty :: bounty in ids && bounty in counts ==>
        counts[bounty] == |set id | id in registrations && registrations[id].bounty == bounty
                                    && registrations[id].deliverable != None|
      ensures forall bounty, id :: bounty in ids && bounty !in counts && id in registrations ==>
        registrations[id].bounty != bounty || registrations[id].deliverable == None
      ensures forall bounty :: bounty !in ids ==> CountIn(counts, bounty) == 0
    {
      var selected := set id | id in registrations && registrations[id].bounty in ids
                               && registrations[id].deliverable.Some?;
      var rows := Listing(selected);
      counts := Tallied(rows);
      assert (set id | id in rows) == selected;
      forall bounty: JobId
        ensures Of(registrations, selected, bounty) == if bounty in ids then Submitted(registrations, bounty) else {}
      {
      }
      forall bounty: JobId, id | bounty in ids && bounty !in counts && id in registrations
                                 && registrations[id].bounty == bounty
        ensures registrations[id].deliverable == None
      {
        assert CountIn(counts, bounty) == 0 == |Submitted(registrations, bounty)|;
        assert id !in Submitted(registrations, bounty);
      }
      forall bounty: JobId | bounty in ids && bounty in counts
        ensures counts[bounty] == |set id | id in registrations && registrations[id].bounty == bounty
                                            && registrations[id].deliverable != None|
      {
        assert CountIn(counts, bounty) == |Submitted(registrations, bounty)|;
        assert Submitted(registrations, bounty)
            == set id | id in registrations && registrations[id].bounty == bounty
                        && registrations[id].deliverable != None;
      }
    }

    method FetchRegistrationCounts(ids: set<JobId>) returns (counts: map<JobId, nat>)
      ensures forall bounty :: bounty in ids ==> CountIn(counts, bounty) == |Registered(registrations, bounty)|
      ensures forall bounty :: bounty in ids && bounty in counts ==>
        counts[bounty] == |set id | id in registrations && registrations[id].bounty == bounty|
      ensures forall bounty, id :: bounty in ids && bounty !in counts && id in registrations ==>
        registrations[id].bounty != bounty
      ensures forall bounty :: bounty !in ids ==> CountIn(counts, bounty) == 0
    {
      var selected := set id | id in registrations && registrations[id].bounty in ids;
      var rows := Listing(selected);
      counts := Tallied(rows);
      assert (set id | id in rows) == selected;
      forall bounty: JobId
        ensures Of(registrations, selected, bounty) == if bounty in ids then Registered(registrations, bounty) else {}
      {
      }
      forall bounty: JobId, id | bounty in ids && bounty !in counts && id in registrations
        ensures registrations[id].bounty != bounty
      {
        assert CountIn(counts, bounty) == 0 == |Registered(registrations, bounty)|;
        assert id !in Registered(registrations, bounty);
      }
      forall bounty: JobId | bounty in ids && bounty in counts
        ensures counts[bounty] == |set id | id in registrations && registrations[id].bounty == bounty|
      {
        assert CountIn(counts, bounty) == |Registered(registrations, bounty)|;
      }
    }
  }
}
