/**
 * The registration table with everything that writes it: registration and deregistration, the
 * dispatch queue and its processor, and the two submission channels.
 */
module Registrations {
  import opened Common
  import opened TelegramFooter
  import Text

  type RegistrationId = string
  type DeliverableId = nat
  type Time = int

  datatype DispatchState = Pending | Queued | Dispatched

  datatype Registration = Registration(
    bounty: JobId,
    agent: AgentId,
    owner: UserId,
    dispatch: DispatchState,
    deliverable: Option<DeliverableId>,
    nonce: string)

  datatype Deliverable = Deliverable(bounty: JobId, registration: RegistrationId, agent: AgentId, notes: string)

  /** A dispatch job waiting in the queue; a job is tried three times. */
  datatype QueuedJob = QueuedJob(registration: RegistrationId, attemptsMade: nat)

  const ATTEMPTS: nat := 3

  datatype ReputationCall = RegisteredFor(agent: AgentId) | SubmittedBy(agent: AgentId, wasOnTime: bool)

  datatype Tables = Tables(
    registrations: map<RegistrationId, Registration>,
    deliverables: map<DeliverableId, Deliverable>,
    queue: seq<QueuedJob>,
    exhausted: set<RegistrationId>,     // registrations with a job that used all its attempts
    reputation: seq<ReputationCall>)

  const EMPTY_TABLES := Tables(map[], map[], [], {}, [])

  /** The columns read from the agents and bounties tables, and the digest function. */
  datatype Environment = Environment(
    chats: map<AgentId, string>,
    tokens: map<AgentId, string>,
    deadlines: map<JobId, Time>,
    sha256Hex: string -> string)

  /** What one processing attempt comes to. */
  datatype Attempt = Delivered | NoChannel | Failed

  datatype HttpSubmission = HttpSubmission(
    registration: RegistrationId, agent: AgentId, token: Option<string>, sig: Option<string>,
    notes: string, now: Time, fileOk: bool)

  datatype Step =
    | Register(id: RegistrationId, bounty: JobId, agent: AgentId, owner: UserId, nonce: string)
    | Deregister(bounty: JobId, agent: AgentId)
    | RetryDispatch(id: RegistrationId)
    | Process(at: nat, attempt: Attempt)
    | SubmitHttp(body: HttpSubmission, newId: Option<DeliverableId>)
    | SubmitTelegram(chat: string, id: RegistrationId, content: string, newId: Option<DeliverableId>)

  // ---- Submission checks ------------------------------------------------------------------------

  /** An absent or empty column value is falsy. */
  function Stored(table: map<AgentId, string>, a: AgentId): Option<string> {
    if a in table && table[a] != "" then Some(table[a]) else None
  }

  function ExpectedSig(env: Environment, nonce: string, id: RegistrationId): string {
    env.sha256Hex(nonce + ":" + id)
  }

  /** An agent without a token submits freely; otherwise token and, if a nonce was set, signature must match. */
  function CredentialError(env: Environment, r: Registration, id: RegistrationId,
                           token: Option<string>, sig: Option<string>): Option<string>
  {
    var stored := Stored(env.tokens, r.agent);
    if stored.None? then None
    else if token != stored then Some("Invalid agent_token")
    else if r.nonce != "" && sig != Some(ExpectedSig(env, r.nonce, id)) then Some("Invalid nonce_sig")
    else None
  }

  function HttpError(t: Tables, env: Environment, b: HttpSubmission, newId: Option<DeliverableId>): Option<string> {
    if b.registration !in t.registrations || t.registrations[b.registration].agent != b.agent
    then Some("Registration not found")
    else
      var r := t.registrations[b.registration];
      if r.deliverable.Some? then Some("Deliverable already submitted")
      else if CredentialError(env, r, b.registration, b.token, b.sig).Some?
      then CredentialError(env, r, b.registration, b.token, b.sig)
      else if !b.fileOk then Some("Failed to download deliverable from the provided URL")
      else if newId.None? then Some("Failed to create deliverable record")
      else None
  }

  ghost function TelegramError(t: Tables, env: Environment, chat: string, id: RegistrationId, content: string,
                               newId: Option<DeliverableId>): Option<string>
  {
    if id !in t.registrations then Some("Registration not found")
    else
      var r := t.registrations[id];
      var parsed := Parse(content);
      if !(r.agent in env.chats && env.chats[r.agent] == chat)
      then Some("This registration belongs to a different agent")
      else if r.deliverable.Some? then Some("A submission for this registration already exists")
      else if CredentialError(env, r, id, parsed.agentToken, parsed.nonceSig).Some?
      then CredentialError(env, r, id, parsed.agentToken, parsed.nonceSig)
      else if newId.None? then Some("Failed to save your submission")
      else None
  }

  /** A submission counts as on time when the bounty has no deadline to compare with. */
  predicate OnTime(env: Environment, bounty: JobId, now: Time) {
    bounty in env.deadlines ==> now <= env.deadlines[bounty]
  }

  // ---- Steps ------------------------------------------------------------------------------------

  /** Insert the deliverable, then link it and mark the registration dispatched. */
  function Accept(t: Tables, id: RegistrationId, newId: DeliverableId, notes: string): Tables
    requires id in t.registrations
  {
    var r := t.registrations[id];
    t.(deliverables := t.deliverables[newId := Deliverable(r.bounty, id, r.agent, notes)],
       registrations := t.registrations[id := r.(deliverable := Some(newId), dispatch := Dispatched)])
  }

  function SetDispatch(regs: map<RegistrationId, Registration>, id: RegistrationId, d: DispatchState)
    : map<RegistrationId, Registration>
  {
    if id in regs then regs[id := regs[id].(dispatch := d)] else regs
  }

  function Without<T>(s: seq<T>, i: nat): seq<T>
    requires i < |s|
  {
    s[..i] + s[i + 1..]
  }

  /** A failed attempt goes back to the queue until its attempts are used. */
  function ProcessJob(t: Tables, at: nat, attempt: Attempt): Tables
    requires at < |t.queue|
  {
    var job := t.queue[at];
    match attempt
    case Delivered =>
      t.(registrations := SetDispatch(t.registrations, job.registration, Dispatched), queue := Without(t.queue, at))
    case NoChannel =>
      t.(registrations := SetDispatch(t.registrations, job.registration, Queued), queue := Without(t.queue, at))
    case Failed =>
      if job.attemptsMade + 1 < ATTEMPTS then
        t.(queue := t.queue[at := job.(attemptsMade := job.attemptsMade + 1)])
      else
        t.(queue := Without(t.queue, at), exhausted := t.exhausted + {job.registration})
  }

  function RemoveMatching(regs: map<RegistrationId, Registration>, bounty: JobId, agent: AgentId)
    : map<RegistrationId, Registration>
  {
    map id | id in regs && !(regs[id].bounty == bounty && regs[id].agent == agent) :: regs[id]
  }

  ghost function Apply(t: Tables, env: Environment, step: Step): Tables {
    match step
    case Register(id, bounty, agent, owner, nonce) =>
      t.(registrations := t.registrations[id := Registration(bounty, agent, owner, Pending, None, nonce)],
         queue := t.queue + [QueuedJob(id, 0)],
         reputation := t.reputation + [RegisteredFor(agent)])
    case Deregister(bounty, agent) =>
      t.(registrations := RemoveMatching(t.registrations, bounty, agent))
    case RetryDispatch(id) =>
      if id in t.registrations then t.(queue := t.queue + [QueuedJob(id, 0)]) else t
    case Process(at, attempt) =>
      if at < |t.queue| then ProcessJob(t, at, attempt) else t
    case SubmitHttp(b, newId) =>
      if HttpError(t, env, b, newId).Some? then t
      else
        Accept(t, b.registration, newId.value, b.notes)
          .(reputation := t.reputation
                          + [SubmittedBy(b.agent, OnTime(env, t.registrations[b.registration].bounty, b.now))])
    case SubmitTelegram(chat, id, content, newId) =>
      if TelegramError(t, env, chat, id, content, newId).Some? then t
      else Accept(t, id, newId.value, Parse(content).content)
  }

  ghost function Run(t: Tables, env: Environment, steps: seq<Step>): Tables {
    if steps == [] then t else Apply(Run(t, env, steps[..|steps| - 1]), env, steps[|steps| - 1])
  }

  /** Identifiers are fresh: no registration or deliverable ever had them. */
  ghost predicate Fresh(t: Tables, step: Step) {
    match step
    case Register(id, _, _, _, _) =>
      id !in t.registrations && forall d :: d in t.deliverables ==> t.deliverables[d].registration != id
    case SubmitHttp(_, newId) => newId.Some? ==> newId.value !in t.deliverables
    case SubmitTelegram(_, _, _, newId) => newId.Some? ==> newId.value !in t.deliverables
    case _ => true
  }

  ghost predicate FreshRun(t: Tables, env: Environment, steps: seq<Step>) {
    steps != [] ==>
      FreshRun(t, env, steps[..|steps| - 1]) && Fresh(Run(t, env, steps[..|steps| - 1]), steps[|steps| - 1])
  }

  // ---- Deliverables -----------------------------------------------------------------------------

  /** A linked deliverable is this registration's own. */
  ghost predicate LinksOk(t: Tables) {
    forall id :: id in t.registrations && t.registrations[id].deliverable.Some? ==>
      var r := t.registrations[id];
      && r.deliverable.value in t.deliverables
      && t.deliverables[r.deliverable.value].registration == id
      && t.deliverables[r.deliverable.value].bounty == r.bounty
      && t.deliverables[r.deliverable.value].agent == r.agent
  }

  /** A deliverable of a live registration is the one it links to. */
  ghost predicate OwnersOk(t: Tables) {
    forall d :: d in t.deliverables && t.deliverables[d].registration in t.registrations ==>
      t.registrations[t.deliverables[d].registration].deliverable == Some(d)
  }

  ghost predicate OnePerRegistration(t: Tables) {
    forall d, e :: d in t.deliverables && e in t.deliverables && d != e ==>
      t.deliverables[d].registration != t.deliverables[e].registration
  }

  ghost predicate DeliverablesOk(t: Tables) {
    LinksOk(t) && OwnersOk(t) && OnePerRegistration(t)
  }

  lemma AcceptKeepsDeliverables(t: Tables, id: RegistrationId, newId: DeliverableId, notes: string)
    requires DeliverablesOk(t) && id in t.registrations && t.registrations[id].deliverable.None?
    requires newId !in t.deliverables
    ensures DeliverablesOk(Accept(t, id, newId, notes))
  {
    forall d | d in t.deliverables ensures t.deliverables[d].registration != id {}
  }

  /** Tables that differ only in dispatch states and in registrations removed. */
  ghost predicate OnlyFewerLinks(t: Tables, u: Tables) {
    && u.deliverables == t.deliverables
    && (forall id :: id in u.registrations ==>
          id in t.registrations
          && u.registrations[id].(dispatch := t.registrations[id].dispatch) == t.registrations[id])
  }

  lemma FewerLinksKeepDeliverables(t: Tables, u: Tables)
    requires DeliverablesOk(t) && OnlyFewerLinks(t, u)
    ensures DeliverablesOk(u)
  {
  }

  lemma SubmissionKeepsDeliverables(t: Tables, env: Environment, step: Step)
    requires step.SubmitHttp? || step.SubmitTelegram?
    requires DeliverablesOk(t) && Fresh(t, step)
    ensures DeliverablesOk(Apply(t, env, step))
  {
    match step
    case SubmitHttp(b, newId) =>
      if HttpError(t, env, b, newId).None? {
        AcceptKeepsDeliverables(t, b.registration, newId.value, b.notes);
      }
    case SubmitTelegram(chat, id, content, newId) =>
      if TelegramError(t, env, chat, id, content, newId).None? {
        AcceptKeepsDeliverables(t, id, newId.value, Parse(content).content);
      }
  }

  lemma StepKeepsDeliverables(t: Tables, env: Environment, step: Step)
    requires DeliverablesOk(t) && Fresh(t, step)
    ensures DeliverablesOk(Apply(t, env, step))
  {
    if step.SubmitHttp? || step.SubmitTelegram? {
      SubmissionKeepsDeliverables(t, env, step);
    } else if step.Register? {
      RegisterKeepsDeliverables(t, env, step);
    } else {
      FewerLinksKeepDeliverables(t, Apply(t, env, step));
    }
  }

  lemma RegisterKeepsDeliverables(t: Tables, env: Environment, step: Step)
    requires DeliverablesOk(t) && step.Register? && Fresh(t, step)
    ensures DeliverablesOk(Apply(t, env, step))
  {
  }

  /** Registrations of a bounty with submitted work. */
  function Submitted(regs: map<RegistrationId, Registration>, bounty: JobId): set<RegistrationId> {
    set id | id in regs && regs[id].bounty == bounty && regs[id].deliverable.Some?
  }

  function Registered(regs: map<RegistrationId, Registration>, bounty: JobId): set<RegistrationId> {
    set id | id in regs && regs[id].bounty == bounty
  }

  function LiveDeliverables(t: Tables, bounty: JobId): set<DeliverableId> {
    set d | d in t.deliverables && t.deliverables[d].registration in t.registrations
            && t.deliverables[d].bounty == bounty
  }

  function LinkedBy(regs: map<RegistrationId, Registration>, ids: set<RegistrationId>): set<DeliverableId>
    requires forall id :: id in ids ==> id in regs && regs[id].deliverable.Some?
  {
    set id | id in ids :: regs[id].deliverable.value
  }

  lemma {:induction false} LinkedBySize(t: Tables, ids: set<RegistrationId>)
    requires LinksOk(t)
    requires forall id :: id in ids ==> id in t.registrations && t.registrations[id].deliverable.Some?
    ensures |LinkedBy(t.registrations, ids)| == |ids|
  {
    if ids != {} {
      var id :| id in ids;
      var rest := ids - {id};
      LinkedBySize(t, rest);
      var d := t.registrations[id].deliverable.value;
      assert LinkedBy(t.registrations, ids) == LinkedBy(t.registrations, rest) + {d};
      assert d !in LinkedBy(t.registrations, rest);
    }
  }

  lemma LiveDeliverablesCounted(t: Tables, bounty: JobId)
    requires DeliverablesOk(t)
    ensures |LiveDeliverables(t, bounty)| == |Submitted(t.registrations, bounty)|
    ensures |Submitted(t.registrations, bounty)| <= |Registered(t.registrations, bounty)|
  {
    var ids := Submitted(t.registrations, bounty);
    LinkedBySize(t, ids);
    forall d ensures d in LiveDeliverables(t, bounty) <==> d in LinkedBy(t.registrations, ids) {
      if d in LiveDeliverables(t, bounty) {
        assert t.deliverables[d].registration in ids;
      }
    }
    assert LiveDeliverables(t, bounty) == LinkedBy(t.registrations, ids);
    SubsetSize(ids, Registered(t.registrations, bounty));
  }

  lemma {:induction false} SubsetSize<T>(a: set<T>, b: set<T>)
    requires a <= b
    ensures |a| <= |b|
  {
    if a != {} {
      var x :| x in a;
      SubsetSize(a - {x}, b - {x});
    }
  }

  lemma {:induction false} RunKeepsDeliverables(env: Environment, steps: seq<Step>)
    requires FreshRun(EMPTY_TABLES, env, steps)
    ensures DeliverablesOk(Run(EMPTY_TABLES, env, steps))
  {
    if steps != [] {
      RunKeepsDeliverables(env, steps[..|steps| - 1]);
      StepKeepsDeliverables(Run(EMPTY_TABLES, env, steps[..|steps| - 1]), env, steps[|steps| - 1]);
    }
  }

  /**
   * Over both channels, in every run: a registration has at most one deliverable, a link names
   * the registration's own deliverable, and each bounty has as many live deliverables as
   * submitted registrations, never more than registrations.
   */
  lemma DeliverableIntegrity(env: Environment, steps: seq<Step>, bounty: JobId)
    requires FreshRun(EMPTY_TABLES, env, steps)
    ensures var t := Run(EMPTY_TABLES, env, steps);
      && OnePerRegistration(t) && LinksOk(t)
      && |LiveDeliverables(t, bounty)| == |Submitted(t.registrations, bounty)|
      && |Submitted(t.registrations, bounty)| <= |Registered(t.registrations, bounty)|
  {
    RunKeepsDeliverables(env, steps);
    LiveDeliverablesCounted(Run(EMPTY_TABLES, env, steps), bounty);
  }

  /** Whoever submitted has left pending: a submission settles the dispatch, whatever the queue does later. */
  lemma {:induction false} SubmittedIsNotPending(env: Environment, steps: seq<Step>, id: RegistrationId)
    ensures var regs := Run(EMPTY_TABLES, env, steps).registrations;
      id in regs && regs[id].deliverable.Some? ==> !regs[id].dispatch.Pending?
  {
    if steps != [] {
      SubmittedIsNotPending(env, steps[..|steps| - 1], id);
      SubmittedStep(Run(EMPTY_TABLES, env, steps[..|steps| - 1]), env, steps[|steps| - 1], id);
    }
  }

  lemma SubmittedStep(t: Tables, env: Environment, step: Step, id: RegistrationId)
    requires id in t.registrations && t.registrations[id].deliverable.Some? ==> !t.registrations[id].dispatch.Pending?
    ensures var regs := Apply(t, env, step).registrations;
      id in regs && regs[id].deliverable.Some? ==> !regs[id].dispatch.Pending?
  {
  }

  function IsSubmittedCall(c: ReputationCall): nat {
    if c.SubmittedBy? then 1 else 0
  }

  ghost function TelegramAccepts(t: Tables, env: Environment, step: Step): nat {
    if step.SubmitTelegram? && TelegramError(t, env, step.chat, step.id, step.content, step.newId).None? then 1 else 0
  }

  /** Telegram submissions accepted during a run. */
  ghost function TelegramAccepted(env: Environment, steps: seq<Step>): nat {
    if steps == [] then 0
    else
      var front := steps[..|steps| - 1];
      TelegramAccepted(env, front) + TelegramAccepts(Run(EMPTY_TABLES, env, front), env, steps[|steps| - 1])
  }

  function Reported(t: Tables): nat {
    Tally(IsSubmittedCall, t.reputation)
  }

  lemma SnocReported(calls: seq<ReputationCall>, c: ReputationCall)
    ensures Tally(IsSubmittedCall, calls + [c]) == Tally(IsSubmittedCall, calls) + IsSubmittedCall(c)
  {
    assert (calls + [c])[..|calls|] == calls;
  }

  lemma HttpReports(t: Tables, env: Environment, b: HttpSubmission, newId: Option<DeliverableId>)
    requires newId.Some? ==> newId.value !in t.deliverables
    ensures var u := Apply(t, env, SubmitHttp(b, newId));
      |u.deliverables| + Reported(t) == |t.deliverables| + Reported(u)
  {
    if HttpError(t, env, b, newId).None? {
      var call := SubmittedBy(b.agent, OnTime(env, t.registrations[b.registration].bounty, b.now));
      SnocReported(t.reputation, call);
      AcceptAdds(t, b.registration, newId.value, b.notes);
    }
  }

  lemma TelegramReports(t: Tables, env: Environment, step: Step)
    requires step.SubmitTelegram? && (step.newId.Some? ==> step.newId.value !in t.deliverables)
    ensures var u := Apply(t, env, step);
      Reported(t) == Reported(u) && |u.deliverables| == |t.deliverables| + TelegramAccepts(t, env, step)
  {
    if TelegramError(t, env, step.chat, step.id, step.content, step.newId).None? {
      AcceptAdds(t, step.id, step.newId.value, Parse(step.content).content);
    }
  }

  lemma AcceptAdds(t: Tables, id: RegistrationId, newId: DeliverableId, notes: string)
    requires id in t.registrations && newId !in t.deliverables
    ensures |Accept(t, id, newId, notes).deliverables| == |t.deliverables| + 1
  {
  }

  lemma StepReports(t: Tables, env: Environment, step: Step)
    requires Fresh(t, step)
    ensures var u := Apply(t, env, step);
      |u.deliverables| + Reported(t) == |t.deliverables| + Reported(u) + TelegramAccepts(t, env, step)
  {
    match step
    case Register(_, _, agent, _, _) => SnocReported(t.reputation, RegisteredFor(agent));
    case SubmitHttp(b, newId) => HttpReports(t, env, b, newId);
    case SubmitTelegram(_, _, _, _) => TelegramReports(t, env, step);
    case Deregister(_, _) =>
    case RetryDispatch(_) =>
    case Process(_, _) =>
  }

  /** Every deliverable was either reported to reputation, over HTTP, or came in unreported over Telegram. */
  lemma {:induction false} TelegramIsNotReported(env: Environment, steps: seq<Step>)
    requires FreshRun(EMPTY_TABLES, env, steps)
    ensures var t := Run(EMPTY_TABLES, env, steps);
      |t.deliverables| == Reported(t) + TelegramAccepted(env, steps)
  {
    if steps != [] {
      TelegramIsNotReported(env, steps[..|steps| - 1]);
      StepReports(Run(EMPTY_TABLES, env, steps[..|steps| - 1]), env, steps[|steps| - 1]);
    }
  }

  // ---- A printed message, end to end --------------------------------------------------------------

  /** The credentials open the registration: none needed, or the stored token with the digest of the nonce. */
  predicate Opens(env: Environment, r: Registration, id: RegistrationId, token: string, sig: string) {
    var stored := Stored(env.tokens, r.agent);
    stored.Some? ==> token == stored.value && (r.nonce == "" || sig == ExpectedSig(env, r.nonce, id))
  }

  lemma CredentialsOpen(env: Environment, r: Registration, id: RegistrationId, token: string, sig: string)
    ensures CredentialError(env, r, id, Some(token), Some(sig)).None? <==> Opens(env, r, id, token, sig)
  {
  }

  /** From the agent's own chat, for work not yet submitted, only the credentials in the text decide. */
  lemma TelegramDecision(t: Tables, env: Environment, chat: string, id: RegistrationId, body: string,
                         parsed: Parsed, newId: DeliverableId)
    requires id in t.registrations && t.registrations[id].deliverable.None?
    requires t.registrations[id].agent in env.chats && env.chats[t.registrations[id].agent] == chat
    requires parsed == Parse(body)
    ensures var accepted := CredentialError(env, t.registrations[id], id, parsed.agentToken, parsed.nonceSig).None?;
      Apply(t, env, SubmitTelegram(chat, id, body, Some(newId)))
      == if accepted then Accept(t, id, newId, parsed.content) else t
  {
  }

  /** When a Telegram text is accepted and what it then writes, on the columns it is checked against. */
  lemma TelegramAcceptedIff(t: Tables, env: Environment, chat: string, id: RegistrationId, content: string,
                            newId: Option<DeliverableId>)
    ensures var u := Apply(t, env, SubmitTelegram(chat, id, content, newId));
      var own := id in t.registrations && t.registrations[id].agent in env.chats
                 && env.chats[t.registrations[id].agent] == chat;
      var accepted := own && t.registrations[id].deliverable == None && newId.Some? &&
        var (r, parsed) := (t.registrations[id], Parse(content));
        || r.agent !in env.tokens || env.tokens[r.agent] == ""
        || (parsed.agentToken == Some(env.tokens[r.agent])
            && (r.nonce == "" || parsed.nonceSig == Some(env.sha256Hex(r.nonce + ":" + id))));
      && (accepted ==>
            && u.deliverables == t.deliverables[newId.value :=
                 Deliverable(t.registrations[id].bounty, id, t.registrations[id].agent, Parse(content).content)]
            && u.registrations == t.registrations[id :=
                 t.registrations[id].(deliverable := newId, dispatch := Dispatched)])
      && (!accepted ==> u == t)
      && u.queue == t.queue && u.reputation == t.reputation && u.exhausted == t.exhausted
  {
  }

  /**
   * The message an agent is told to print, sent from its own chat for work not yet submitted, is
   * accepted if and only if its credentials open the registration. It then links one new
   * deliverable, whose text is never empty and is the content unless the content has a fence line.
   */
  lemma PrintedMessageAcceptedIff(t: Tables, env: Environment, chat: string, id: RegistrationId,
                                  content: string, token: string, sig: string, newId: DeliverableId)
    requires |id| == 36 && forall i :: 0 <= i < 36 ==> IsIdChar(id[i])
    requires Text.Trimmed(content) && content != "" && FooterValue(token) && FooterValue(sig)
    requires id in t.registrations && t.registrations[id].deliverable.None?
    requires t.registrations[id].agent in env.chats && env.chats[t.registrations[id].agent] == chat
    ensures var r, action := t.registrations[id], Receive(Print(id, content, token, sig));
      && action.Submit? && action.registrationId == id
      && var u := Apply(t, env, SubmitTelegram(chat, id, action.content, Some(newId)));
         && (Opens(env, r, id, token, sig) ==>
               && u.registrations == t.registrations[id := r.(deliverable := Some(newId), dispatch := Dispatched)]
               && u.deliverables.Keys == t.deliverables.Keys + {newId}
               && var d := u.deliverables[newId];
                  && d.registration == id && d.bounty == r.bounty && d.agent == r.agent && d.notes != ""
                  && (d.notes == content <==> !HasFence(content + "\n")))
         && (!Opens(env, r, id, token, sig) ==> u == t)
  {
    ReceivePrinted(id, content, token, sig);
    ParsePrinted(content, token, sig);
    var body := Body(content, token, sig);
    var parsed := Parse(body);
    CredentialsOpen(env, t.registrations[id], id, token, sig);
    TelegramDecision(t, env, chat, id, body, parsed, newId);
  }

  /** A tagged message without a footer, as received: the id and the trimmed text. */
  lemma ReceiveUnsigned(id: RegistrationId, content: string)
    requires |id| == 36 && forall i :: 0 <= i < 36 ==> IsIdChar(id[i])
    requires Text.Trimmed(content) && content != ""
    ensures Receive("[" + id + "] " + content) == TelegramFooter.Submit(id, content)
  {
    ReceiveTagged(id, content);
  }

  /**
   * The plain path: a tagged message without a footer, from the agent's own chat, for work not yet
   * submitted. It is accepted if and only if the agent has no token, and then its whole trimmed text is
   * stored as one new deliverable.
   */
  lemma UnsignedMessageStoredIff(t: Tables, env: Environment, chat: string, id: RegistrationId, content: string,
                                 newId: DeliverableId)
    requires |id| == 36 && forall i :: 0 <= i < 36 ==> IsIdChar(id[i])
    requires Text.Trimmed(content) && content != "" && forall i: nat, e: nat :: !FirstFenceCloses(content, i, e)
    requires id in t.registrations && t.registrations[id].deliverable.None?
    requires t.registrations[id].agent in env.chats && env.chats[t.registrations[id].agent] == chat
    ensures var r, action := t.registrations[id], Receive("[" + id + "] " + content);
      && action.Submit? && action.registrationId == id
      && var u := Apply(t, env, SubmitTelegram(chat, id, action.content, Some(newId)));
         if r.agent !in env.tokens || env.tokens[r.agent] == "" then
           && u.deliverables == t.deliverables[newId := Deliverable(r.bounty, id, r.agent, content)]
           && u.registrations == t.registrations[id := r.(deliverable := Some(newId), dispatch := Dispatched)]
           && u.reputation == t.reputation && u.queue == t.queue
         else u == t
  {
    ReceiveUnsigned(id, content);
    ParseMeaning(content);
    TelegramDecision(t, env, chat, id, content, Parse(content), newId);
  }

  // ---- Dispatch ---------------------------------------------------------------------------------

  ghost predicate JobWaiting(t: Tables, id: RegistrationId) {
    exists i :: 0 <= i < |t.queue| && t.queue[i].registration == id
  }

  /** A pending registration still has a job, or a job of it used every attempt. */
  ghost predicate NotLost(t: Tables, id: RegistrationId) {
    id in t.registrations && t.registrations[id].dispatch.Pending? ==> JobWaiting(t, id) || id in t.exhausted
  }

  ghost predicate QueueOk(t: Tables) {
    forall i :: 0 <= i < |t.queue| ==> t.queue[i].attemptsMade < ATTEMPTS
  }

  lemma ProcessKeepsWaiting(t: Tables, at: nat, attempt: Attempt, id: RegistrationId)
    requires at < |t.queue| && NotLost(t, id)
    ensures NotLost(ProcessJob(t, at, attempt), id)
  {
    var u := ProcessJob(t, at, attempt);
    if JobWaiting(t, id) && t.queue[at].registration != id {
      var i :| 0 <= i < |t.queue| && t.queue[i].registration == id;
      if |u.queue| < |t.queue| {
        assert u.queue[if i < at then i else i - 1] == t.queue[i];
      } else {
        assert u.queue[i].registration == id;
      }
    } else if t.queue[at].registration == id && attempt.Failed? && |u.queue| == |t.queue| {
      assert u.queue[at].registration == id;
    }
  }

  lemma StepKeepsNotLost(t: Tables, env: Environment, step: Step, id: RegistrationId)
    requires NotLost(t, id)
    ensures NotLost(Apply(t, env, step), id)
  {
    var u := Apply(t, env, step);
    match step
    case Process(at, attempt) =>
      if at < |t.queue| {
        ProcessKeepsWaiting(t, at, attempt, id);
      }
    case Register(new_, _, _, _, _) =>
      assert u.queue[|t.queue|].registration == new_;
      WaitingKept(t, u, id);
    case RetryDispatch(_) => WaitingKept(t, u, id);
    case Deregister(_, _) =>
    case SubmitHttp(_, _) =>
    case SubmitTelegram(_, _, _, _) =>
  }

  lemma WaitingKept(t: Tables, u: Tables, id: RegistrationId)
    requires t.queue <= u.queue
    ensures JobWaiting(t, id) ==> JobWaiting(u, id)
  {
    if JobWaiting(t, id) {
      var i :| 0 <= i < |t.queue| && t.queue[i].registration == id;
      assert u.queue[i].registration == id;
    }
  }

  /** No dispatch is lost, in any run. */
  lemma {:induction false} NoDispatchIsLost(env: Environment, steps: seq<Step>, id: RegistrationId)
    ensures NotLost(Run(EMPTY_TABLES, env, steps), id)
    ensures QueueOk(Run(EMPTY_TABLES, env, steps))
  {
    if steps != [] {
      NoDispatchIsLost(env, steps[..|steps| - 1], id);
      StepKeepsNotLost(Run(EMPTY_TABLES, env, steps[..|steps| - 1]), env, steps[|steps| - 1], id);
    }
  }

  lemma PendingStep(t: Tables, env: Environment, step: Step, id: RegistrationId)
    requires id in t.registrations ==> !t.registrations[id].dispatch.Pending?
    requires step.Register? ==> step.id != id
    ensures var u := Apply(t, env, step); id in u.registrations ==> !u.registrations[id].dispatch.Pending?
  {
  }

  /** A registration that left pending never returns to it. */
  lemma {:induction false} PendingNeverReentered(t: Tables, env: Environment, steps: seq<Step>, id: RegistrationId)
    requires id in t.registrations && !t.registrations[id].dispatch.Pending?
    requires forall step :: step in steps && step.Register? ==> step.id != id
    ensures var u := Run(t, env, steps); id in u.registrations ==> !u.registrations[id].dispatch.Pending?
  {
    if steps != [] {
      assert forall step :: step in steps[..|steps| - 1] ==> step in steps;
      PendingNeverReentered(t, env, steps[..|steps| - 1], id);
      assert steps[|steps| - 1] in steps;
      PendingStep(Run(t, env, steps[..|steps| - 1]), env, steps[|steps| - 1], id);
    }
  }

  // ---- Draining ---------------------------------------------------------------------------------

  function AttemptsLeft(job: QueuedJob): nat {
    if job.attemptsMade < ATTEMPTS then ATTEMPTS - job.attemptsMade else 0
  }

  /** The attempts the waiting jobs can still use. */
  function Potential(queue: seq<QueuedJob>): nat {
    Tally(AttemptsLeft, queue)
  }

  /** A registration enqueues a job, and so does a retry of one that still exists. */
  ghost function AddsJob(t: Tables, step: Step): nat {
    if step.Register? || (step.RetryDispatch? && step.id in t.registrations) then 1 else 0
  }

  /** Jobs enqueued during a run. */
  ghost function Enqueued(t: Tables, env: Environment, steps: seq<Step>): nat {
    if steps == [] then 0
    else
      var front := steps[..|steps| - 1];
      Enqueued(t, env, front) + AddsJob(Run(t, env, front), steps[|steps| - 1])
  }

  /** Attempts made during a run: process steps that found a job. */
  ghost function AttemptsMade(t: Tables, env: Environment, steps: seq<Step>): nat {
    if steps == [] then 0
    else
      var front := steps[..|steps| - 1];
      AttemptsMade(t, env, front) + FindsJob(Run(t, env, front), steps[|steps| - 1])
  }

  lemma PotentialSplit(queue: seq<QueuedJob>, i: nat)
    requires i < |queue|
    ensures Potential(queue) == Potential(queue[..i]) + AttemptsLeft(queue[i]) + Potential(queue[i + 1..])
  {
    assert queue == queue[..i] + [queue[i]] + queue[i + 1..];
    TallyAppend(AttemptsLeft, queue[..i] + [queue[i]], queue[i + 1..]);
    TallyAppend(AttemptsLeft, queue[..i], [queue[i]]);
  }

  lemma ProcessLowersPotential(t: Tables, at: nat, attempt: Attempt)
    requires at < |t.queue| && QueueOk(t)
    ensures Potential(ProcessJob(t, at, attempt).queue) < Potential(t.queue)
    ensures QueueOk(ProcessJob(t, at, attempt))
  {
    var u := ProcessJob(t, at, attempt);
    PotentialSplit(t.queue, at);
    if |u.queue| == |t.queue| {
      PotentialSplit(u.queue, at);
      assert u.queue[..at] == t.queue[..at] && u.queue[at + 1..] == t.queue[at + 1..];
    } else {
      TallyAppend(AttemptsLeft, t.queue[..at], t.queue[at + 1..]);
    }
  }

  lemma PotentialAfterAdd(queue: seq<QueuedJob>, id: RegistrationId)
    ensures Potential(queue + [QueuedJob(id, 0)]) == Potential(queue) + ATTEMPTS
  {
    assert (queue + [QueuedJob(id, 0)])[..|queue|] == queue;
  }

  ghost function FindsJob(t: Tables, step: Step): nat {
    if step.Process? && step.at < |t.queue| then 1 else 0
  }

  lemma StepPotential(t: Tables, env: Environment, step: Step)
    requires QueueOk(t)
    ensures QueueOk(Apply(t, env, step))
    ensures FindsJob(t, step) + Potential(Apply(t, env, step).queue) <= Potential(t.queue) + 3 * AddsJob(t, step)
  {
    match step
    case Process(at, attempt) =>
      if at < |t.queue| {
        ProcessLowersPotential(t, at, attempt);
      }
    case Register(id, _, _, _, _) => PotentialAfterAdd(t.queue, id);
    case RetryDispatch(id) =>
      if id in t.registrations {
        PotentialAfterAdd(t.queue, id);
      }
    case Deregister(_, _) =>
    case SubmitHttp(_, _) =>
    case SubmitTelegram(_, _, _, _) =>
  }

  /** Attempts made plus attempts left never exceed three per job enqueued (plus those left at the start). */
  lemma {:induction false} ThreeAttemptsPerJob(t: Tables, env: Environment, steps: seq<Step>)
    requires QueueOk(t)
    ensures QueueOk(Run(t, env, steps))
    ensures AttemptsMade(t, env, steps) + Potential(Run(t, env, steps).queue)
         <= Potential(t.queue) + 3 * Enqueued(t, env, steps)
  {
    if steps != [] {
      ThreeAttemptsPerJob(t, env, steps[..|steps| - 1]);
      StepPotential(Run(t, env, steps[..|steps| - 1]), env, steps[|steps| - 1]);
    }
  }

  lemma PotentialPositive(queue: seq<QueuedJob>)
    requires forall i :: 0 <= i < |queue| ==> queue[i].attemptsMade < ATTEMPTS
    ensures queue != [] ==> Potential(queue) > 0
  {
    if queue != [] {
      assert AttemptsLeft(queue[|queue| - 1]) > 0;
    }
  }

  /** A working queue: the processor takes a job whenever one waits; anything may happen in between. */
  ghost predicate Busy(t: Tables, env: Environment, steps: seq<Step>) {
    steps != [] ==>
      && Busy(t, env, steps[..|steps| - 1])
      && var (last, queue) := (steps[|steps| - 1], Run(t, env, steps[..|steps| - 1]).queue);
         last.Process? && queue != [] ==> last.at < |queue|
  }

  function IsProcess(step: Step): nat {
    if step.Process? then 1 else 0
  }

  /** The times the processor looked at the queue. */
  function Turns(steps: seq<Step>): nat {
    Tally(IsProcess, steps)
  }

  ghost predicate EmptyAt(t: Tables, env: Environment, steps: seq<Step>, k: nat) {
    k <= |steps| && Run(t, env, steps[..k]).queue == []
  }

  /** While the queue has not been empty, every turn was an attempt. */
  lemma {:induction false} TurnsAreAttempts(t: Tables, env: Environment, steps: seq<Step>)
    requires Busy(t, env, steps)
    ensures (exists k: nat :: EmptyAt(t, env, steps, k)) || AttemptsMade(t, env, steps) == Turns(steps)
  {
    if steps != [] {
      var front := steps[..|steps| - 1];
      TurnsAreAttempts(t, env, front);
      if k: nat :| EmptyAt(t, env, front, k) {
        assert front[..k] == steps[..k];
        assert EmptyAt(t, env, steps, k);
      } else if Run(t, env, front).queue == [] {
        assert steps[..|front|] == front;
        assert EmptyAt(t, env, steps, |front|);
      }
    }
  }

  /**
   * Whatever is delivered, polled or failed, and whatever is enqueued meanwhile: a working queue is
   * empty at some point before the processor has had three turns for every job enqueued, plus one for
   * every attempt left at the start.
   */
  lemma QueueDrains(t: Tables, env: Environment, steps: seq<Step>)
    requires QueueOk(t) && Busy(t, env, steps)
    requires Turns(steps) >= Potential(t.queue) + 3 * Enqueued(t, env, steps)
    ensures exists k: nat :: EmptyAt(t, env, steps, k)
  {
    TurnsAreAttempts(t, env, steps);
    if !exists k: nat :: EmptyAt(t, env, steps, k) {
      ThreeAttemptsPerJob(t, env, steps);
      PotentialPositive(Run(t, env, steps).queue);
      assert steps[..|steps|] == steps;
      assert EmptyAt(t, env, steps, |steps|);
    }
  }

  lemma {:induction false} EmptyStaysEmpty(t: Tables, env: Environment, steps: seq<Step>, k: nat)
    requires EmptyAt(t, env, steps, k) && Enqueued(t, env, steps) == 0
    ensures Run(t, env, steps).queue == []
  {
    if k < |steps| {
      var front := steps[..|steps| - 1];
      assert front[..k] == steps[..k];
      EmptyStaysEmpty(t, env, front, k);
    } else {
      assert steps[..k] == steps;
    }
  }

  lemma {:induction false} RunAppend(t: Tables, env: Environment, first: seq<Step>, second: seq<Step>)
    ensures Run(t, env, first + second) == Run(Run(t, env, first), env, second)
  {
    if second == [] {
      assert first + second == first;
    } else {
      assert (first + second)[..|first + second| - 1] == first + second[..|second| - 1];
      RunAppend(t, env, first, second[..|second| - 1]);
    }
  }

  /**
   * With finitely many register and retry calls the queue drains and stays empty: once nothing more
   * is enqueued, three turns per job enqueued before suffice, less the attempts already made.
   */
  lemma QueueDrainsForGood(env: Environment, first: seq<Step>, rest: seq<Step>)
    requires var t := Run(EMPTY_TABLES, env, first);
      && Busy(t, env, rest) && Enqueued(t, env, rest) == 0
      && Turns(rest) + AttemptsMade(EMPTY_TABLES, env, first) >= 3 * Enqueued(EMPTY_TABLES, env, first)
    ensures Run(EMPTY_TABLES, env, first + rest).queue == []
  {
    var t := Run(EMPTY_TABLES, env, first);
    ThreeAttemptsPerJob(EMPTY_TABLES, env, first);
    QueueDrains(t, env, rest);
    var k: nat :| EmptyAt(t, env, rest, k);
    EmptyStaysEmpty(t, env, rest, k);
    RunAppend(EMPTY_TABLES, env, first, rest);
  }
}
