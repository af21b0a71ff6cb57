/** How the Helius webhook routes the instructions of a transaction. */
module WebhookRoute {
  import opened Common
  import opened Bytes
  import opened Wire

  /** One instruction as delivered: its data is absent or already base58-decoded. */
  datatype Delivered = Delivered(program: Pubkey, data: Option<seq<Byte>>, accounts: seq<Pubkey>)

  datatype Handled =
    | EscrowFunded(job: string, vaultState: Option<Pubkey>)
    | SettleConfirmed(job: string)

  /** accounts[2] of create_escrow is the escrow state account. */
  function VaultState(ix: Delivered): Option<Pubkey> {
    if |ix.accounts| > 2 then Some(ix.accounts[2]) else None
  }

  // The webhook's own table of discriminators.
  const CREATE_DISCRIMINATOR: seq<Byte> := [253, 215, 165, 116, 36, 108, 68, 80]
  const SETTLE_DISCRIMINATOR: seq<Byte> := [22, 135, 160, 194, 23, 186, 124, 110]

  /** The handler call one instruction causes, if any; the job id is cut out at bytes 8 to 24. */
  function HandleOne(ix: Delivered, escrowProgram: Pubkey): seq<Handled> {
    if ix.program != escrowProgram || ix.data.None? || |ix.data.value| < 8 then []
    else
      var data := ix.data.value;
      var job := BytesToUuid(Slice(data, 8, 24));
      if data[..8] == CREATE_DISCRIMINATOR then [EscrowFunded(job, VaultState(ix))]
      else if data[..8] == SETTLE_DISCRIMINATOR then [SettleConfirmed(job)]
      else []
  }

  function HandleAll(ixs: seq<Delivered>, escrowProgram: Pubkey): seq<Handled> {
    if ixs == [] then []
    else HandleAll(ixs[..|ixs| - 1], escrowProgram) + HandleOne(ixs[|ixs| - 1], escrowProgram)
  }

  // ---- Agents waiting for their registry asset ----------------------------------------------

  /** The registry columns of an agent row. */
  datatype AgentAsset = AgentAsset(asset: Option<Pubkey>, pending: Option<Pubkey>, healthy: bool)

  /** The agents with this pending asset; the lookup finds one only if it is the only one. */
  function Waiting(agents: map<AgentId, AgentAsset>, account: Pubkey): set<AgentId> {
    set id | id in agents && agents[id].pending == Some(account)
  }

  function Confirmed(account: Pubkey): AgentAsset {
    AgentAsset(Some(account), None, true)
  }

  /** One account of the transaction: the agent it was pending for, if any, now owns it. */
  function Promote(agents: map<AgentId, AgentAsset>, account: Pubkey): map<AgentId, AgentAsset> {
    map id | id in agents :: if Waiting(agents, account) == {id} then Confirmed(account) else agents[id]
  }

  function PromoteAll(agents: map<AgentId, AgentAsset>, accounts: seq<Pubkey>): map<AgentId, AgentAsset> {
    if accounts == [] then agents
    else Promote(PromoteAll(agents, accounts[..|accounts| - 1]), accounts[|accounts| - 1])
  }

  /** The accounts of all instructions, whatever their program. */
  function AllAccounts(ixs: seq<Delivered>): seq<Pubkey> {
    if ixs == [] then [] else AllAccounts(ixs[..|ixs| - 1]) + ixs[|ixs| - 1].accounts
  }

  predicate SoleWaiter(agents: map<AgentId, AgentAsset>, accounts: seq<Pubkey>, id: AgentId) {
    id in agents && agents[id].pending.Some? && agents[id].pending.value in accounts
    && Waiting(agents, agents[id].pending.value) == {id}
  }

  /** This agent, and no other, waits for an account among these. */
  ghost predicate Promotable(agents: map<AgentId, AgentAsset>, accounts: seq<Pubkey>, id: AgentId) {
    && id in agents && agents[id].pending.Some? && agents[id].pending.value in accounts
    && forall other :: other in agents && other != id ==> agents[other].pending != agents[id].pending
  }

  lemma AloneIffOnlyWaiting(agents: map<AgentId, AgentAsset>, account: Pubkey, id: AgentId)
    ensures Waiting(agents, account) == {id} <==>
      && id in agents && agents[id].pending == Some(account)
      && forall other :: other in agents && other != id ==> agents[other].pending != Some(account)
  {
    if Waiting(agents, account) == {id} {
      assert id in Waiting(agents, account);
      forall other | other in agents && other != id ensures agents[other].pending != Some(account) {
        assert other !in Waiting(agents, account);
      }
    }
  }

  /** An account counts as scanned if and only if some instruction lists it. */
  lemma {:induction false} ScannedIffListed(ixs: seq<Delivered>, account: Pubkey)
    ensures account in AllAccounts(ixs) <==> exists ix :: ix in ixs && account in ix.accounts
  {
    if ixs != [] {
      var front, last := ixs[..|ixs| - 1], ixs[|ixs| - 1];
      ScannedIffListed(front, account);
      assert ixs == front + [last];
    }
  }

  lemma {:induction false} ScanPromotesWaiters(agents: map<AgentId, AgentAsset>, accounts: seq<Pubkey>)
    ensures var after := PromoteAll(agents, accounts);
      && after.Keys == agents.Keys
      && (forall id :: id in agents ==>
            after[id] == if SoleWaiter(agents, accounts, id) then Confirmed(agents[id].pending.value) else agents[id])
  {
    if accounts != [] {
      var front, account := accounts[..|accounts| - 1], accounts[|accounts| - 1];
      assert accounts == front + [account];
      ScanPromotesWaiters(agents, front);
      var mid := PromoteAll(agents, front);
      if account in front {
        forall id | id in Waiting(mid, account) ensures Waiting(agents, account) != {id} {}
        forall id | id in agents ensures Waiting(mid, account) != {id} {
          StillWaiting(agents, mid, front, account, id);
        }
      } else {
        forall id | id in agents ensures id in Waiting(mid, account) <==> id in Waiting(agents, account) {}
        assert Waiting(mid, account) == Waiting(agents, account);
      }
    }
  }

  /** After an account was scanned, it waits for nobody or for several. */
  lemma StillWaiting(agents: map<AgentId, AgentAsset>, mid: map<AgentId, AgentAsset>, front: seq<Pubkey>,
                     account: Pubkey, id: AgentId)
    requires account in front && mid.Keys == agents.Keys && id in agents
    requires forall a :: a in agents ==>
      mid[a] == if SoleWaiter(agents, front, a) then Confirmed(agents[a].pending.value) else agents[a]
    ensures Waiting(mid, account) != {id}
  {
    if id in Waiting(mid, account) {
      assert Waiting(agents, account) != {id};
      var other :| other in Waiting(agents, account) && other != id;
      assert id in Waiting(agents, account) && Waiting(agents, account) != {other};
      assert other in Waiting(mid, account);
    }
  }

  /**
   * The scan promotes exactly the agents that alone wait for an account of the transaction, each to
   * that account; the order and repetition of accounts do not matter, and no other row changes.
   */
  lemma ScanIsExact(agents: map<AgentId, AgentAsset>, accounts: seq<Pubkey>)
    ensures var after := PromoteAll(agents, accounts);
      && after.Keys == agents.Keys
      && (forall id :: id in agents ==>
            after[id] == if Promotable(agents, accounts, id) then AgentAsset(agents[id].pending, None, true)
                         else agents[id])
  {
    ScanPromotesWaiters(agents, accounts);
    forall id | id in agents ensures Promotable(agents, accounts, id) <==> SoleWaiter(agents, accounts, id) {
      if agents[id].pending.Some? {
        AloneIffOnlyWaiting(agents, agents[id].pending.value, id);
      }
    }
  }

  /** A webhook delivered again promotes nobody. */
  lemma RedeliveryPromotesNobody(agents: map<AgentId, AgentAsset>, accounts: seq<Pubkey>)
    ensures PromoteAll(PromoteAll(agents, accounts), accounts) == PromoteAll(agents, accounts)
  {
    var after := PromoteAll(agents, accounts);
    ScanPromotesWaiters(agents, accounts);
    ScanPromotesWaiters(after, accounts);
    forall id | id in after ensures !SoleWaiter(after, accounts, id) {
      if SoleWaiter(after, accounts, id) {
        StillWaiting(agents, after, accounts, after[id].pending.value, id);
      }
    }
  }

  lemma PromoteNext(agents: map<AgentId, AgentAsset>, accounts: seq<Pubkey>, i: nat)
    requires i < |accounts|
    ensures PromoteAll(agents, accounts[..i + 1]) == Promote(PromoteAll(agents, accounts[..i]), accounts[i])
  {
    assert accounts[..i + 1][..i] == accounts[..i];
  }

  class Webhook {
    const escrowProgram: Pubkey
    var agents: map<AgentId, AgentAsset>

    constructor (escrowProgram: Pubkey, agents: map<AgentId, AgentAsset>)
      ensures this.escrowProgram == escrowProgram && this.agents == agents
    {
      this.escrowProgram, this.agents := escrowProgram, agents;
    }

    /** The handlers called for the escrow program's instructions, then the scan for registry assets. */
    method Route(ixs: seq<Delivered>) returns (handled: seq<Handled>)
      modifies this
      ensures handled == HandleAll(ixs, escrowProgram)
      ensures agents == PromoteAll(old(agents), AllAccounts(ixs))
    {
      handled := [];
      for i := 0 to |ixs|
        invariant handled == HandleAll(ixs[..i], escrowProgram) && agents == old(agents)
      {
        assert ixs[..i + 1][..i] == ixs[..i];
        var ix := ixs[i];
        if ix.program != escrowProgram { continue; }
        if ix.data.None? { continue; }
        var decoded := ix.data.value;
        if |decoded| < 8 { continue; }
        var discriminator := decoded[..8];
        if discriminator == CREATE_DISCRIMINATOR {
          handled := handled + [EscrowFunded(BytesToUuid(Slice(decoded, 8, 24)), VaultState(ix))];
        } else if discriminator == SETTLE_DISCRIMINATOR {
          handled := handled + [SettleConfirmed(BytesToUuid(Slice(decoded, 8, 24)))];
        }
      }
      assert ixs[..|ixs|] == ixs;
      HandlePotentialAgentRegistration(ixs);
    }

    method HandlePotentialAgentRegistration(ixs: seq<Delivered>)
      modifies this
      ensures agents == PromoteAll(old(agents), AllAccounts(ixs))
    {
      var accounts := CollectAccounts(ixs);
      for i := 0 to |accounts|
        invariant agents == PromoteAll(old(agents), accounts[..i])
      {
        PromoteNext(old(agents), accounts, i);
        ConfirmPending(accounts[i]);
      }
      assert accounts[..|accounts|] == accounts;
    }

    method CollectAccounts(ixs: seq<Delivered>) returns (accounts: seq<Pubkey>)
      ensures accounts == AllAccounts(ixs)
    {
      accounts := [];
      for i := 0 to |ixs|
        invariant accounts == AllAccounts(ixs[..i])
      {
        assert ixs[..i + 1][..i] == ixs[..i];
        accounts := accounts + ixs[i].accounts;
      }
      assert ixs[..|ixs|] == ixs;
    }

    /** The lookup by pending asset finds a row only if there is exactly one. */
    method ConfirmPending(account: Pubkey)
      modifies this
      ensures agents == Promote(old(agents), account)
      ensures forall id :: Waiting(old(agents), account) == {id} ==>
        agents == old(agents)[id := AgentAsset(Some(account), None, true)]
      ensures (forall id :: Waiting(old(agents), account) != {id}) ==> agents == old(agents)
    {
      var waiting := Waiting(agents, account);
      if |waiting| == 1 {
        var id :| id in waiting;
        OnlyMember(waiting, id);
        agents := agents[id := Confirmed(account)];
      } else {
        forall id | id in agents ensures waiting != {id} {}
      }
    }
  }

  lemma OnlyMember<T>(s: set<T>, x: T)
    requires |s| == 1 && x in s
    ensures s == {x}
  {
    assert |s - {x}| == 0;
  }

  /** The webhook's own table of discriminators agrees with the generated client on every byte string. */
  lemma RouteAgreesWithIdentify(ix: Delivered, escrowProgram: Pubkey)
    requires ix.program == escrowProgram && ix.data.Some?
    ensures var handled := HandleOne(ix, escrowProgram);
      && (Identify(ix.data.value) == Some(CreateEscrow) <==> |handled| == 1 && handled[0].EscrowFunded?)
      && (Identify(ix.data.value) == Some(SettleEscrow) <==> |handled| == 1 && handled[0].SettleConfirmed?)
      && |handled| <= 1
      && (|handled| == 1 ==>
            && handled[0].job == BytesToUuid(if |ix.data.value| < 24 then ix.data.value[8..] else ix.data.value[8..24])
            && (handled[0].EscrowFunded? ==>
                  handled[0].vaultState == if |ix.accounts| >= 3 then Some(ix.accounts[2]) else None))
  {
    IdentifyIffPrefix(ix.data.value, CreateEscrow);
    IdentifyIffPrefix(ix.data.value, SettleEscrow);
  }

  // ---- From the job's UUID to the handler and back ------------------------------------------

  /** What was put into a transaction: our instructions, and any others, of this program or another. */
  datatype Sent =
    | SentCreate(uuid: string, jobType: JobType, amount: int, expiry: int, accounts: seq<Pubkey>)
    | SentUpdate(uuid: string, fulfilled: bool, agentOwner: Option<seq<Byte>>)
    | SentSettle(uuid: string)
    | Other(program: Pubkey, data: Option<seq<Byte>>)

  predicate Sendable(s: Sent, escrowProgram: Pubkey) {
    match s
    case SentCreate(uuid, _, amount, expiry, _) =>
      CanonicalUuid(uuid) && 0 <= amount < TWO_64 && -TWO_63 <= expiry < TWO_63
    case SentUpdate(uuid, _, _) => CanonicalUuid(uuid)
    case SentSettle(uuid) => CanonicalUuid(uuid)
    case Other(program, data) =>
      || program != escrowProgram
      || data.None?
      || |data.value| < 8
      || (data.value[..8] != CREATE_ESCROW && data.value[..8] != SETTLE_ESCROW)
  }

  function Deliver(s: Sent, escrowProgram: Pubkey): Delivered {
    match s
    case SentCreate(uuid, jobType, amount, expiry, accounts) =>
      Delivered(escrowProgram, EncodeCreate(CreateArgs(UuidToBytes(uuid), jobType, amount, expiry)), accounts)
    case SentUpdate(uuid, fulfilled, agentOwner) =>
      Delivered(escrowProgram, Some(EncodeUpdate(UpdateArgs(UuidToBytes(uuid), fulfilled, agentOwner))), [])
    case SentSettle(uuid) =>
      Delivered(escrowProgram, Some(EncodeSettle(SettleArgs(UuidToBytes(uuid)))), [])
    case Other(program, data) => Delivered(program, data, [])
  }

  function DeliverAll(sent: seq<Sent>, escrowProgram: Pubkey): seq<Delivered> {
    seq(|sent|, i requires 0 <= i < |sent| => Deliver(sent[i], escrowProgram))
  }

  /** The calls that should result: one per create and settle, naming the UUID that was sent. */
  function ExpectedOne(s: Sent): seq<Handled> {
    match s
    case SentCreate(uuid, _, _, _, accounts) =>
      [EscrowFunded(uuid, if |accounts| > 2 then Some(accounts[2]) else None)]
    case SentSettle(uuid) => [SettleConfirmed(uuid)]
    case SentUpdate(_, _, _) => []
    case Other(_, _) => []
  }

  function Expected(sent: seq<Sent>): seq<Handled> {
    if sent == [] then [] else Expected(sent[..|sent| - 1]) + ExpectedOne(sent[|sent| - 1])
  }

  /** The job id stands at bytes 8 to 24, behind the discriminator. */
  lemma JobCutOut(discriminator: seq<Byte>, job: seq<Byte>, tail: seq<Byte>)
    requires |discriminator| == 8 && |job| == 16
    ensures var data := discriminator + job + tail;
      data[..8] == discriminator && Slice(data, 8, 24) == job
  {
    var data := discriminator + job + tail;
    assert data[8..24] == job;
  }

  lemma CreateDelivered(uuid: string, a: CreateArgs)
    requires CanonicalUuid(uuid) && a.jobId == UuidToBytes(uuid) && EncodeCreate(a).Some?
    ensures var data := EncodeCreate(a).value;
      |data| >= 8 && data[..8] == CREATE_ESCROW && BytesToUuid(Slice(data, 8, 24)) == uuid
  {
    UuidRoundTrip(uuid);
    var tail := EncodeJobType(a.jobType) + EncodeU64(a.amount).value + EncodeI64(a.expiry).value;
    JobCutOut(CREATE_ESCROW, a.jobId, tail);
    assert EncodeCreate(a).value == CREATE_ESCROW + a.jobId + tail;
  }

  lemma SettleDelivered(uuid: string)
    requires CanonicalUuid(uuid)
    ensures var data := EncodeSettle(SettleArgs(UuidToBytes(uuid)));
      |data| >= 8 && data[..8] == SETTLE_ESCROW && BytesToUuid(Slice(data, 8, 24)) == uuid
  {
    UuidRoundTrip(uuid);
    JobCutOut(SETTLE_ESCROW, UuidToBytes(uuid), []);
    assert EncodeSettle(SettleArgs(UuidToBytes(uuid))) == SETTLE_ESCROW + UuidToBytes(uuid) + [];
  }

  lemma UpdateDelivered(a: UpdateArgs)
    ensures |EncodeUpdate(a)| >= 8 && EncodeUpdate(a)[..8] == UPDATE_ESCROW
  {
  }

  lemma HandleDelivered(s: Sent, escrowProgram: Pubkey)
    requires Sendable(s, escrowProgram)
    ensures HandleOne(Deliver(s, escrowProgram), escrowProgram) == ExpectedOne(s)
  {
    match s
    case SentCreate(uuid, jobType, amount, expiry, _) =>
      CreateDelivered(uuid, CreateArgs(UuidToBytes(uuid), jobType, amount, expiry));
    case SentUpdate(uuid, fulfilled, agentOwner) =>
      UpdateDelivered(UpdateArgs(UuidToBytes(uuid), fulfilled, agentOwner));
    case SentSettle(uuid) =>
      SettleDelivered(uuid);
      assert SETTLE_ESCROW[0] != CREATE_ESCROW[0];
    case Other(_, _) =>
  }

  /** A transaction's create and settle instructions reach their handlers in order, with the UUIDs that were sent. */
  lemma {:induction false} JobIdSurvivesTheWire(sent: seq<Sent>, escrowProgram: Pubkey)
    requires forall s :: s in sent ==> Sendable(s, escrowProgram)
    ensures HandleAll(DeliverAll(sent, escrowProgram), escrowProgram) == Expected(sent)
  {
    if sent != [] {
      var front, last := sent[..|sent| - 1], sent[|sent| - 1];
      assert forall s :: s in front ==> s in sent;
      assert last in sent;
      JobIdSurvivesTheWire(front, escrowProgram);
      var all := DeliverAll(sent, escrowProgram);
      assert all[..|all| - 1] == DeliverAll(front, escrowProgram);
      HandleDelivered(last, escrowProgram);
    }
  }
}
