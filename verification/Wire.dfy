/** The escrow program's instruction data, and the webhook that reads it back by raw slicing. */
module Wire {
  import opened Common
  import opened Bytes

  // The discriminators as the three instruction files give them; Identify has its own list.
  const CREATE_ESCROW: seq<Byte> := [253, 215, 165, 116, 36, 108, 68, 80]
  const SETTLE_ESCROW: seq<Byte> := [22, 135, 160, 194, 23, 186, 124, 110]
  const UPDATE_ESCROW: seq<Byte> := [252, 228, 127, 1, 60, 43, 54, 28]

  datatype JobType = Gig | Bounty

  datatype CreateArgs = CreateArgs(jobId: seq<Byte>, jobType: JobType, amount: int, expiry: int)

  datatype UpdateArgs = UpdateArgs(jobId: seq<Byte>, fulfilled: bool, agentOwner: Option<seq<Byte>>)

  datatype SettleArgs = SettleArgs(jobId: seq<Byte>)

  /** A decoded value and the offset after it. */
  datatype Read<+T> = Read(value: T, next: nat)

  const TWO_63: int := 0x8000_0000_0000_0000
  const TWO_64: int := 0x1_0000_0000_0000_0000

  // ---- Field codecs -------------------------------------------------------------------------

  /** A field of fixed size: longer input is cut, shorter input is padded with zeros. */
  function Fix(bytes: seq<Byte>, size: nat): (fixed: seq<Byte>)
    ensures |fixed| == size
    ensures |bytes| == size ==> fixed == bytes
  {
    if |bytes| >= size then bytes[..size] else bytes + seq(size - |bytes|, i => 0)
  }

  function ReadBytes(data: seq<Byte>, at: nat, size: nat): Option<Read<seq<Byte>>> {
    if at + size <= |data| then Some(Read(data[at..at + size], at + size)) else None
  }

  function EncodeU64(n: int): Option<seq<Byte>> {
    if 0 <= n < TWO_64 then Some(LittleEndian(n, 8)) else None
  }

  function DecodeU64(data: seq<Byte>, at: nat): Option<Read<int>> {
    if at + 8 <= |data| then Some(Read(FromLittleEndian(data[at..at + 8]), at + 8)) else None
  }

  /** Two's complement. */
  function EncodeI64(n: int): Option<seq<Byte>> {
    if -TWO_63 <= n < TWO_63 then Some(LittleEndian(if n < 0 then n + TWO_64 else n, 8)) else None
  }

  function DecodeI64(data: seq<Byte>, at: nat): Option<Read<int>> {
    if at + 8 <= |data| then
      var n := FromLittleEndian(data[at..at + 8]);
      Some(Read(if n >= TWO_63 then n - TWO_64 else n, at + 8))
    else None
  }

  function EncodeJobType(t: JobType): seq<Byte> {
    if t.Gig? then [0] else [1]
  }

  /** A byte that names no variant is rejected. */
  function DecodeJobType(data: seq<Byte>, at: nat): Option<Read<JobType>> {
    if at >= |data| || data[at] > 1 then None
    else Some(Read(if data[at] == 0 then Gig else Bounty, at + 1))
  }

  function EncodeBool(b: bool): seq<Byte> {
    if b then [1] else [0]
  }

  function DecodeBool(data: seq<Byte>, at: nat): Option<Read<bool>> {
    if at >= |data| then None else Some(Read(data[at] == 1, at + 1))
  }

  /** A one-byte tag, then the 32-byte address if there is one. */
  function EncodeOptionalAddress(a: Option<seq<Byte>>): seq<Byte> {
    match a
    case None => [0]
    case Some(address) => [1] + Fix(address, 32)
  }

  function DecodeOptionalAddress(data: seq<Byte>, at: nat): Option<Read<Option<seq<Byte>>>> {
    if at >= |data| then None
    else if data[at] != 1 then Some(Read(None, at + 1))
    else
      match ReadBytes(data, at + 1, 32)
      case None => None
      case Some(Read(address, next)) => Some(Read(Some(address), next))
  }

  // ---- Instruction data ---------------------------------------------------------------------

  function EncodeCreate(a: CreateArgs): Option<seq<Byte>> {
    match (EncodeU64(a.amount), EncodeI64(a.expiry))
    case (Some(amount), Some(expiry)) =>
      Some(CREATE_ESCROW + Fix(a.jobId, 16) + EncodeJobType(a.jobType) + amount + expiry)
    case _ => None
  }

  /** Reads the fields in order; the discriminator is read, not checked. */
  function DecodeCreate(data: seq<Byte>): Option<(seq<Byte>, CreateArgs)> {
    match ReadBytes(data, 0, 8) case None => None
    case Some(Read(discriminator, at1)) =>
    match ReadBytes(data, at1, 16) case None => None
    case Some(Read(jobId, at2)) =>
    match DecodeJobType(data, at2) case None => None
    case Some(Read(jobType, at3)) =>
    match DecodeU64(data, at3) case None => None
    case Some(Read(amount, at4)) =>
    match DecodeI64(data, at4) case None => None
    case Some(Read(expiry, _)) => Some((discriminator, CreateArgs(jobId, jobType, amount, expiry)))
  }

  function EncodeUpdate(a: UpdateArgs): seq<Byte> {
    UPDATE_ESCROW + Fix(a.jobId, 16) + EncodeBool(a.fulfilled) + EncodeOptionalAddress(a.agentOwner)
  }

  function DecodeUpdate(data: seq<Byte>): Option<(seq<Byte>, UpdateArgs)> {
    match ReadBytes(data, 0, 8) case None => None
    case Some(Read(discriminator, at1)) =>
    match ReadBytes(data, at1, 16) case None => None
    case Some(Read(jobId, at2)) =>
    match DecodeBool(data, at2) case None => None
    case Some(Read(fulfilled, at3)) =>
    match DecodeOptionalAddress(data, at3) case None => None
    case Some(Read(agentOwner, _)) => Some((discriminator, UpdateArgs(jobId, fulfilled, agentOwner)))
  }

  function EncodeSettle(a: SettleArgs): seq<Byte> {
    SETTLE_ESCROW + Fix(a.jobId, 16)
  }

  function DecodeSettle(data: seq<Byte>): Option<(seq<Byte>, SettleArgs)> {
    match ReadBytes(data, 0, 8) case None => None
    case Some(Read(discriminator, at1)) =>
    match ReadBytes(data, at1, 16) case None => None
    case Some(Read(jobId, _)) => Some((discriminator, SettleArgs(jobId)))
  }

  lemma Pow256Is64Bits()
    ensures Pow256(8) == TWO_64
  {
    assert Pow256(2) == 0x1_0000;
    assert Pow256(4) == 0x1_0000_0000;
    assert Pow256(6) == 0x1_0000_0000_0000;
  }

  lemma U64RoundTrip(n: int, data: seq<Byte>, at: nat)
    requires EncodeU64(n).Some? && at + 8 <= |data| && data[at..at + 8] == EncodeU64(n).value
    ensures DecodeU64(data, at) == Some(Read(n, at + 8))
  {
    Pow256Is64Bits();
    LittleEndianRoundTrip(n, 8);
  }

  lemma I64RoundTrip(n: int, data: seq<Byte>, at: nat)
    requires EncodeI64(n).Some? && at + 8 <= |data| && data[at..at + 8] == EncodeI64(n).value
    ensures DecodeI64(data, at) == Some(Read(n, at + 8))
  {
    Pow256Is64Bits();
    LittleEndianRoundTrip(if n < 0 then n + TWO_64 else n, 8);
  }

  /** Create data decodes to what was encoded, whatever bytes follow; it is refused exactly out of range. */
  lemma CreateRoundTrip(a: CreateArgs, rest: seq<Byte>)
    requires |a.jobId| == 16
    ensures EncodeCreate(a).Some? <==> 0 <= a.amount < TWO_64 && -TWO_63 <= a.expiry < TWO_63
    ensures EncodeCreate(a).Some? ==>
      |EncodeCreate(a).value| == 41 && DecodeCreate(EncodeCreate(a).value + rest) == Some((CREATE_ESCROW, a))
  {
    if EncodeCreate(a).Some? {
      var data := EncodeCreate(a).value + rest;
      assert data[0..8] == CREATE_ESCROW;
      assert data[8..24] == a.jobId;
      assert data[24] == EncodeJobType(a.jobType)[0];
      assert data[25..33] == EncodeU64(a.amount).value;
      assert data[33..41] == EncodeI64(a.expiry).value;
      U64RoundTrip(a.amount, data, 25);
      I64RoundTrip(a.expiry, data, 33);
    }
  }

  /** Create data is canonical: what decodes, with this discriminator and nothing after it, encodes to itself. */
  lemma CreateReencodes(data: seq<Byte>)
    requires |data| == 41 && data[..8] == CREATE_ESCROW && DecodeCreate(data).Some?
    ensures EncodeCreate(DecodeCreate(data).value.1) == Some(data)
  {
    Pow256Is64Bits();
    FromLittleEndianRoundTrip(data[25..33]);
    FromLittleEndianRoundTrip(data[33..41]);
    var a := DecodeCreate(data).value.1;
    assert EncodeU64(a.amount) == Some(data[25..33]);
    assert EncodeI64(a.expiry) == Some(data[33..41]);
    assert EncodeJobType(a.jobType) == [data[24]];
    assert data == data[..8] + data[8..24] + [data[24]] + data[25..33] + data[33..41];
  }

  lemma UpdateRoundTrip(a: UpdateArgs, rest: seq<Byte>)
    requires |a.jobId| == 16 && (a.agentOwner.Some? ==> |a.agentOwner.value| == 32)
    ensures DecodeUpdate(EncodeUpdate(a) + rest) == Some((UPDATE_ESCROW, a))
    ensures |EncodeUpdate(a)| == if a.agentOwner.Some? then 58 else 26
  {
    var tail := EncodeOptionalAddress(a.agentOwner);
    var data := EncodeUpdate(a) + rest;
    assert data == UPDATE_ESCROW + a.jobId + EncodeBool(a.fulfilled) + tail + rest;
    assert data[0..8] == UPDATE_ESCROW;
    assert data[8..24] == a.jobId;
    assert data[24] == EncodeBool(a.fulfilled)[0];
    assert data[25..25 + |tail|] == tail;
    OptionalAddressRoundTrip(a.agentOwner, data, 25);
  }

  lemma OptionalAddressRoundTrip(a: Option<seq<Byte>>, data: seq<Byte>, at: nat)
    requires a.Some? ==> |a.value| == 32
    requires at + |EncodeOptionalAddress(a)| <= |data|
    requires data[at..at + |EncodeOptionalAddress(a)|] == EncodeOptionalAddress(a)
    ensures DecodeOptionalAddress(data, at) == Some(Read(a, at + |EncodeOptionalAddress(a)|))
  {
    var tail := EncodeOptionalAddress(a);
    assert data[at] == data[at..at + |tail|][0] == tail[0];
    if a.Some? {
      assert data[at + 1..at + 33] == data[at..at + 33][1..] == tail[1..] == a.value;
    }
  }

  lemma SettleRoundTrip(a: SettleArgs, rest: seq<Byte>)
    requires |a.jobId| == 16
    ensures |EncodeSettle(a)| == 24 && DecodeSettle(EncodeSettle(a) + rest) == Some((SETTLE_ESCROW, a))
  {
    var data := EncodeSettle(a) + rest;
    assert data[0..8] == SETTLE_ESCROW;
    assert data[8..24] == a.jobId;
  }

  /**
   * Where each argument of create stands: 16 bytes of job id after the discriminator, one of job type
   * (0 gig, 1 bounty), eight of amount, eight of expiry in two's complement.
   */
  lemma CreateLayout(a: CreateArgs)
    requires |a.jobId| == 16 && EncodeCreate(a).Some?
    ensures var data := EncodeCreate(a).value;
      && |data| == 41 && data[..8] == CREATE_ESCROW && data[8..24] == a.jobId
      && data[24] == (if a.jobType == Gig then 0 else 1)
      && FromLittleEndian(data[25..33]) == a.amount
      && FromLittleEndian(data[33..41]) == (if a.expiry < 0 then a.expiry + TWO_64 else a.expiry)
  {
    var data := EncodeCreate(a).value;
    assert data[25..33] == EncodeU64(a.amount).value && data[33..41] == EncodeI64(a.expiry).value;
    Pow256Is64Bits();
    LittleEndianRoundTrip(a.amount, 8);
    LittleEndianRoundTrip(if a.expiry < 0 then a.expiry + TWO_64 else a.expiry, 8);
  }

  /** Update: the job id, one byte for fulfilled, one that says whether an address follows, the address. */
  lemma UpdateLayout(a: UpdateArgs)
    requires |a.jobId| == 16 && (a.agentOwner.Some? ==> |a.agentOwner.value| == 32)
    ensures var data := EncodeUpdate(a);
      && |data| >= 26 && data[..8] == UPDATE_ESCROW && data[8..24] == a.jobId
      && data[24] == (if a.fulfilled then 1 else 0) && data[25] == (if a.agentOwner.Some? then 1 else 0)
      && data[26..] == (if a.agentOwner.Some? then a.agentOwner.value else [])
  {
  }

  // ---- Identification -----------------------------------------------------------------------

  datatype Instruction =
    | CreateEscrow | Initialize | MarkDisputed | ResolveDispute | SetPaused | SettleEscrow | UpdateEscrow

  predicate StartsWith(data: seq<Byte>, prefix: seq<Byte>) {
    |prefix| <= |data| && data[..|prefix|] == prefix
  }

  function Identify(data: seq<Byte>): Option<Instruction> {
    if StartsWith(data, [253, 215, 165, 116, 36, 108, 68, 80]) then Some(CreateEscrow)
    else if StartsWith(data, [175, 175, 109, 31, 13, 152, 155, 237]) then Some(Initialize)
    else if StartsWith(data, [136, 86, 152, 120, 3, 21, 223, 251]) then Some(MarkDisputed)
    else if StartsWith(data, [231, 6, 202, 6, 96, 103, 12, 230]) then Some(ResolveDispute)
    else if StartsWith(data, [91, 60, 125, 192, 176, 225, 166, 218]) then Some(SetPaused)
    else if StartsWith(data, [22, 135, 160, 194, 23, 186, 124, 110]) then Some(SettleEscrow)
    else if StartsWith(data, [252, 228, 127, 1, 60, 43, 54, 28]) then Some(UpdateEscrow)
    else None
  }

  function DiscriminatorOf(i: Instruction): (d: seq<Byte>)
    ensures |d| == 8
  {
    match i
    case CreateEscrow => CREATE_ESCROW
    case Initialize => [175, 175, 109, 31, 13, 152, 155, 237]
    case MarkDisputed => [136, 86, 152, 120, 3, 21, 223, 251]
    case ResolveDispute => [231, 6, 202, 6, 96, 103, 12, 230]
    case SetPaused => [91, 60, 125, 192, 176, 225, 166, 218]
    case SettleEscrow => SETTLE_ESCROW
    case UpdateEscrow => UPDATE_ESCROW
  }

  /** The order of the tests does not matter: no discriminator shadows another. */
  lemma IdentifyIffPrefix(data: seq<Byte>, i: Instruction)
    ensures Identify(data) == Some(i) <==> StartsWith(data, DiscriminatorOf(i))
  {
    forall j: Instruction | j != i ensures DiscriminatorOf(j)[0] != DiscriminatorOf(i)[0] {}
    if StartsWith(data, DiscriminatorOf(i)) {
      assert data[0] == DiscriminatorOf(i)[0];
    }
  }

  lemma IdentifyEncoded(c: CreateArgs, u: UpdateArgs, s: SettleArgs)
    ensures EncodeCreate(c).Some? ==> Identify(EncodeCreate(c).value) == Some(CreateEscrow)
    ensures Identify(EncodeUpdate(u)) == Some(UpdateEscrow)
    ensures Identify(EncodeSettle(s)) == Some(SettleEscrow)
  {
    if EncodeCreate(c).Some? {
      IdentifyIffPrefix(EncodeCreate(c).value, CreateEscrow);
    }
    IdentifyIffPrefix(EncodeUpdate(u), UpdateEscrow);
    IdentifyIffPrefix(EncodeSettle(s), SettleEscrow);
  }
}
