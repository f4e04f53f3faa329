/** The client side of the lottery (`wrappers/Lottery.ts`): the initial
    storage cell, the request bodies, the value attached to a purchase and the
    order in which `get_lottery_data` is read. */
module LotteryWrapper {
  import opened Cells
  import opened Prizes

  const OP_START_LOTTERY: nat := 0x9f79558f
  const OP_CHANGE_CONTENT: nat := 4
  /** `Opcodes.ownership_assigned`: what a ticket sends its new owner. */
  const OP_OWNERSHIP_ASSIGNED: nat := 0x05138d91

  /** The deployer's choices. `id` only salts the initial price slot, so
      that otherwise identical lotteries get different addresses. */
  datatype LotteryConfig = LotteryConfig(
    operator: Address,
    serviceWallet1: Address,
    serviceWallet2: Address,
    nftItemCode: Cell,
    content: Cell,
    id: Option<nat>)

  /** `config.id || 0`: an absent id, and the id 0, both give 0. */
  function IdOrZero(id: Option<nat>): nat
  {
    match id
    case None => 0
    case Some(n) => n
  }

  /** The lottery's persistent storage, field by field in layout order. */
  datatype Storage = Storage(
    operator: Address,
    totalTickets: int,
    drawTime: int,
    price: int,
    activeTickets: int,
    coinPrizes: int,
    serviceWallet1: Address,
    serviceWallet2: Address,
    nftItemCode: Cell,
    prizeNfts: PrizeMap,
    content: Cell)

  /** Every counter fits the width its slot is written with. */
  predicate StorageFits(s: Storage)
  {
    FitsUint(s.totalTickets, W16) && FitsUint(s.drawTime, W32) && 0 <= s.price &&
    FitsUint(s.activeTickets, W16) && FitsUint(s.coinPrizes, W16) && KeysFit16(s.prizeNfts)
  }

  /** The storage layout as `lotteryConfigToCell` writes it: total_tickets
      16 bits, draw_time 32 bits, price as Coins, active_tickets 16 bits,
      coin_prizes 16 bits, then refs to the service wallets, to the ticket
      code, the prize dictionary and a ref to the content. */
  function EncodeStorage(s: Storage): Option<Cell>
  {
    Build([Addr(s.operator), Uint(s.totalTickets, W16), Uint(s.drawTime, W32), Coins(s.price),
           Uint(s.activeTickets, W16), Uint(s.coinPrizes, W16),
           Ref(Cell([Addr(s.serviceWallet1), Addr(s.serviceWallet2)])),
           Ref(s.nftItemCode), Dict(s.prizeNfts), Ref(s.content)])
  }

  predicate IsUint(f: Field, w: Width)
  {
    f.Uint? && f.width == w && FitsUint(f.value, w)
  }

  predicate IsCoins(f: Field)
  {
    f.Coins? && 0 <= f.amount
  }

  predicate IsWalletsRef(f: Field)
  {
    f.Ref? && |f.child.fields| == 2 && f.child.fields[0].Addr? && f.child.fields[1].Addr?
  }

  /** Loads the storage layout back; fails on a cell of any other shape. */
  function ParseStorage(c: Cell): (r: Option<Storage>)
    ensures r.Some? ==> StorageFits(r.value)
  {
    var f := c.fields;
    if |f| == 10 && f[0].Addr? && IsUint(f[1], W16) && IsUint(f[2], W32) && IsCoins(f[3]) &&
       IsUint(f[4], W16) && IsUint(f[5], W16) && IsWalletsRef(f[6]) && f[7].Ref? &&
       f[8].Dict? && KeysFit16(f[8].entries) && f[9].Ref?
    then
      Some(Storage(f[0].address, f[1].value, f[2].value, f[3].amount, f[4].value, f[5].value,
                   f[6].child.fields[0].address, f[6].child.fields[1].address,
                   f[7].child, f[8].entries, f[9].child))
    else
      None
  }

  /** Storage whose counters fit their widths can be written, and reading the
      cell back gives the same storage. */
  lemma StorageRoundTrip(s: Storage)
    requires StorageFits(s)
    ensures EncodeStorage(s).Some?
    ensures ParseStorage(EncodeStorage(s).value) == Some(s)
  {
  }

  /** The storage `lotteryConfigToCell` describes. */
  function InitialStorage(config: LotteryConfig): Storage
  {
    Storage(config.operator, 0, 0, IdOrZero(config.id), 0, 0,
            config.serviceWallet1, config.serviceWallet2, config.nftItemCode, map[], config.content)
  }

  /** `lotteryConfigToCell`: the initial storage of a deployed lottery. Every
      counter is zero and the prize dictionary is empty, so the lottery
      starts inactive; the price slot holds the salt `id || 0`. */
  function LotteryConfigToCell(config: LotteryConfig): (c: Cell)
    ensures EncodeStorage(InitialStorage(config)) == Some(c)
    ensures ParseStorage(c).Some?
    ensures var s := ParseStorage(c).value;
      s.drawTime == 0 && s.totalTickets == 0 && s.activeTickets == 0 && s.coinPrizes == 0 &&
      s.prizeNfts == map[] && s.price == IdOrZero(config.id) && s.operator == config.operator &&
      s.serviceWallet1 == config.serviceWallet1 && s.serviceWallet2 == config.serviceWallet2 &&
      s.nftItemCode == config.nftItemCode && s.content == config.content
  {
    Cell([Addr(config.operator),
          Uint(0, W16),  // total_tickets
          Uint(0, W32),  // draw_time
          Coins(IdOrZero(config.id)),  // price
          Uint(0, W16),  // active_tickets
          Uint(0, W16),  // coin_prizes
          Ref(Cell([Addr(config.serviceWallet1), Addr(config.serviceWallet2)])),
          Ref(config.nftItemCode),
          Dict(map[]),  // prize_nfts
          Ref(config.content)])
  }

  /** `DrawingParams`: what the operator sends to start a lottery. */
  datatype DrawingParams = DrawingParams(timer: int, ticketPrice: int, coinPrizes: int, prizeNfts: seq<Address>)

  /** What the start-lottery body can carry: a 32-bit timer, a non-negative
      price, a 16-bit coin-prize count and at most 2^16 prize NFTs. */
  predicate StartParamsFit(p: DrawingParams)
  {
    FitsUint(p.timer, W32) && 0 <= p.ticketPrice && FitsUint(p.coinPrizes, W16) &&
    |p.prizeNfts| <= 0x1_0000
  }

  /** The body of `sendStartLottery`: op, query id 0, timer, price, coin-prize
      count and the packed prize dictionary. It fails exactly when a store
      rejects its value or the prize list cannot be packed. */
  function StartLotteryBody(p: DrawingParams): (r: Option<Cell>)
    ensures r.Some? <==> StartParamsFit(p)
  {
    if |p.prizeNfts| <= 0x1_0000 then
      StartFieldsFit(p);
      Build(StartFields(p))
    else
      None
  }

  function StartFields(p: DrawingParams): seq<Field>
  {
    [Uint(OP_START_LOTTERY, W32), Uint(0, W64), Uint(p.timer, W32), Coins(p.ticketPrice),
     Uint(p.coinPrizes, W16), Dict(PrizeDict(p.prizeNfts))]
  }

  lemma StartFieldsFit(p: DrawingParams)
    requires |p.prizeNfts| <= 0x1_0000
    ensures (forall i :: 0 <= i < |StartFields(p)| ==> FieldFits(StartFields(p)[i])) <==> StartParamsFit(p)
  {
    var f := StartFields(p);
    PrizeDictKeysFit(p.prizeNfts);
    assert FieldFits(f[0]) && FieldFits(f[1]) && FieldFits(f[5]);
    assert FieldFits(f[2]) <==> FitsUint(p.timer, W32);
    assert FieldFits(f[3]) <==> 0 <= p.ticketPrice;
    assert FieldFits(f[4]) <==> FitsUint(p.coinPrizes, W16);
  }

  /** Reads a start-lottery body in its layout: op, query id 0, timer, price,
      coin-prize count, prize dictionary (its values in key order). */
  function ParseStartBody(c: Cell): Option<DrawingParams>
  {
    var f := c.fields;
    if |f| == 6 && f[0] == Uint(OP_START_LOTTERY, W32) && f[1] == Uint(0, W64) && IsUint(f[2], W32) &&
       IsCoins(f[3]) && IsUint(f[4], W16) && f[5].Dict? && KeysFit16(f[5].entries)
    then
      Some(DrawingParams(f[2].value, f[3].amount, f[4].value, KeyOrderValues(f[5].entries)))
    else
      None
  }

  /** Decoding a start-lottery body gives back the parameters it was built
      from, prize list included. */
  lemma StartBodyRoundTrip(p: DrawingParams)
    requires StartParamsFit(p)
    ensures StartLotteryBody(p).Some?
    ensures ParseStartBody(StartLotteryBody(p).value) == Some(p)
    ensures ParseChangeContentBody(StartLotteryBody(p).value) == None
  {
    var f := StartFields(p);
    assert |f| == 6 && f[0] == Uint(OP_START_LOTTERY, W32);
    assert f[1] == Uint(0, W64);
    assert IsUint(f[2], W32);
    assert IsCoins(f[3]) && IsUint(f[4], W16) && f[5].Dict?;
    assert f[5].entries == PrizeDict(p.prizeNfts);
    PrizeDictKeysFit(p.prizeNfts);
    StartFieldsFit(p);
    PrizeRoundTrip(p.prizeNfts);
    assert StartLotteryBody(p) == Some(Cell(f));
  }

  /** The body of `sendChangeContent`: op 4, query id 0 and one ref holding
      the new content. */
  function ChangeContentBody(content: Cell): (c: Cell)
    ensures ParseChangeContentBody(c) == Some(content)
    ensures ParseStartBody(c) == None
  {
    Cell([Uint(OP_CHANGE_CONTENT, W32), Uint(0, W64), Ref(content)])
  }

  function ParseChangeContentBody(c: Cell): Option<Cell>
  {
    var f := c.fields;
    if |f| == 3 && f[0] == Uint(OP_CHANGE_CONTENT, W32) && f[1] == Uint(0, W64) && f[2].Ref?
    then Some(f[2].child)
    else None
  }

  /** An internal message to the lottery: the attached value in nanotons and
      the body. */
  datatype Request = Request(value: int, body: Cell)

  /** `sendStartLottery`: the request carries the value the operator
      attaches, and the lottery can decode the drawing parameters from its
      body. Parameters that do not fit the body make the wrapper throw. */
  function SendStartLottery(p: DrawingParams, value: int): (r: Option<Request>)
    ensures r.Some? <==> StartParamsFit(p)
    ensures r.Some? ==> r.value.value == value && ParseStartBody(r.value.body) == Some(p)
  {
    match StartLotteryBody(p)
    case None => None
    case Some(body) => StartBodyRoundTrip(p); Some(Request(value, body))
  }

  /** `sendBuyTickets`: an empty body carrying the price of the tickets, as
      read from `get_lottery_data` just before. */
  function SendBuyTickets(tickets: int, ticketPrice: int): (r: Request)
    ensures r.body == EmptyCell
    ensures 0 < ticketPrice ==> r.value / ticketPrice == tickets && r.value % ticketPrice == 0
    ensures 0 <= tickets && 0 <= ticketPrice ==> 0 <= r.value
  {
    var r := Request(tickets * ticketPrice, EmptyCell);
    if 0 < ticketPrice then MulDivExact(tickets, ticketPrice); r else r
  }

  lemma MulDivExact(t: int, p: int)
    requires 0 < p
    ensures (t * p) / p == t && (t * p) % p == 0
  {
    var q, r := (t * p) / p, (t * p) % p;
    assert p * (t - q) == r;
    if t - q >= 1 {
      assert false;
    } else if t - q <= -1 {
      assert false;
    }
  }

  /** `sendDraw`: an empty body carrying 1.2 TON, the same body a purchase
      carries. */
  function SendDraw(): (r: Request)
    ensures r.body == SendBuyTickets(1, 1).body && r.value == 1_200_000_000
  {
    Request(1_200_000_000, EmptyCell)
  }

  /** With a ticket price above 1.2 TON (the suite uses 2 TON), the value of a
      draw request is not the value of any purchase: only the attached value
      tells the two empty-bodied requests apart. */
  lemma DrawValueIsNoPurchase(tickets: int, ticketPrice: int)
    requires 1_200_000_000 < ticketPrice && 0 <= tickets
    ensures SendDraw().body == SendBuyTickets(tickets, ticketPrice).body
    ensures SendDraw().value != SendBuyTickets(tickets, ticketPrice).value
  {
    var v := SendBuyTickets(tickets, ticketPrice).value;
    assert v / ticketPrice == tickets && v % ticketPrice == 0;
    if v == 1_200_000_000 {
      assert false;
    }
  }

  /** `sendChangeContent`: carries 0.02 TON, and the lottery decodes the
      new content from its body (and no drawing parameters). */
  function SendChangeContent(content: Cell): (r: Request)
    ensures r.value == 20_000_000
    ensures ParseChangeContentBody(r.body) == Some(content) && ParseStartBody(r.body) == None
  {
    Request(20_000_000, ChangeContentBody(content))
  }

  /** A `get_lottery_data` stack entry: an integer or an optional dictionary cell. */
  datatype StackEntry = Int(n: int) | CellOpt(dict: Option<PrizeMap>)

  datatype LotteryData = LotteryData(
    drawTime: int,
    ticketPrice: int,
    prizePool: int,
    activeTickets: int,
    coinPrizes: int,
    nftAddresses: seq<Address>)

  /** `getLotteryData`: reads draw time, ticket price, prize pool, active
      tickets and coin prizes as numbers, then the optional prize dictionary,
      whose values it returns in key order (none when the cell is null). A
      read of the wrong kind, or past the end, throws. */
  function ReadLotteryData(stack: seq<StackEntry>): Option<LotteryData>
  {
    if |stack| >= 6 && stack[0].Int? && stack[1].Int? && stack[2].Int? && stack[3].Int? &&
       stack[4].Int? && stack[5].CellOpt?
    then
      Some(LotteryData(stack[0].n, stack[1].n, stack[2].n, stack[3].n, stack[4].n,
                       match stack[5].dict
                       case None => []
                       case Some(d) => KeyOrderValues(d)))
    else
      None
  }

  /** The stack `get_lottery_data` returns, in the order the wrapper reads it. */
  function LotteryDataStack(drawTime: int, ticketPrice: int, prizePool: int, activeTickets: int,
                             coinPrizes: int, prizeNfts: PrizeMap): (stack: seq<StackEntry>)
    ensures ReadLotteryData(stack) ==
            Some(LotteryData(drawTime, ticketPrice, prizePool, activeTickets, coinPrizes,
                             KeyOrderValues(prizeNfts)))
  {
    [Int(drawTime), Int(ticketPrice), Int(prizePool), Int(activeTickets), Int(coinPrizes),
     CellOpt(Some(prizeNfts))]
  }

  /** The layout comment gives coin_prizes as uint8, but both the storage
      writer and the start-lottery body write it with 16 bits: a count of
      256, which uint8 cannot hold, is accepted by both. */
  lemma CoinPrizesWrittenWith16Bits(config: LotteryConfig)
    ensures !FitsUint(256, W8)
    ensures LotteryConfigToCell(config).fields[5] == Uint(0, W16)
    ensures StartLotteryBody(DrawingParams(3600, 0, 256, [])).Some?
    ensures EncodeStorage(InitialStorage(config).(coinPrizes := 256)).Some?
  {
  }
}
