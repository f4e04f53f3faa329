/** The lottery contract as its test suite pins it down: an operator starts a
    timed sale, participants buy sequentially numbered tickets, anyone settles
    the draw after the deadline, and the lottery becomes inactive again.

    `drawTime == 0` means inactive. Every counter is kept within the width of
    its storage slot. The random choice of winners is not modelled: the draw
    is described by the messages it sends. */
module LotteryContract {
  import opened Cells
  import opened Prizes
  import opened LotteryWrapper

  /** The shortest sale window a start accepts: one hour. */
  const MIN_TIMER: nat := 3600

  const DRAW_COMMENT: string := "Successfully drawn"

  datatype Error =
    | NotOperator        // start by anyone but the operator
    | AlreadyActive      // start while a sale window is open
    | TimerTooShort      // start with a window shorter than MIN_TIMER
    | TooManyPrizeNfts   // more prize NFTs than the ceiling
    | TooManyCoinPrizes  // more coin prizes than the ceiling
    | NotActive          // buy or draw while no sale window is open
    | RangeCheck         // a counter would no longer fit its storage slot

  /** The exit code each failure aborts with. RangeCheck is the virtual
      machine's "integer out of expected range". */
  function ExitCode(e: Error): nat
  {
    match e
    case NotOperator => 501
    case AlreadyActive => 502
    case TimerTooShort => 503
    case TooManyPrizeNfts => 504
    case TooManyCoinPrizes => 505
    case NotActive => 401
    case RangeCheck => 5
  }

  /** A message the lottery sends. */
  datatype OutMsg =
      /** Deploys ticket `index` at its derived address, owned by `owner`. */
    | TicketDeploy(ticket: Address, index: nat, owner: Address)
      /** Half of the prize pool, to the first service wallet. */
    | ServiceShare(wallet: Address, amount: nat)
      /** The payment to the second service wallet; its amount is not known. */
    | ServiceRemainder(wallet: Address)
      /** The acknowledgement to the caller of a draw: op 0 and a comment. */
    | DrawAck(to: Address, op: nat, comment: string)
      /** The jackpot, to the owner of a randomly chosen ticket. */
    | JackpotPayout
      /** One coin prize, to the owner of a randomly chosen ticket. */
    | CoinPrizePayout(slot: nat)
      /** Ownership of a prize NFT, transferred to a randomly chosen ticket's owner. */
    | NftPrizeTransfer(nft: Address)

  datatype Outcome = Success(msgs: seq<OutMsg>) | Failure(error: Error)

  /** What a freshly deployed ticket sends its owner: `ownership_assigned`,
      from the ticket's address, naming the lottery as the previous owner. */
  datatype Notification = OwnershipAssigned(from: Address, to: Address, op: nat, previousOwner: Address)

  /** The notifications the deployed tickets send, one per deploy message,
      in order. */
  function Notifications(msgs: seq<OutMsg>, lottery: Address): (notes: seq<Notification>)
    requires forall i :: 0 <= i < |msgs| ==> msgs[i].TicketDeploy?
    ensures |notes| == |msgs|
    ensures forall i :: 0 <= i < |msgs| ==>
              notes[i] == OwnershipAssigned(msgs[i].ticket, msgs[i].owner, OP_OWNERSHIP_ASSIGNED, lottery)
  {
    if msgs == [] then []
    else [OwnershipAssigned(msgs[0].ticket, msgs[0].owner, OP_OWNERSHIP_ASSIGNED, lottery)] +
         Notifications(msgs[1..], lottery)
  }

  function Repeat(x: Address, n: nat): (s: seq<Address>)
  {
    seq(n, _ => x)
  }

  lemma RepeatAppend(x: Address, a: nat, b: nat)
    ensures Repeat(x, a) + Repeat(x, b) == Repeat(x, a + b)
  {
    assert forall i :: 0 <= i < a + b ==> (Repeat(x, a) + Repeat(x, b))[i] == x;
  }

  /** The deploy messages of k tickets minted from index `first` on, one per
      ticket, in minting order. Every ticket gets its own address. */
  function MintMessages(first: nat, k: nat, owner: Address): (msgs: seq<OutMsg>)
    ensures |msgs| == k
    ensures forall j :: 0 <= j < k ==>
              msgs[j] == TicketDeploy(TicketAddress(first + j), first + j, owner)
    ensures forall i, j :: 0 <= i < j < k ==> msgs[i].ticket != msgs[j].ticket
  {
    if k == 0 then [] else MintMessages(first, k - 1, owner) + [TicketDeploy(TicketAddress(first + k - 1), first + k - 1, owner)]
  }

  /** Minting a + b tickets at once sends the same messages as minting a
      tickets and then b more. */
  lemma MintMessagesSplit(first: nat, a: nat, b: nat, owner: Address)
    ensures MintMessages(first, a, owner) + MintMessages(first + a, b, owner) == MintMessages(first, a + b, owner)
  {
    var lhs := MintMessages(first, a, owner) + MintMessages(first + a, b, owner);
    forall j | 0 <= j < a + b
      ensures lhs[j] == MintMessages(first, a + b, owner)[j]
    {
      if j >= a {
        assert lhs[j] == MintMessages(first + a, b, owner)[j - a];
      }
    }
  }

  /** One coin-prize payment per slot. */
  function CoinPayouts(n: nat): (msgs: seq<OutMsg>)
    ensures |msgs| == n
    ensures forall j :: 0 <= j < n ==> msgs[j] == CoinPrizePayout(j)
  {
    if n == 0 then [] else CoinPayouts(n - 1) + [CoinPrizePayout(n - 1)]
  }

  /** One ownership transfer per prize NFT, in prize order. */
  function NftTransfers(nfts: seq<Address>): (msgs: seq<OutMsg>)
    ensures |msgs| == |nfts|
    ensures forall j :: 0 <= j < |nfts| ==> msgs[j] == NftPrizeTransfer(nfts[j])
  {
    if nfts == [] then [] else [NftPrizeTransfer(nfts[0])] + NftTransfers(nfts[1..])
  }

  /** Everything a draw sends: the two service-wallet payments, the
      acknowledgement to the caller, the jackpot, the coin prizes and the
      prize NFTs. */
  function DrawMessages(caller: Address, wallet1: Address, wallet2: Address, prizePool: nat,
                        coinPrizes: nat, nfts: seq<Address>): seq<OutMsg>
  {
    [ServiceShare(wallet1, prizePool / 2), ServiceRemainder(wallet2), DrawAck(caller, 0, DRAW_COMMENT),
     JackpotPayout] + CoinPayouts(coinPrizes) + NftTransfers(nfts)
  }

  /** The prize NFTs whose ownership the messages transfer, in order. */
  function TransferredNfts(msgs: seq<OutMsg>): seq<Address>
  {
    if msgs == [] then []
    else (if msgs[0].NftPrizeTransfer? then [msgs[0].nft] else []) + TransferredNfts(msgs[1..])
  }

  /** How many of the messages pay a coin prize. */
  function CoinPayoutCount(msgs: seq<OutMsg>): nat
  {
    if msgs == [] then 0
    else (if msgs[0].CoinPrizePayout? then 1 else 0) + CoinPayoutCount(msgs[1..])
  }

  /** How many of the messages pay the jackpot. */
  function JackpotCount(msgs: seq<OutMsg>): nat
  {
    if msgs == [] then 0
    else (if msgs[0].JackpotPayout? then 1 else 0) + JackpotCount(msgs[1..])
  }

  lemma {:induction false} CountsAppend(a: seq<OutMsg>, b: seq<OutMsg>)
    ensures TransferredNfts(a + b) == TransferredNfts(a) + TransferredNfts(b)
    ensures CoinPayoutCount(a + b) == CoinPayoutCount(a) + CoinPayoutCount(b)
    ensures JackpotCount(a + b) == JackpotCount(a) + JackpotCount(b)
  {
    if a == [] {
      assert a + b == b;
    } else {
      assert (a + b)[1..] == a[1..] + b;
      CountsAppend(a[1..], b);
    }
  }

  lemma CountsOne(m: OutMsg)
    ensures TransferredNfts([m]) == if m.NftPrizeTransfer? then [m.nft] else []
    ensures CoinPayoutCount([m]) == if m.CoinPrizePayout? then 1 else 0
    ensures JackpotCount([m]) == if m.JackpotPayout? then 1 else 0
  {
    assert [m][1..] == [];
  }

  lemma {:induction false} CoinPayoutsCounts(n: nat)
    ensures CoinPayoutCount(CoinPayouts(n)) == n
    ensures TransferredNfts(CoinPayouts(n)) == [] && JackpotCount(CoinPayouts(n)) == 0
  {
    if n > 0 {
      CoinPayoutsCounts(n - 1);
      CountsAppend(CoinPayouts(n - 1), [CoinPrizePayout(n - 1)]);
    }
  }

  lemma {:induction false} NftTransfersCounts(nfts: seq<Address>)
    ensures TransferredNfts(NftTransfers(nfts)) == nfts
    ensures CoinPayoutCount(NftTransfers(nfts)) == 0 && JackpotCount(NftTransfers(nfts)) == 0
  {
    if nfts != [] {
      NftTransfersCounts(nfts[1..]);
      CountsAppend([NftPrizeTransfer(nfts[0])], NftTransfers(nfts[1..]));
    }
  }

  /** The four fixed messages of a draw: one jackpot, no coin prize and no
      NFT among them. */
  lemma HeadCounts(m0: OutMsg, m1: OutMsg, m2: OutMsg)
    requires !m0.JackpotPayout? && !m1.JackpotPayout? && !m2.JackpotPayout?
    requires !m0.CoinPrizePayout? && !m1.CoinPrizePayout? && !m2.CoinPrizePayout?
    requires !m0.NftPrizeTransfer? && !m1.NftPrizeTransfer? && !m2.NftPrizeTransfer?
    ensures var head := [m0, m1, m2, JackpotPayout];
      JackpotCount(head) == 1 && CoinPayoutCount(head) == 0 && TransferredNfts(head) == []
  {
    CountsOne(m0);
    CountsOne(m1);
    CountsOne(m2);
    CountsOne(JackpotPayout);
    assert [m0, m1, m2, JackpotPayout] == [m0] + [m1] + [m2] + [JackpotPayout];
    CountsAppend([m0], [m1]);
    CountsAppend([m0] + [m1], [m2]);
    CountsAppend([m0] + [m1] + [m2], [JackpotPayout]);
  }

  /** A draw sends 2 + 1 + 1 + |nfts| + coinPrizes messages: half the pool
      to the first service wallet, the acknowledgement to the caller, exactly
      one jackpot, exactly `coinPrizes` coin prizes, and one transfer of each
      prize NFT, in prize order. */
  lemma DrawMessagesShape(caller: Address, wallet1: Address, wallet2: Address, prizePool: nat,
                          coinPrizes: nat, nfts: seq<Address>)
    ensures var msgs := DrawMessages(caller, wallet1, wallet2, prizePool, coinPrizes, nfts);
      |msgs| == 2 + 1 + 1 + |nfts| + coinPrizes &&
      ServiceShare(wallet1, prizePool / 2) in msgs &&
      DrawAck(caller, 0, DRAW_COMMENT) in msgs &&
      JackpotCount(msgs) == 1 &&
      CoinPayoutCount(msgs) == coinPrizes &&
      TransferredNfts(msgs) == nfts
  {
    var head := [ServiceShare(wallet1, prizePool / 2), ServiceRemainder(wallet2),
                 DrawAck(caller, 0, DRAW_COMMENT), JackpotPayout];
    var msgs := DrawMessages(caller, wallet1, wallet2, prizePool, coinPrizes, nfts);
    assert msgs[0] == head[0] && msgs[2] == head[2];
    HeadCounts(head[0], head[1], head[2]);
    CoinPayoutsCounts(coinPrizes);
    NftTransfersCounts(nfts);
    CountsAppend(head, CoinPayouts(coinPrizes));
    CountsAppend(head + CoinPayouts(coinPrizes), NftTransfers(nfts));
  }

  class Lottery {
    /** The lottery's own address (derived from its code and initial data). */
    const address: Address
    const operator: Address
    const serviceWallet1: Address
    const serviceWallet2: Address
    const nftItemCode: Cell
    const content: Cell
    /** The contract's ceilings on prize NFTs and coin prizes. Their values
        are not known; the tests show 5 <= maxNft < 60 and 4 <= maxCoin < 200. */
    const maxNft: nat
    const maxCoin: nat

    /** The global ticket counter: the index the next ticket gets. */
    var totalTickets: int
    /** The end of the sale window, or 0 when no lottery is active. */
    var drawTime: int
    var ticketPrice: int
    /** Tickets bought since the current lottery started. */
    var activeTickets: int
    var coinPrizes: int
    var prizeNfts: PrizeMap
    /** The list the prize dictionary was packed from. */
    ghost var prizeList: seq<Address>
    /** The owner of every ticket minted so far, by index: the state of the
        ticket contracts, which are deployed at derived addresses. */
    var ticketOwners: seq<Address>

    ghost predicate Valid()
      reads this
    {
      5 <= maxNft < 60 && 4 <= maxCoin < 200 &&
      StorageFits(StorageView()) &&
      0 <= activeTickets <= totalTickets && totalTickets == |ticketOwners| &&
      |prizeList| <= 0x1_0000 && prizeNfts == PrizeDict(prizeList) &&
      (drawTime != 0 ==> coinPrizes <= maxCoin && |prizeList| <= maxNft)
    }

    predicate Active()
      reads this
    {
      drawTime != 0
    }

    /** The storage record the contract's state corresponds to. */
    function StorageView(): Storage
      reads this
    {
      Storage(operator, totalTickets, drawTime, ticketPrice, activeTickets, coinPrizes,
              serviceWallet1, serviceWallet2, nftItemCode, prizeNfts, content)
    }

    /** The state always fits its storage layout: it can be written and read
        back unchanged. */
    lemma StateSerializable()
      requires Valid()
      ensures EncodeStorage(StorageView()).Some?
      ensures ParseStorage(EncodeStorage(StorageView()).value) == Some(StorageView())
    {
      StorageRoundTrip(StorageView());
    }

    /** Deployment with the storage `lotteryConfigToCell` writes: inactive,
        with every counter zero and no prizes. */
    constructor Deploy(config: LotteryConfig, address: Address, maxNft: nat, maxCoin: nat)
      requires 5 <= maxNft < 60 && 4 <= maxCoin < 200
      ensures Valid() && !Active() && this.address == address
      ensures ParseStorage(LotteryConfigToCell(config)) == Some(StorageView())
      ensures ticketOwners == [] && this.maxNft == maxNft && this.maxCoin == maxCoin
    {
      this.address := address;
      operator, serviceWallet1, serviceWallet2 := config.operator, config.serviceWallet1, config.serviceWallet2;
      nftItemCode, content := config.nftItemCode, config.content;
      this.maxNft, this.maxCoin := maxNft, maxCoin;
      totalTickets, drawTime, ticketPrice := 0, 0, IdOrZero(config.id);
      activeTickets, coinPrizes, prizeNfts, prizeList := 0, 0, map[], [];
      ticketOwners := [];
    }

    /** Why `start_lottery` with these parameters is refused, if it is. The
        checks run in this order: caller, activity, timer, prize NFTs, coin
        prizes; a deadline that does not fit 32 bits fails the range check. */
    function StartError(caller: Address, now: int, p: DrawingParams): (err: Option<Error>)
      reads this
      ensures err.None? <==>
        caller == operator && drawTime == 0 && p.timer >= MIN_TIMER &&
        |p.prizeNfts| <= maxNft && p.coinPrizes <= maxCoin && FitsUint(now + p.timer, W32)
      ensures caller != operator ==> err == Some(NotOperator)
      ensures caller == operator && drawTime != 0 ==> err == Some(AlreadyActive)
      ensures caller == operator && drawTime == 0 && p.timer < MIN_TIMER ==> err == Some(TimerTooShort)
      ensures (caller == operator && drawTime == 0 && p.timer >= MIN_TIMER &&
               |p.prizeNfts| > maxNft) ==> err == Some(TooManyPrizeNfts)
      ensures (caller == operator && drawTime == 0 && p.timer >= MIN_TIMER &&
               |p.prizeNfts| <= maxNft && p.coinPrizes > maxCoin) ==> err == Some(TooManyCoinPrizes)
      ensures err == Some(RangeCheck) ==> !FitsUint(now + p.timer, W32)
    {
      if caller != operator then Some(NotOperator)
      else if drawTime != 0 then Some(AlreadyActive)
      else if p.timer < MIN_TIMER then Some(TimerTooShort)
      else if |p.prizeNfts| > maxNft then Some(TooManyPrizeNfts)
      else if p.coinPrizes > maxCoin then Some(TooManyCoinPrizes)
      else if !FitsUint(now + p.timer, W32) then Some(RangeCheck)
      else None
    }

    /** `start_lottery`, with the body's parameters. A refused start sends
        nothing and changes nothing. On success the sale window closes at
        now + timer, no ticket is active yet, and the price, coin prizes and
        prize dictionary are those sent. */
    method Start(caller: Address, now: int, p: DrawingParams) returns (outcome: Outcome)
      requires Valid()
      requires FitsUint(now, W32) && StartParamsFit(p)
      modifies this
      ensures Valid()
      ensures outcome.Failure? <==> old(StartError(caller, now, p)).Some?
      ensures outcome.Failure? ==> Some(outcome.error) == old(StartError(caller, now, p)) && unchanged(this)
      ensures outcome.Success? ==>
        outcome.msgs == [] && Active() &&
        drawTime == now + p.timer && activeTickets == 0 && ticketPrice == p.ticketPrice &&
        coinPrizes == p.coinPrizes && prizeNfts == PrizeDict(p.prizeNfts) && prizeList == p.prizeNfts &&
        totalTickets == old(totalTickets) && ticketOwners == old(ticketOwners)
    {
      var err := StartError(caller, now, p);
      if err.Some? {
        return Failure(err.value);
      }
      var dict := PrizeDict(p.prizeNfts);
      PrizeDictKeysFit(p.prizeNfts);
      drawTime := now + p.timer;
      ticketPrice := p.ticketPrice;
      coinPrizes := p.coinPrizes;
      prizeNfts, prizeList := dict, p.prizeNfts;
      activeTickets := 0;
      return Success([]);
    }

    /** A purchase of k tickets: while a lottery is active, mints tickets
        totalTickets .. totalTickets + k - 1 one at a time, each owned by the
        caller, sending one deploy message per ticket. A purchase that would
        take the ticket counter past 16 bits aborts on the range check. */
    method Buy(caller: Address, now: int, k: nat) returns (outcome: Outcome)
      requires Valid()
      requires Active() ==> now < drawTime
      modifies this
      ensures Valid()
      ensures outcome.Success? <==> old(drawTime) != 0 && FitsUint(old(totalTickets) + k, W16)
      ensures old(drawTime) == 0 ==> outcome == Failure(NotActive)
      ensures old(drawTime) != 0 && !FitsUint(old(totalTickets) + k, W16) ==> outcome == Failure(RangeCheck)
      ensures outcome.Failure? ==> unchanged(this)
      ensures outcome.Success? ==>
        outcome.msgs == MintMessages(old(totalTickets), k, caller) &&
        totalTickets == old(totalTickets) + k && activeTickets == old(activeTickets) + k &&
        ticketOwners == old(ticketOwners) + Repeat(caller, k) &&
        drawTime == old(drawTime) && ticketPrice == old(ticketPrice) &&
        coinPrizes == old(coinPrizes) && prizeNfts == old(prizeNfts) && prizeList == old(prizeList)
    {
      if drawTime == 0 {
        return Failure(NotActive);
      }
      if !FitsUint(totalTickets + k, W16) {
        return Failure(RangeCheck);
      }
      var msgs := [];
      var i := 0;
      while i < k
        invariant 0 <= i <= k
        invariant totalTickets == old(totalTickets) + i && activeTickets == old(activeTickets) + i
        invariant ticketOwners == old(ticketOwners) + Repeat(caller, i)
        invariant msgs == MintMessages(old(totalTickets), i, caller)
        invariant drawTime == old(drawTime) && ticketPrice == old(ticketPrice)
        invariant coinPrizes == old(coinPrizes) && prizeNfts == old(prizeNfts) && prizeList == old(prizeList)
      {
        msgs := msgs + [TicketDeploy(TicketAddress(totalTickets), totalTickets, caller)];
        RepeatAppend(caller, i, 1);
        assert Repeat(caller, 1) == [caller];
        ticketOwners := ticketOwners + [caller];
        totalTickets := totalTickets + 1;
        activeTickets := activeTickets + 1;
        i := i + 1;
      }
      return Success(msgs);
    }

    /** Settlement after the deadline: sends the draw's messages for the
        current prizes and a prize pool of `prizePool` nanotons, and makes
        the lottery inactive. With no active lottery it fails and changes
        nothing. */
    method Draw(caller: Address, now: int, prizePool: nat) returns (outcome: Outcome)
      requires Valid()
      requires Active() ==> now >= drawTime && activeTickets >= 1 + coinPrizes + |prizeList|
      modifies this
      ensures Valid()
      ensures old(drawTime) == 0 ==> outcome == Failure(NotActive) && unchanged(this)
      ensures old(drawTime) != 0 ==>
        outcome == Success(DrawMessages(caller, serviceWallet1, serviceWallet2, prizePool,
                                        old(coinPrizes), KeyOrderValues(old(prizeNfts)))) &&
        !Active() && totalTickets == old(totalTickets) && activeTickets == old(activeTickets) &&
        ticketOwners == old(ticketOwners) && ticketPrice == old(ticketPrice) &&
        coinPrizes == old(coinPrizes) && prizeNfts == old(prizeNfts) && prizeList == old(prizeList)
    {
      if drawTime == 0 {
        return Failure(NotActive);
      }
      var msgs := DrawMessages(caller, serviceWallet1, serviceWallet2, prizePool, coinPrizes,
                               KeyOrderValues(prizeNfts));
      drawTime := 0;
      return Success(msgs);
    }

    /** `get_lottery_data`, as the wrapper reads it: the prize NFTs come back
        in key order. */
    function GetLotteryData(prizePool: int): (stack: seq<StackEntry>)
      reads this
      ensures ReadLotteryData(stack) ==
        Some(LotteryData(drawTime, ticketPrice, prizePool, activeTickets, coinPrizes,
                         KeyOrderValues(prizeNfts)))
    {
      LotteryDataStack(drawTime, ticketPrice, prizePool, activeTickets, coinPrizes, prizeNfts)
    }

    /** `get_nft_address_by_index`: the derived address of a ticket. */
    function GetNftAddressByIndex(index: nat): Address
    {
      TicketAddress(index)
    }

    /** Distinct indices give distinct ticket addresses, and equal ones the
        same address. */
    lemma NftAddressInjective(i: nat, j: nat)
      ensures GetNftAddressByIndex(i) == GetNftAddressByIndex(j) <==> i == j
    {
    }
  }
}
