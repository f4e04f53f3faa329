/** The lottery test suite (`tests/Lottery.spec.ts`) run against the model:
    its helpers, and its `it` blocks in order on one long-lived lottery. */
module LotteryTests {
  import opened Cells
  import opened Prizes
  import opened LotteryWrapper
  import opened LotteryContract

  /** `addrArraysEquals`: compares the lengths, then the addresses one by
      one, stopping at the first difference. */
  method AddrArraysEquals(a: seq<Address>, b: seq<Address>) returns (r: bool)
    ensures r <==> a == b
  {
    if |a| != |b| {
      return false;
    }
    var i := 0;
    while i < |a|
      invariant 0 <= i <= |a|
      invariant forall j :: 0 <= j < i ==> a[j] == b[j]
    {
      if a[i] != b[i] {
        return false;
      }
      i := i + 1;
    }
    return true;
  }

  /** 1 + 2 + ... + n. */
  function Triangle(n: nat): nat
  {
    if n == 0 then 0 else Triangle(n - 1) + n
  }

  lemma {:induction false} TriangleMonotone(i: nat, n: nat)
    requires i <= n
    ensures Triangle(i) <= Triangle(n)
  {
    if i < n {
      TriangleMonotone(i, n - 1);
    }
  }

  /** The ticket owners after participant k (counting from 0) has bought
      k + 1 tickets, for every k < i. */
  function BoughtBy(ps: seq<Address>, i: nat): (owners: seq<Address>)
    requires i <= |ps|
    ensures |owners| == Triangle(i)
  {
    if i == 0 then [] else BoughtBy(ps, i - 1) + Repeat(ps[i - 1], i)
  }

  /** 'should buy tickets': participant i buys i + 1 tickets; each purchase
      sends i + 1 messages and every ticket it mints is owned by that
      participant. */
  method BuyForEachParticipant(l: Lottery, ps: seq<Address>, now: int) returns (ticketBought: nat)
    requires l.Valid() && l.Active() && now < l.drawTime
    requires FitsUint(l.totalTickets + Triangle(|ps|), W16)
    modifies l
    ensures l.Valid() && l.Active()
    ensures ticketBought == Triangle(|ps|)
    ensures l.activeTickets == old(l.activeTickets) + ticketBought
    ensures l.totalTickets == old(l.totalTickets) + ticketBought
    ensures l.ticketOwners == old(l.ticketOwners) + BoughtBy(ps, |ps|)
    ensures l.drawTime == old(l.drawTime) && l.ticketPrice == old(l.ticketPrice)
    ensures l.coinPrizes == old(l.coinPrizes) && l.prizeNfts == old(l.prizeNfts) && l.prizeList == old(l.prizeList)
  {
    ticketBought := 0;
    var i := 0;
    while i < |ps|
      invariant 0 <= i <= |ps| && ticketBought == Triangle(i)
      invariant l.Valid() && l.Active()
      invariant l.activeTickets == old(l.activeTickets) + ticketBought
      invariant l.totalTickets == old(l.totalTickets) + ticketBought
      invariant l.ticketOwners == old(l.ticketOwners) + BoughtBy(ps, i)
      invariant l.drawTime == old(l.drawTime) && l.ticketPrice == old(l.ticketPrice)
      invariant l.coinPrizes == old(l.coinPrizes) && l.prizeNfts == old(l.prizeNfts) && l.prizeList == old(l.prizeList)
    {
      TriangleMonotone(i + 1, |ps|);
      var before := l.totalTickets;
      var outcome := l.Buy(ps[i], now, i + 1);
      assert outcome.Success? && |outcome.msgs| == i + 1;
      // ticket ticketBought + j is deployed at the address the getter derives,
      // and is owned by participant i
      assert forall j :: 0 <= j < i + 1 ==>
        outcome.msgs[j].ticket == l.GetNftAddressByIndex(before + j) && outcome.msgs[j].owner == ps[i];
      assert forall j :: before <= j < before + i + 1 ==> l.ticketOwners[j] == ps[i];
      ticketBought := ticketBought + i + 1;
      i := i + 1;
    }
  }

  /** `buyManyWithOneTx`: one purchase of n tickets; it sends n messages, to
      n distinct ticket addresses, and the buyer receives n `ownership_assigned`
      notifications naming the lottery, each from a different ticket. */
  method BuyManyWithOneTx(l: Lottery, buyer: Address, now: int, n: nat)
    returns (msgs: seq<OutMsg>, notes: seq<Notification>)
    requires l.Valid() && l.Active() && now < l.drawTime
    requires FitsUint(l.totalTickets + n, W16)
    modifies l
    ensures l.Valid() && l.Active()
    ensures |msgs| == n && forall i :: 0 <= i < n ==> msgs[i].TicketDeploy? && msgs[i].owner == buyer
    ensures forall i, j :: 0 <= i < j < n ==> msgs[i].ticket != msgs[j].ticket
    ensures |notes| == n
    ensures forall i :: 0 <= i < n ==>
              notes[i].to == buyer && notes[i].op == 0x05138d91 && notes[i].previousOwner == l.address
    ensures forall i, j :: 0 <= i < j < n ==> notes[i].from != notes[j].from
    ensures l.activeTickets == old(l.activeTickets) + n && l.totalTickets == old(l.totalTickets) + n
    ensures l.ticketOwners == old(l.ticketOwners) + Repeat(buyer, n)
    ensures l.drawTime == old(l.drawTime) && l.ticketPrice == old(l.ticketPrice)
    ensures l.coinPrizes == old(l.coinPrizes) && l.prizeNfts == old(l.prizeNfts) && l.prizeList == old(l.prizeList)
  {
    var outcome := l.Buy(buyer, now, n);
    msgs := outcome.msgs;
    notes := Notifications(msgs, l.address);
  }

  /** `buyManyWithSmallTxs`: n purchases of one ticket each, each sending one
      message and bringing the buyer one `ownership_assigned` notification. It
      ends in the same state as `BuyManyWithOneTx`: the same counters and the
      same owner for every new ticket. */
  method BuyManyWithSmallTxs(l: Lottery, buyer: Address, now: int, n: nat)
    requires l.Valid() && l.Active() && now < l.drawTime
    requires FitsUint(l.totalTickets + n, W16)
    modifies l
    ensures l.Valid() && l.Active()
    ensures l.activeTickets == old(l.activeTickets) + n && l.totalTickets == old(l.totalTickets) + n
    ensures l.ticketOwners == old(l.ticketOwners) + Repeat(buyer, n)
    ensures l.drawTime == old(l.drawTime) && l.ticketPrice == old(l.ticketPrice)
    ensures l.coinPrizes == old(l.coinPrizes) && l.prizeNfts == old(l.prizeNfts) && l.prizeList == old(l.prizeList)
  {
    var i := 0;
    while i < n
      invariant 0 <= i <= n
      invariant l.Valid() && l.Active()
      invariant l.activeTickets == old(l.activeTickets) + i && l.totalTickets == old(l.totalTickets) + i
      invariant l.ticketOwners == old(l.ticketOwners) + Repeat(buyer, i)
      invariant l.drawTime == old(l.drawTime) && l.ticketPrice == old(l.ticketPrice)
      invariant l.coinPrizes == old(l.coinPrizes) && l.prizeNfts == old(l.prizeNfts) && l.prizeList == old(l.prizeList)
    {
      var outcome := l.Buy(buyer, now, 1);
      assert outcome.Success? && |outcome.msgs| == 1;
      var notes := Notifications(outcome.msgs, l.address);
      assert notes[0].to == buyer && notes[0].op == 0x05138d91;
      RepeatAppend(buyer, i, 1);
      i := i + 1;
    }
  }

  /** The `draw` helper: a draw by `caller` sends 2 + 1 + 1 + (prize NFTs read
      before) + (coin prizes read before) messages, among them half the prize
      pool to the first service wallet and the acknowledgement to the caller. */
  method DrawAndCheck(l: Lottery, caller: Address, now: int, prizePool: nat) returns (msgs: seq<OutMsg>)
    requires l.Valid() && l.Active() && now >= l.drawTime
    requires l.activeTickets >= 1 + l.coinPrizes + |l.prizeList|
    modifies l
    ensures l.Valid() && !l.Active()
    ensures |msgs| == 2 + 1 + 1 + |old(l.prizeList)| + old(l.coinPrizes)
    ensures ServiceShare(l.serviceWallet1, prizePool / 2) in msgs
    ensures DrawAck(caller, 0, DRAW_COMMENT) in msgs
    ensures l.totalTickets == old(l.totalTickets) && l.ticketOwners == old(l.ticketOwners)
    ensures l.activeTickets == old(l.activeTickets)
  {
    var dataBefore := ReadLotteryData(l.GetLotteryData(prizePool)).value;
    PrizeCount(l.prizeList);
    var outcome := l.Draw(caller, now, prizePool);
    DrawMessagesShape(caller, l.serviceWallet1, l.serviceWallet2, prizePool,
                      dataBefore.coinPrizes, dataBefore.nftAddresses);
    msgs := outcome.msgs;
    assert |msgs| == 2 + 1 + 1 + |dataBefore.nftAddresses| + dataBefore.coinPrizes;
  }

  /** The four refused starts after the first draw: by a participant (501),
      with a 3599-second timer (503), with 60 prize NFTs (504) and with 200
      coin prizes (505). None of them changes the lottery. */
  method RefusedStarts(l: Lottery, participant: Address, now: int,
                       nfts5: seq<Address>, nfts1: seq<Address>, nfts60: seq<Address>)
    returns (codes: seq<nat>)
    requires l.Valid() && !l.Active() && FitsUint(now, W32) && now + 3600 < 0x1_0000_0000
    requires participant != l.operator && |nfts5| == 5 && |nfts1| == 1 && |nfts60| == 60
    modifies l
    ensures codes == [501, 503, 504, 505]
    ensures unchanged(l)
  {
    var price := 2_000_000_000;
    var r1 := l.Start(participant, now, DrawingParams(3600, price, 4, nfts5));
    var r2 := l.Start(l.operator, now, DrawingParams(3599, price, 1, nfts1));
    var r3 := l.Start(l.operator, now, DrawingParams(3600, price, 1, nfts60));
    var r4 := l.Start(l.operator, now, DrawingParams(3600, price, 200, nfts1));
    codes := [ExitCode(r1.error), ExitCode(r2.error), ExitCode(r3.error), ExitCode(r4.error)];
  }

  /** A start by the operator of a lottery that is inactive: the window ends
      at now + timer, and `get_lottery_data` reports no active ticket and the
      price, coin prizes and prize NFTs sent. */
  method StartAndRead(l: Lottery, now: int, timer: nat, nfts: seq<Address>, coins: nat)
    returns (data: LotteryData)
    requires l.Valid() && !l.Active() && FitsUint(now, W32) && now + timer < 0x1_0000_0000
    requires MIN_TIMER <= timer && |nfts| <= l.maxNft && coins <= 4
    modifies l
    ensures l.Valid() && l.Active() && l.drawTime == now + timer
    ensures data.drawTime == now + timer && data.activeTickets == 0 && data.coinPrizes == coins
    ensures data.ticketPrice == 2_000_000_000 && data.nftAddresses == nfts
    ensures l.prizeList == nfts && l.coinPrizes == coins && l.activeTickets == 0
    ensures l.totalTickets == old(l.totalTickets) && l.ticketOwners == old(l.ticketOwners)
  {
    var outcome := l.Start(l.operator, now, DrawingParams(timer, 2_000_000_000, coins, nfts));
    PrizeRoundTrip(nfts);
    data := ReadLotteryData(l.GetLotteryData(0)).value;
    var same := AddrArraysEquals(data.nftAddresses, nfts);
    assert same;
  }

  /** 'should not let to start lottery after it started': 502, and the
      running lottery is left as it was. */
  method RefusedRestart(l: Lottery, now: int, nfts: seq<Address>) returns (code: nat)
    requires l.Valid() && l.Active() && FitsUint(now, W32) && |nfts| <= 0x1_0000
    modifies l
    ensures code == 502 && unchanged(l)
  {
    var outcome := l.Start(l.operator, now, DrawingParams(3600, 2_000_000_000, 4, nfts));
    code := ExitCode(outcome.error);
  }

  /** 'should not let to draw twice': a second draw, once the lottery is
      inactive, aborts with 401 and changes nothing. */
  method RefusedSecondDraw(l: Lottery, caller: Address, now: int, prizePool: nat) returns (code: nat)
    requires l.Valid() && !l.Active()
    modifies l
    ensures code == 401 && unchanged(l)
  {
    var outcome := l.Draw(caller, now, prizePool);
    code := ExitCode(outcome.error);
  }

  /** One start-buy-draw cycle of the fee checks: start at `now` for 6000
      seconds, buy 150 tickets (in one purchase or in 150), draw at the
      deadline. */
  method Cycle(l: Lottery, buyer: Address, caller: Address, now: int, nfts: seq<Address>,
               oneTx: bool, prizePool: nat) returns (msgs: seq<OutMsg>)
    requires l.Valid() && !l.Active() && FitsUint(now, W32) && now + 6000 < 0x1_0000_0000
    requires |nfts| == 1 && l.totalTickets + 150 < 0x1_0000
    modifies l
    ensures l.Valid() && !l.Active() && |msgs| == 2 + 1 + 1 + 1 + 4
    ensures l.activeTickets == 150 && l.totalTickets == old(l.totalTickets) + 150
    ensures l.ticketOwners == old(l.ticketOwners) + Repeat(buyer, 150)
  {
    var data := StartAndRead(l, now, 6000, nfts, 4);
    if oneTx {
      var _, _ := BuyManyWithOneTx(l, buyer, now, 150);
    } else {
      BuyManyWithSmallTxs(l, buyer, now, 150);
    }
    msgs := DrawAndCheck(l, caller, now + 6000, prizePool);
  }

  /** The first lottery of the suite: deployed, started at 100 with a
      one-hour timer, five prize NFTs and four coin prizes, bought into by
      the five participants and drawn at 3800; then the four refused
      starts. */
  method FirstLottery(maxNft: nat, maxCoin: nat, config: LotteryConfig, self: Address, ps: seq<Address>,
                      nfts5: seq<Address>, nfts1: seq<Address>, nfts60: seq<Address>, pool: nat)
    returns (l: Lottery, drawTime: int, codes: seq<nat>, drawMsgCount: nat)
    requires 5 <= maxNft < 60 && 4 <= maxCoin < 200
    requires |ps| == 5 && ps[0] != config.operator
    requires |nfts5| == 5 && |nfts1| == 1 && |nfts60| == 60
    ensures fresh(l) && l.Valid() && !l.Active() && l.totalTickets == 15 && l.activeTickets == 15
    ensures l.ticketOwners == BoughtBy(ps, 5)
    ensures drawTime == 3700 && codes == [501, 503, 504, 505] && drawMsgCount == 13
  {
    l := new Lottery.Deploy(config, self, maxNft, maxCoin);
    // should deploy and start lottery
    var data := StartAndRead(l, 100, 3600, nfts5, 4);
    drawTime := data.drawTime;
    // should buy tickets
    var bought := BuyForEachParticipant(l, ps, 100);
    assert Triangle(5) == 15 by {
      assert Triangle(1) == 1 && Triangle(2) == 3 && Triangle(3) == 6 && Triangle(4) == 10;
    }
    assert l.activeTickets == bought == 15;
    // should draw lottery
    var msgs := DrawAndCheck(l, ps[0], 3800, pool);
    drawMsgCount := |msgs|;
    // should not let to start lottery by non-operator / with too small timer
    // / with too many prize NFTs / with too many coin prizes
    codes := RefusedStarts(l, ps[0], 3800, nfts5, nfts1, nfts60);
  }

  /** The second lottery: started at 4000 for 6000 seconds with one prize
      NFT, refused a second start, bought into by 150 + 150 tickets, drawn at
      11000 and refused a second draw. */
  method SecondLottery(l: Lottery, ps: seq<Address>, nfts: seq<Address>, pool: nat)
    returns (drawTime: int, codes: seq<nat>, drawMsgCount: nat)
    requires l.Valid() && !l.Active() && l.totalTickets == 15
    requires |ps| == 5 && |nfts| == 1
    modifies l
    ensures l.Valid() && !l.Active() && l.totalTickets == 315
    ensures drawTime == 10000 && codes == [502, 401] && drawMsgCount == 9
  {
    // should start
    var data := StartAndRead(l, 4000, 6000, nfts, 4);
    drawTime := data.drawTime;
    // should not let to start lottery after it started
    var again := RefusedRestart(l, 4000, nfts);
    // should buy a lot of tickets with one transfer / with many transfers
    var _, _ := BuyManyWithOneTx(l, ps[0], 4000, 150);
    BuyManyWithSmallTxs(l, ps[1], 4000, 150);
    // should draw
    var msgs := DrawAndCheck(l, ps[0], 11000, pool);
    drawMsgCount := |msgs|;
    // should not let to draw twice
    var twice := RefusedSecondDraw(l, ps[0], 11000, pool);
    codes := [again, twice];
  }

  /** The whole suite, in the order of its `it` blocks, on one lottery
      deployed with `lotteryConfigToCell`'s storage. Participants, prize NFTs
      and prize pools are arbitrary; the prize ceilings are any values the
      tests allow. */
  method LotterySuite(maxNft: nat, maxCoin: nat, config: LotteryConfig, self: Address, ps: seq<Address>,
                      nfts5: seq<Address>, nfts1: seq<Address>, nfts60: seq<Address>,
                      nftsLast: seq<Address>, pools: seq<nat>)
    returns (drawTimes: seq<int>, exitCodes: seq<nat>, drawMsgCounts: seq<nat>)
    requires 5 <= maxNft < 60 && 4 <= maxCoin < 200
    requires |ps| == 5 && ps[0] != config.operator
    requires |nfts5| == 5 && |nfts1| == 1 && |nfts60| == 60 && |nftsLast| == 1 && |pools| == 4
    ensures drawTimes == [3700, 10000]
    ensures exitCodes == [501, 503, 504, 505, 502, 401]
    ensures drawMsgCounts == [13, 9, 9, 9]
  {
    var l, t1, codes1, n1 := FirstLottery(maxNft, maxCoin, config, self, ps, nfts5, nfts1, nfts60, pools[0]);
    var t2, codes2, n2 := SecondLottery(l, ps, nftsLast, pools[1]);
    // the two fee checks
    var m3 := Cycle(l, ps[1], ps[0], 20000, nftsLast, false, pools[2]);
    var m4 := Cycle(l, ps[0], ps[0], 30000, nftsLast, true, pools[3]);
    drawTimes := [t1, t2];
    exitCodes := codes1 + codes2;
    drawMsgCounts := [n1, n2, |m3|, |m4|];
  }
}
