# Fortuna lottery: a Dafny model

The Fortuna contracts sell tickets for a timed lottery on TON.
- An operator starts a sale window with a timer, a ticket price, a number of coin prizes and a list of prize NFTs.
- Participants buy tickets. Each ticket is an NFT item, numbered by a global counter and deployed at an address derived from its index.
- Anyone settles the draw. The draw pays the service wallets, the jackpot, the coin prizes and the NFT prizes, acknowledges the caller, and makes the lottery inactive again.

This project models two things:

- **The client wrapper (`wrappers/Lottery.ts`).** It covers:
  - packing the prize list into a 16-bit-keyed dictionary, and reading it back in key order;
  - the initial storage cell;
  - the request bodies for start-lottery and change-content;
  - the value a purchase carries;
  - the order in which `get_lottery_data` is read.

  Cells are modelled as sequences of typed fields with their declared widths (module `Cells`). A store fails unless its value fits, as ton-core's range checks do. The bit-level packing is not modelled.
- **The lottery's lifecycle, as its test suite (`tests/Lottery.spec.ts`) pins it down.** The contract's own source is not part of this model.
  - `LotteryContract.Lottery` is a class whose fields are the storage counters, plus the owner of every ticket minted so far.
  - Its methods are `Start`, `Buy` and `Draw`. Each one succeeds or fails with the exit code the tests check, and a failure changes nothing.
  - Module `LotteryTests` replays the suite's helpers and its `it` blocks, in order, on one deployed lottery. It proves the drawn times, the exit codes and the message counts the suite expects, for any prize ceilings the tests allow.

Modules follow the program: `Cells` (cells, widths, addresses), `Prizes` (the prize dictionary), `LotteryWrapper` (the wrapper's encoders and readers), `LotteryContract` (the contract behaviour) and `LotteryTests` (the suite).

Two constants of the contract are not visible: its ceiling on prize NFTs and its ceiling on coin prizes. They are kept as the class constants `maxNft` and `maxCoin`, constrained only by what the tests show:
- 5 prize NFTs are accepted and 60 are refused, so 5 <= maxNft < 60;
- 4 coin prizes are accepted and 200 are refused, so 4 <= maxCoin < 200.

`coin_prizes` has two different widths in the source. The storage comment gives it as `uint8` (wrappers/Lottery.ts:12). But `lotteryConfigToCell` writes that slot with 16 bits (wrappers/Lottery.ts:62), and the start-lottery body does too (wrappers/Lottery.ts:113). The model follows the code: 16 bits. `CoinPrizesWrittenWith16Bits` records that a count of 256, which `uint8` cannot hold, is accepted by both writers. Which width the contract reads is not visible here.

## Model

| member | source | states |
|---|---|---|
| Prizes.PackPrizeNfts | wrappers/Lottery.ts:35-43 | the loop fills keys 0..n-1 with the list in order: the keys are exactly 0..n-1, key i holds `nfts[i]`, all keys fit 16 bits, and the values read back in key order are the list; packing fails exactly when the list is longer than 2^16 |
| Prizes.ValuesFromPrizeDict | wrappers/Lottery.ts:126-127 | reading a packed dictionary from key k upwards gives the list's suffix from k |
| Prizes.PrizeRoundTrip | wrappers/Lottery.ts:35-43 | pack, then read the values in ascending key order: the original list comes back |
| Prizes.PrizeDictKeysFit | wrappers/Lottery.ts:36 | a list of at most 2^16 addresses packs into 16-bit keys only |
| Prizes.PrizeCount | wrappers/Lottery.ts:126-127 | the read-back list has as many addresses as were packed |
| LotteryWrapper.ParseStorage | wrappers/Lottery.ts:6-18 | a cell decodes as storage only in the layout order, and decoded counters fit their widths (total/active tickets 16 bits, draw time 32 bits, coin prizes 16 bits) |
| LotteryWrapper.StorageRoundTrip | wrappers/Lottery.ts:6-18 | storage whose counters fit their widths can be written, and reading it back gives the same storage |
| LotteryWrapper.LotteryConfigToCell | wrappers/Lottery.ts:55-73 | the initial storage has zero tickets, draw time 0 (inactive), zero active tickets and coin prizes, an empty prize dictionary, price `id` or 0, and the config's addresses, code and content |
| LotteryWrapper.StartLotteryBody | wrappers/Lottery.ts:108-115 | the start body builds exactly when the timer fits 32 bits, the price is non-negative, the coin-prize count fits 16 bits and the prize list fits 16-bit keys |
| LotteryWrapper.StartFieldsFit | wrappers/Lottery.ts:109-114 | the six fields (op 0x9f79558f/32, query id 0/64, timer/32, price as Coins, coin prizes/16, prize dictionary) all fit exactly under those bounds |
| LotteryWrapper.StartBodyRoundTrip | wrappers/Lottery.ts:108-115 | decoding the start body, which accepts only op 0x9f79558f and query id 0, gives back timer, price, coin prizes and the prize list; it never decodes as a change-content body |
| LotteryWrapper.SendStartLottery | wrappers/Lottery.ts:104-117 | the request exists exactly when the parameters fit; it carries the attached value, and its body decodes to the parameters |
| LotteryWrapper.ChangeContentBody | wrappers/Lottery.ts:166-170 | the body decodes, under a reader that accepts only op 4/32, query id 0/64 and one ref, to the new content, and never as a start body |
| LotteryWrapper.SendChangeContent | wrappers/Lottery.ts:162-172 | carries 0.02 TON and a body that decodes to the content |
| LotteryWrapper.SendBuyTickets | wrappers/Lottery.ts:145-153 | empty body; the value is an exact multiple of the price, with the ticket count as quotient |
| LotteryWrapper.SendDraw | wrappers/Lottery.ts:155-161 | carries 1.2 TON and the same empty body as a purchase |
| LotteryWrapper.DrawValueIsNoPurchase | wrappers/Lottery.ts:145-161 | with a ticket price above 1.2 TON, a draw request has a purchase's body but a value no purchase of any number of tickets carries |
| LotteryWrapper.LotteryDataStack | wrappers/Lottery.ts:119-136 | the reader takes draw time, price, prize pool, active tickets and coin prizes in stack order and the prize dictionary's values in key order |
| LotteryWrapper.CoinPrizesWrittenWith16Bits | wrappers/Lottery.ts:12 | 256 does not fit the commented uint8, yet the initial storage writes the slot with 16 bits (line 62) and the start body accepts 256 coin prizes (line 113) |
| LotteryContract.RepeatAppend | tests/Lottery.spec.ts:294-318 | the owners of a tickets then of b more, all the same buyer, are the owners of a + b tickets |
| LotteryContract.MintMessages | tests/Lottery.spec.ts:103-114 | k deploy messages, the j-th to the address of ticket first + j with the buyer as owner; all ticket addresses distinct |
| LotteryContract.MintMessagesSplit | tests/Lottery.spec.ts:248-318 | minting a tickets then b more sends the same messages as minting a + b at once |
| LotteryContract.Notifications | tests/Lottery.spec.ts:273-288 | one `ownership_assigned` (op 0x05138d91) per deployed ticket, from the ticket's address to its owner, naming the lottery as previous owner, in minting order |
| LotteryContract.CoinPayouts | tests/Lottery.spec.ts:129 | one payment per coin-prize slot, in slot order |
| LotteryContract.NftTransfers | tests/Lottery.spec.ts:129 | one transfer per prize NFT, in prize order |
| LotteryContract.CountsAppend | tests/Lottery.spec.ts:129 | the jackpot count, coin-payout count and transferred NFTs of a concatenation are the sums of the parts |
| LotteryContract.CountsOne | tests/Lottery.spec.ts:129 | the counts of a single message |
| LotteryContract.CoinPayoutsCounts | tests/Lottery.spec.ts:129 | the coin payouts contain exactly n coin prizes, no jackpot and no NFT |
| LotteryContract.NftTransfersCounts | tests/Lottery.spec.ts:129 | the NFT transfers transfer exactly the prize list, with no coin prize and no jackpot |
| LotteryContract.HeadCounts | tests/Lottery.spec.ts:129 | the four fixed draw messages hold exactly one jackpot and no coin prize or NFT transfer |
| LotteryContract.DrawMessagesShape | tests/Lottery.spec.ts:123-145 | a draw sends 2 + 1 + 1 + NFTs + coin prizes messages, including half the prize pool to service wallet 1 and the op-0 "Successfully drawn" reply to the caller; exactly one jackpot, exactly `coinPrizes` coin payouts, and every prize NFT transferred in order |
| LotteryContract.Lottery.StateSerializable | wrappers/Lottery.ts:6-18 | every reachable state can be written in the storage layout and read back unchanged |
| LotteryContract.Lottery.Deploy | tests/Lottery.spec.ts:48-65 | deployment at the given address from `lotteryConfigToCell`'s storage: inactive, no tickets, the invariant established |
| LotteryContract.Lottery.StartError | tests/Lottery.spec.ts:160-247 | a start is refused exactly when the caller is not the operator (501), a lottery is active (502), the timer is under 3600 (503), there are too many prize NFTs (504) or too many coin prizes (505), in that order, or when the deadline overflows 32 bits |
| LotteryContract.Lottery.Start | tests/Lottery.spec.ts:76-91 | a refused start returns its code and changes nothing; a successful one sends nothing and sets drawTime = now + timer, activeTickets = 0, and the price, coin prizes and prize dictionary sent; the ticket counter is kept |
| LotteryContract.Lottery.Buy | tests/Lottery.spec.ts:92-121 | while active, buying k tickets mints tickets totalTickets..totalTickets+k-1 one by one, sends k deploy messages, each ticket owned by the buyer, and raises both counters by k; while inactive it fails with 401 and changes nothing |
| LotteryContract.Lottery.Draw | tests/Lottery.spec.ts:123-158 | a draw sends the draw messages for the current coin prizes and prize NFTs and makes the lottery inactive; with no active lottery it fails with 401 and changes nothing |
| LotteryContract.Lottery.NftAddressInjective | wrappers/Lottery.ts:138-143 | `get_nft_address_by_index` gives equal addresses exactly for equal indices |
| LotteryContract.Lottery.GetLotteryData | wrappers/Lottery.ts:119-136 | the wrapper reads back the current draw time, price, active tickets, coin prizes and prize NFTs in key order |
| LotteryTests.AddrArraysEquals | tests/Lottery.spec.ts:9-15 | true exactly when the two address lists are equal |
| LotteryTests.BoughtBy | tests/Lottery.spec.ts:93-117 | the owners after participants 0..i-1 bought 1, 2, ..., i tickets: 1 + ... + i owners |
| LotteryTests.BuyForEachParticipant | tests/Lottery.spec.ts:92-121 | participant i buys i + 1 tickets in a purchase of i + 1 messages; ticket ticketBought + j is deployed at the address `get_nft_address_by_index` gives and owned by participant i; the active tickets rise by 1 + ... + n |
| LotteryTests.BuyManyWithOneTx | tests/Lottery.spec.ts:248-292 | one purchase of n: n messages to n distinct tickets, all owned by the buyer; the buyer gets n `ownership_assigned` notifications naming the lottery, from n distinct senders; the counters rise by n |
| LotteryTests.BuyManyWithSmallTxs | tests/Lottery.spec.ts:294-318 | n purchases of one ticket, each of one message and one `ownership_assigned` to the buyer, give the same counters and owners as one purchase of n |
| LotteryTests.DrawAndCheck | tests/Lottery.spec.ts:123-153 | the `draw` helper: message count from the data read before, half the pool to service wallet 1, the caller's acknowledgement, lottery inactive |
| LotteryTests.RefusedStarts | tests/Lottery.spec.ts:160-214 | once drawn: exit codes 501, 503, 504, 505 for the four bad starts, and the lottery unchanged |
| LotteryTests.StartAndRead | tests/Lottery.spec.ts:215-233 | after a start, `get_lottery_data` reports drawTime = now + timer, 0 active tickets, the price, the coin prizes and the same NFT list |
| LotteryTests.RefusedRestart | tests/Lottery.spec.ts:235-247 | a start while active fails with 502 and changes nothing |
| LotteryTests.RefusedSecondDraw | tests/Lottery.spec.ts:328-336 | a second draw fails with 401 and changes nothing |
| LotteryTests.Cycle | tests/Lottery.spec.ts:338-364 | start, 150 tickets in small or in one transaction, draw at the deadline: 9 messages, 150 active tickets |
| LotteryTests.FirstLottery | tests/Lottery.spec.ts:76-214 | the first lottery closes at 3700, holds 15 active tickets after the five purchases, its draw sends 13 messages, and the four bad starts give 501, 503, 504, 505 |
| LotteryTests.SecondLottery | tests/Lottery.spec.ts:215-336 | the second lottery closes at 10000, the restart gives 502, the draw sends 9 messages and the second draw gives 401 |
| LotteryTests.LotterySuite | tests/Lottery.spec.ts:19-365 | the whole suite: draw times 3700 and 10000, exit codes 501, 503, 504, 505, 502, 401, and draw message counts 13, 9, 9, 9 |

## Left out

- Scripts under `scripts/`, the deployment, the network and the sandbox's message delivery, bounces and fee accounting are not modelled. That includes the fee logging, the post-draw balance band and the rounding of the service share to whole TON. Amounts are integers in nanotons.
- `wrappers/Ticket.ts` is not part of this model. A ticket's owner is the entry at its index in `ticketOwners`.
- The address formats, `contractAddress`, `createFromConfig` and the ticket-address derivation are not modelled. The lottery's own address is a parameter of `Deploy`, and a ticket's address is an abstract injective function of its index (`TicketAddress`).
- The ticket contract's reaction to its deploy message is not modelled. The `ownership_assigned` notification a new ticket sends its owner is derived from the lottery's deploy message (`Notifications`): sender = the ticket address, recipient = the owner, previous owner = the lottery. The query id and the bounce behaviour of that notification are left out.
- `sendDeploy` (an empty body carrying 0.1 TON) is modelled only by the `Deploy` constructor's resulting state.
- The variable-length `Coins` encoding is not modelled. A Coins field accepts any non-negative amount, with no upper bound.
- Randomness, the choice of winners, the jackpot and coin-prize amounts, and what service wallet 2 receives are not visible. The draw's messages record only who gets what kind of payment. The prize pool is a parameter of `Draw`.
- How the contract tells a purchase from a draw (both carry empty bodies) is not modelled. So are how it derives the ticket count from the attached value, and its limit on outgoing actions per transaction. `Buy` takes the ticket count directly.
- The contract side of change-content is not visible, so only its body is modelled.
- LotteryContract.Lottery.Draw: requires that an active lottery is drawn only at or after its deadline and with at least 1 + coin prizes + prize NFTs active tickets. The suite never draws earlier or with fewer tickets, so what the contract does then is left open.
- LotteryContract.Lottery.Buy: requires that an active lottery's deadline has not passed. Purchases after the deadline are never made by the suite. Its exit code 401 for a purchase while inactive is the suite's "lottery is not active" code for a draw, applied to purchases by analogy.
- LotteryContract.Lottery.StartError: the suite checks one refusal at a time, so the relative order of the checks is an assumption. A deadline past 32 bits is modelled as the virtual machine's range-check failure (exit code 5). The same applies to a ticket counter past 16 bits in `Buy`.
