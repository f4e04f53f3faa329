/** Abstract TON cells and addresses, as the lottery wrappers use them.

    A cell is modelled as the sequence of fields that a builder chain stores,
    each field keeping its declared width; the bit-level packing of ton-core is
    not modelled. The builder's range checks are modelled: `storeUint(v, n)`
    fails unless 0 <= v < 2^n, and `storeCoins(v)` fails on a negative amount.
 */
module Cells {

  datatype Option<+T> = None | Some(value: T)

  /** A blockchain address. Ordinary accounts (wallets, prize NFTs) are told
      apart by an identifier; a ticket item's address is derived from the
      item code, the lottery and the ticket index, and that derivation is
      modelled by the index alone, so it is injective by construction. */
  datatype Address = Account(id: nat) | TicketItem(index: nat)

  /** The address of the ticket with the given global index. */
  function TicketAddress(index: nat): Address
  {
    TicketItem(index)
  }

  /** The fixed widths the layouts use. */
  datatype Width = W8 | W16 | W32 | W64

  function Bits(w: Width): nat
  {
    match w
    case W8 => 8
    case W16 => 16
    case W32 => 32
    case W64 => 64
  }

  /** 2^Bits(w): the first value that no longer fits. */
  function Limit(w: Width): nat
  {
    match w
    case W8 => 0x100
    case W16 => 0x1_0000
    case W32 => 0x1_0000_0000
    case W64 => 0x1_0000_0000_0000_0000
  }

  predicate FitsUint(value: int, w: Width)
  {
    0 <= value < Limit(w)
  }

  /** A dictionary with unsigned 16-bit keys holding addresses
      (`Hashmap(16, MsgAddressInt)` in the storage layout). */
  type PrizeMap = map<int, Address>

  predicate KeysFit16(d: PrizeMap)
  {
    forall k :: k in d ==> FitsUint(k, W16)
  }

  datatype Field =
    | Uint(value: int, width: Width)
    | Coins(amount: int)
    | Addr(address: Address)
    | Ref(child: Cell)
    | Dict(entries: PrizeMap)

  datatype Cell = Cell(fields: seq<Field>)

  const EmptyCell: Cell := Cell([])

  /** Whether the builder accepts the field. */
  predicate FieldFits(f: Field)
  {
    match f
    case Uint(v, w) => FitsUint(v, w)
    case Coins(a) => 0 <= a
    case Addr(_) => true
    case Ref(_) => true
    case Dict(d) => KeysFit16(d)
  }

  /** The builder chain over `fields`: it ends in a cell exactly when every
      store accepts its argument, and otherwise throws. */
  function Build(fields: seq<Field>): Option<Cell>
  {
    if forall i :: 0 <= i < |fields| ==> FieldFits(fields[i]) then Some(Cell(fields)) else None
  }
}
