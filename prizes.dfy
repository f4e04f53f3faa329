/** The prize index: the list of prize NFT addresses packed into a dictionary
    with unsigned 16-bit keys, and read back in key order. */
module Prizes {
  import opened Cells

  /** The dictionary whose key i holds the i-th address of the list. */
  function PrizeDict(nfts: seq<Address>): PrizeMap
  {
    map i | 0 <= i < |nfts| :: nfts[i]
  }

  /** `packPrizeNfts`: sets key i to the i-th address, counting i up from 0.
      The 16-bit key serialiser throws once the counter reaches 2^16, so a
      list longer than 2^16 addresses cannot be packed. */
  method PackPrizeNfts(nfts: seq<Address>) returns (r: Option<PrizeMap>)
    ensures r.Some? <==> |nfts| <= 0x1_0000
    ensures r.Some? ==> forall k :: k in r.value <==> 0 <= k < |nfts|
    ensures r.Some? ==> forall i :: 0 <= i < |nfts| ==> r.value[i] == nfts[i]
    ensures r.Some? ==> KeysFit16(r.value) && r.value == PrizeDict(nfts)
    ensures r.Some? ==> KeyOrderValues(r.value) == nfts
  {
    var dict: PrizeMap := map[];
    var i := 0;
    while i < |nfts|
      invariant 0 <= i <= |nfts| && i <= 0x1_0000
      invariant forall k :: k in dict <==> 0 <= k < i
      invariant forall k :: 0 <= k < i ==> dict[k] == nfts[k]
    {
      if !FitsUint(i, W16) {
        return None;
      }
      dict := dict[i := nfts[i]];
      i := i + 1;
    }
    assert dict == PrizeDict(nfts);
    PrizeRoundTrip(nfts);
    return Some(dict);
  }

  /** The values of `d` under the keys k, k + 1, ..., 2^16 - 1, in ascending
      key order. */
  function ValuesFrom(d: PrizeMap, k: nat): seq<Address>
    requires k <= 0x1_0000
    decreases 0x1_0000 - k
  {
    if k == 0x1_0000 then [] else (if k in d then [d[k]] else []) + ValuesFrom(d, k + 1)
  }

  /** `Dictionary.values()` of a dictionary loaded with 16-bit keys: the
      values in ascending key order. */
  function KeyOrderValues(d: PrizeMap): seq<Address>
  {
    ValuesFrom(d, 0)
  }

  lemma {:induction false} ValuesFromPrizeDict(nfts: seq<Address>, k: nat)
    requires |nfts| <= 0x1_0000 && k <= 0x1_0000
    ensures ValuesFrom(PrizeDict(nfts), k) == if k < |nfts| then nfts[k..] else []
    decreases 0x1_0000 - k
  {
    if k < 0x1_0000 {
      ValuesFromPrizeDict(nfts, k + 1);
      if k < |nfts| {
        assert nfts[k..] == [nfts[k]] + nfts[k + 1..];
      }
    }
  }

  /** Packing a list and reading the dictionary back in key order gives the
      list again. */
  lemma PrizeRoundTrip(nfts: seq<Address>)
    requires |nfts| <= 0x1_0000
    ensures KeyOrderValues(PrizeDict(nfts)) == nfts
  {
    ValuesFromPrizeDict(nfts, 0);
  }

  /** A packed dictionary has only 16-bit keys, so it can be stored. */
  lemma PrizeDictKeysFit(nfts: seq<Address>)
    requires |nfts| <= 0x1_0000
    ensures KeysFit16(PrizeDict(nfts))
  {
  }

  /** Reading a packed list back gives as many addresses as were packed. */
  lemma PrizeCount(nfts: seq<Address>)
    requires |nfts| <= 0x1_0000
    ensures |KeyOrderValues(PrizeDict(nfts))| == |nfts|
  {
    PrizeRoundTrip(nfts);
  }
}
