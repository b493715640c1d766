/** The dashboard's live history (src/hooks/usePriceData.ts): the hook's three state
    fields, seeded from local storage and updated by the stream's message and error
    handlers. The browser's storage entry is a field of the same object. */
module PriceStream {
  import opened Common
  import Storage

  /** The message the error handler sets. */
  const STREAM_ERROR: string := "Failed to connect to price stream"

  /** The state updater of `onmessage`: `[...prev, ...newPrices].slice(-1000)`. */
  function Merge(prev: seq<PriceRecord>, newPrices: seq<PriceRecord>): (h: seq<PriceRecord>)
  {
    TakeLast(prev + newPrices, 1000)
  }

  /** The merged history never exceeds 1000 records (whatever the previous length),
      is the newest part of prev followed by the new prices, keeps prev as a prefix
      while under the cap, and keeps the new prices in arrival order at its end. */
  lemma {:induction false} MergeKeepsNewest(prev: seq<PriceRecord>, newPrices: seq<PriceRecord>)
    ensures var h := Merge(prev, newPrices);
      && |h| == (if |prev| + |newPrices| <= 1000 then |prev| + |newPrices| else 1000)
      && h == (prev + newPrices)[|prev| + |newPrices| - |h|..]
      && (|prev| + |newPrices| <= 1000 ==> h[..|prev|] == prev && h[|prev|..] == newPrices)
      && (|newPrices| <= 1000 ==> h[|h| - |newPrices|..] == newPrices)
  {
    var all := prev + newPrices;
    assert all[..|prev|] == prev && all[|prev|..] == newPrices;
  }

  /** What `onmessage` hands to `savePriceHistory` is stored unchanged, because the
      merged history is already within the storage cap. */
  lemma {:induction false} SavedIsMerged(slot: Storage.Slot, prev: seq<PriceRecord>, newPrices: seq<PriceRecord>)
    ensures Storage.Save(slot, Merge(prev, newPrices), true) == Some(Storage.RecordArray(Merge(prev, newPrices)))
  {
  }

  /** The hook's state: `priceHistory`, `loading`, `error`, and the storage entry it writes. */
  class PriceFeed {
    var priceHistory: seq<PriceRecord>
    var loading: bool
    var error: Option<string>
    var storage: Storage.Slot

    /** The first render: history loaded from storage, still loading, no error. */
    constructor (stored: Storage.Slot)
      ensures priceHistory == Storage.Load(stored) && loading && error == None && storage == stored
    {
      priceHistory := Storage.Load(stored);
      loading := true;
      error := None;
      storage := stored;
    }

    /** `eventSource.onmessage` with the parsed payload `newPrices`; `writable` says
        whether the save's `setItem` succeeds. */
    method OnMessage(newPrices: seq<PriceRecord>, writable: bool)
      modifies this
      ensures priceHistory == Merge(old(priceHistory), newPrices)
      ensures |priceHistory| <= 1000
      ensures storage == Storage.Save(old(storage), priceHistory, writable)
      ensures writable ==> storage == Some(Storage.RecordArray(priceHistory))
      ensures !loading && error == old(error)
    {
      var updated := Merge(priceHistory, newPrices);
      MergeKeepsNewest(priceHistory, newPrices);
      storage := Storage.Save(storage, updated, writable);
      priceHistory := updated;
      loading := false;
    }

    /** `eventSource.onerror`. */
    method OnError()
      modifies this
      ensures error == Some(STREAM_ERROR) && !loading
      ensures priceHistory == old(priceHistory) && storage == old(storage)
    {
      error := Some(STREAM_ERROR);
      loading := false;
    }
  }
}
