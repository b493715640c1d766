/** Browser persistence of the price history (src/lib/storage.ts). The single
    localStorage entry is modelled as what `JSON.parse` makes of it; reading, writing
    and removing it are functions from the old entry to the new one. */
module Storage {
  import opened Common

  /** The cap on saved records, declared separately from the server's. */
  const MAX_HISTORY_ITEMS: nat := 1000

  /** A present localStorage entry: the empty string, text that `JSON.parse` rejects
      or that is not an array (its `.sort` throws), or an array of records. */
  datatype StoredText = EmptyText | Malformed | RecordArray(records: seq<PriceRecord>)

  /** The "price_history" entry; None when `getItem` returns null. */
  type Slot = Option<StoredText>

  /** Places `r` before the first record that is not earlier, so a record is never
      moved past one with the same timestamp (Array.prototype.sort is stable). */
  function InsertByTime(r: PriceRecord, s: seq<PriceRecord>): (t: seq<PriceRecord>)
    ensures |t| == |s| + 1
  {
    if s == [] || r.timestamp <= s[0].timestamp then [r] + s
    else [s[0]] + InsertByTime(r, s[1..])
  }

  /** Inserting into a time-ordered list keeps it time-ordered; the result starts
      with the inserted record or with the list's old head. */
  lemma {:induction false} InsertByTimeSorted(r: PriceRecord, s: seq<PriceRecord>)
    requires SortedByTime(s)
    ensures SortedByTime(InsertByTime(r, s))
    ensures InsertByTime(r, s)[0] == r || (s != [] && InsertByTime(r, s)[0] == s[0])
  {
    if s == [] || r.timestamp <= s[0].timestamp {
      SortedCons(r, s);
    } else {
      SortedTail(s);
      InsertByTimeSorted(r, s[1..]);
      SortedCons(s[0], InsertByTime(r, s[1..]));
    }
  }

  /** Inserting adds exactly `r`: the result is a permutation of `s` plus `r`. */
  lemma {:induction false} InsertByTimePermutes(r: PriceRecord, s: seq<PriceRecord>)
    ensures multiset(InsertByTime(r, s)) == multiset(s) + multiset{r}
  {
    if s != [] && r.timestamp > s[0].timestamp {
      InsertByTimePermutes(r, s[1..]);
      assert s == [s[0]] + s[1..];
    }
  }

  /** The tail of a time-ordered list is time-ordered, and its head is not earlier
      than the list's head. */
  lemma SortedTail(s: seq<PriceRecord>)
    requires SortedByTime(s) && s != []
    ensures SortedByTime(s[1..])
    ensures |s| > 1 ==> s[0].timestamp <= s[1..][0].timestamp
  {
    forall i, j | 0 <= i < j < |s[1..]| ensures s[1..][i].timestamp <= s[1..][j].timestamp {
      assert s[1..][i] == s[i + 1] && s[1..][j] == s[j + 1];
    }
    if |s| > 1 {
      assert s[1..][0] == s[1];
    }
  }

  /** A record not later than the head of a time-ordered list may head it. */
  lemma SortedCons(x: PriceRecord, s: seq<PriceRecord>)
    requires SortedByTime(s)
    requires s != [] ==> x.timestamp <= s[0].timestamp
    ensures SortedByTime([x] + s)
  {
    var t := [x] + s;
    forall i, j | 0 <= i < j < |t| ensures t[i].timestamp <= t[j].timestamp {
      assert t[j] == s[j - 1];
      if i > 0 { assert t[i] == s[i - 1]; } else { assert s[0].timestamp <= s[j - 1].timestamp; }
    }
  }

  /** `data.sort((a, b) => a.timestamp - b.timestamp)`. */
  function SortByTime(s: seq<PriceRecord>): (t: seq<PriceRecord>)
    ensures |t| == |s|
  {
    if s == [] then [] else InsertByTime(s[0], SortByTime(s[1..]))
  }

  /** Sorting yields a time-ordered permutation. */
  lemma {:induction false} SortByTimeSorts(s: seq<PriceRecord>)
    ensures SortedByTime(SortByTime(s))
    ensures multiset(SortByTime(s)) == multiset(s)
  {
    if s != [] {
      SortByTimeSorts(s[1..]);
      InsertByTimeSorted(s[0], SortByTime(s[1..]));
      InsertByTimePermutes(s[0], SortByTime(s[1..]));
      assert s == [s[0]] + s[1..];
    }
  }

  /** Sorting a list that is already in time order leaves it as it is. */
  lemma {:induction false} SortOfSortedIsIdentity(s: seq<PriceRecord>)
    requires SortedByTime(s)
    ensures SortByTime(s) == s
  {
    if s != [] {
      assert SortedByTime(s[1..]) by {
        forall i, j | 0 <= i < j < |s[1..]| ensures s[1..][i].timestamp <= s[1..][j].timestamp {
          assert s[1..][i] == s[i + 1] && s[1..][j] == s[j + 1];
        }
      }
      SortOfSortedIsIdentity(s[1..]);
      assert s == [s[0]] + s[1..];
    }
  }

  /** `loadPriceHistory()`: a missing or empty entry and every failure give the empty
      history; a stored array comes back sorted by timestamp. */
  function Load(slot: Slot): (h: seq<PriceRecord>)
    ensures SortedByTime(h)
    ensures slot.Some? && slot.value.RecordArray? ==> multiset(h) == multiset(slot.value.records)
    ensures slot.Some? && slot.value.RecordArray? ==> |h| == |slot.value.records|
    ensures !(slot.Some? && slot.value.RecordArray?) ==> h == []
  {
    match slot
    case None => []
    case Some(EmptyText) => []
    case Some(Malformed) => []
    case Some(RecordArray(records)) =>
      SortByTimeSorts(records);
      SortByTime(records)
  }

  /** `savePriceHistory(data)`: the last MAX_HISTORY_ITEMS records, in their order;
      a write that throws (`writable` false) leaves the entry as it was. */
  function Save(slot: Slot, data: seq<PriceRecord>, writable: bool): (s: Slot)
    ensures !writable ==> s == slot
    ensures writable ==> s.Some? && s.value.RecordArray?
    ensures writable ==> |s.value.records| == (if |data| <= MAX_HISTORY_ITEMS then |data| else MAX_HISTORY_ITEMS)
    ensures writable ==> s.value.records == data[|data| - |s.value.records|..]
    ensures writable && |data| <= MAX_HISTORY_ITEMS ==> s.value.records == data
  {
    if writable then Some(RecordArray(TakeLast(data, MAX_HISTORY_ITEMS))) else slot
  }

  /** `clearPriceHistory()`: the entry is removed unless removing it throws. */
  function Clear(slot: Slot, writable: bool): (s: Slot)
    ensures writable ==> Load(s) == []
    ensures !writable ==> s == slot
  {
    if writable then None else slot
  }

  /** Loading what was just saved gives the saved window, the newest
      MAX_HISTORY_ITEMS records, sorted by time. */
  lemma LoadAfterSave(slot: Slot, data: seq<PriceRecord>)
    ensures var loaded, n := Load(Save(slot, data, true)), if |data| <= MAX_HISTORY_ITEMS then |data| else MAX_HISTORY_ITEMS;
      && |loaded| == n
      && SortedByTime(loaded)
      && multiset(loaded) == multiset(data[|data| - n..])
  {
    var saved := TakeLast(data, MAX_HISTORY_ITEMS);
    assert Save(slot, data, true) == Some(RecordArray(saved));
    SortByTimeSorts(saved);
    assert Load(Save(slot, data, true)) == SortByTime(saved);
  }

  /** A time-ordered list within the cap is loaded back exactly as it was saved. */
  lemma {:induction false} LoadAfterSaveSorted(slot: Slot, data: seq<PriceRecord>)
    requires SortedByTime(data) && |data| <= MAX_HISTORY_ITEMS
    ensures Load(Save(slot, data, true)) == data
  {
    assert Save(slot, data, true) == Some(RecordArray(data));
    SortOfSortedIsIdentity(data);
  }
}
