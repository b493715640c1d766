/** Values shared by the proxy server and the dashboard: the price record both
    sides exchange, the retention cap, and the few JavaScript array primitives
    (slice, filtering out unparsed values, Math.min/Math.max) the code is built from. */
module Common {

  datatype Option<+T> = None | Some(value: T)

  datatype TradeType = BUY | SELL

  /** Prices are whole numbers of the smallest unit shown: the code only compares,
      selects and copies them. */
  datatype PriceRange = PriceRange(highest: int, lowest: int)

  /** One stored observation: a direction's representative price and range at a
      timestamp in epoch milliseconds. */
  datatype PriceRecord = PriceRecord(price: int, range: PriceRange, timestamp: int, tradeType: TradeType)

  /** The retention cap of the server history and of the stream hook. */
  const MAX_HISTORY_LENGTH: nat := 1000

  /** How Array.prototype.slice resolves one of its (possibly negative) indices
      against an array of length `len`. */
  function RelativeIndex(i: int, len: nat): (r: nat)
    ensures r <= len
  {
    if i < 0 then (if len + i < 0 then 0 else len + i)
    else if i > len then len
    else i
  }

  /** `s.slice(start, end)`. */
  function Slice<T>(s: seq<T>, start: int, end: int): seq<T>
  {
    var lo, hi := RelativeIndex(start, |s|), RelativeIndex(end, |s|);
    if lo < hi then s[lo..hi] else []
  }

  /** Within bounds, `slice` is the plain subsequence. */
  lemma SliceWithin<T>(s: seq<T>, start: int, end: int)
    requires 0 <= start <= end <= |s|
    ensures Slice(s, start, end) == s[start..end]
  {
  }

  /** `s.slice(-n)` for a positive `n`: the last `n` elements, or all of `s` when it is shorter. */
  function TakeLast<T>(s: seq<T>, n: nat): (r: seq<T>)
    requires n > 0
    ensures |r| == if |s| <= n then |s| else n
    ensures r == s[|s| - |r|..]
  {
    Slice(s, -(n as int), |s|)
  }

  /** The values of the `Some` entries of `s`, in order: `map(parse).filter(ok)`. */
  function Somes<T>(s: seq<Option<T>>): (r: seq<T>)
    ensures |r| <= |s|
  {
    if s == [] then []
    else
      var init, last := s[..|s| - 1], s[|s| - 1];
      Somes(init) + (if last.Some? then [last.value] else [])
  }

  /** The values kept are exactly those of the `Some` entries. */
  lemma {:induction false} SomesMembers<T(!new)>(s: seq<Option<T>>)
    ensures forall x :: x in Somes(s) <==> Some(x) in s
  {
    if s != [] {
      var init, last := s[..|s| - 1], s[|s| - 1];
      SomesMembers(init);
      assert s == init + [last];
    }
  }

  /** Nothing is kept exactly when every entry is None. */
  lemma {:induction false} SomesEmpty<T>(s: seq<Option<T>>)
    ensures Somes(s) == [] <==> forall i :: 0 <= i < |s| ==> s[i].None?
  {
    if s != [] {
      var init := s[..|s| - 1];
      SomesEmpty(init);
      assert forall i :: 0 <= i < |init| ==> s[i] == init[i];
    }
  }

  /** The first value kept is that of the first `Some` entry. */
  lemma {:induction false} SomesFirst<T>(s: seq<Option<T>>)
    ensures Somes(s) != [] ==> exists i :: 0 <= i < |s| && s[i] == Some(Somes(s)[0])
                                          && forall j :: 0 <= j < i ==> s[j].None?
  {
    if s != [] {
      var init, last := s[..|s| - 1], s[|s| - 1];
      var prefix := Somes(init);
      SomesFirst(init);
      SomesEmpty(init);
      if prefix != [] {
        var i :| 0 <= i < |init| && init[i] == Some(prefix[0]) && forall j :: 0 <= j < i ==> init[j].None?;
        assert s[i] == init[i] && Somes(s)[0] == prefix[0];
      } else if last.Some? {
        assert forall j :: 0 <= j < |init| ==> s[j] == init[j];
        assert s[|s| - 1] == Some(Somes(s)[0]);
      }
    }
  }

  /** Extending the input by one entry extends the values by that entry's value, if any. */
  lemma SomesSnoc<T>(s: seq<Option<T>>, x: Option<T>)
    ensures Somes(s + [x]) == Somes(s) + (if x.Some? then [x.value] else [])
  {
    assert (s + [x])[..|s|] == s;
  }

  /** Filtering works piecewise: the values of a concatenation are the values of
      its first part followed by those of its second, so the kept values stay in
      input order. */
  lemma {:induction false} SomesAppend<T>(a: seq<Option<T>>, b: seq<Option<T>>)
    ensures Somes(a + b) == Somes(a) + Somes(b)
  {
    if b == [] {
      assert a + b == a;
    } else {
      var init, last := b[..|b| - 1], b[|b| - 1];
      SomesAppend(a, init);
      assert a + b == (a + init) + [last];
      SomesSnoc(a + init, last);
      SomesSnoc(init, last);
      assert b == init + [last];
    }
  }

  /** `Math.min(...s)` of a non-empty list. */
  function Min(s: seq<int>): (m: int)
    requires s != []
    ensures m in s
    ensures forall x :: x in s ==> m <= x
  {
    if |s| == 1 then s[0]
    else
      var init, last := s[..|s| - 1], s[|s| - 1];
      assert s == init + [last];
      var m := Min(init);
      if last < m then last else m
  }

  /** `Math.max(...s)` of a non-empty list. */
  function Max(s: seq<int>): (m: int)
    requires s != []
    ensures m in s
    ensures forall x :: x in s ==> x <= m
  {
    if |s| == 1 then s[0]
    else
      var init, last := s[..|s| - 1], s[|s| - 1];
      assert s == init + [last];
      var m := Max(init);
      if last > m then last else m
  }

  /** The ordering invariant of a history: timestamps never decrease. */
  ghost predicate SortedByTime(s: seq<PriceRecord>)
  {
    forall i, j :: 0 <= i < j < |s| ==> s[i].timestamp <= s[j].timestamp
  }
}
