/** The current-price cards (src/components/PriceTable.tsx): per trade type, the
    price and range of the newest record of that type, with zero defaults. */
module PriceTable {
  import opened Common

  /** `priceHistory.filter((data) => data.tradeType === tradeType)`. */
  function OfType(h: seq<PriceRecord>, t: TradeType): seq<PriceRecord>
  {
    if h == [] then []
    else
      var init, last := h[..|h| - 1], h[|h| - 1];
      assert h == init + [last];
      OfType(init, t) + (if last.tradeType == t then [last] else [])
  }

  /** Filtering commutes with concatenation. */
  lemma {:induction false} OfTypeAppend(a: seq<PriceRecord>, b: seq<PriceRecord>, t: TradeType)
    ensures OfType(a + b, t) == OfType(a, t) + OfType(b, t)
  {
    if b != [] {
      var init := b[..|b| - 1];
      assert (a + b)[..|a + b| - 1] == a + init;
      OfTypeAppend(a, init, t);
    } else {
      assert a + b == a;
    }
  }

  /** `.slice(-1)[0]` of the filtered list: the newest record of type `t`, if any. */
  function LatestOfType(h: seq<PriceRecord>, t: TradeType): Option<PriceRecord>
  {
    var tail := TakeLast(OfType(h, t), 1);
    if tail == [] then None else Some(tail[0])
  }

  /** Appending one record: it becomes the newest of its type; the other type's
      newest is unchanged. */
  lemma LatestOfTypeSnoc(h: seq<PriceRecord>, x: PriceRecord, t: TradeType)
    ensures LatestOfType(h + [x], t) == if x.tradeType == t then Some(x) else LatestOfType(h, t)
  {
    var g := h + [x];
    assert g[..|g| - 1] == h && g[|g| - 1] == x;
    assert OfType(g, t) == OfType(h, t) + (if x.tradeType == t then [x] else []);
  }

  /** There is no newest record of a type exactly when no record has that type. */
  lemma {:induction false} NoneOfType(h: seq<PriceRecord>, t: TradeType)
    ensures LatestOfType(h, t).None? <==> forall i :: 0 <= i < |h| ==> h[i].tradeType != t
  {
    if h == [] {
      assert OfType(h, t) == [];
    } else {
      var init, last := h[..|h| - 1], h[|h| - 1];
      assert h == init + [last];
      LatestOfTypeSnoc(init, last, t);
      NoneOfType(init, t);
      if LatestOfType(h, t).None? {
        forall i | 0 <= i < |h| ensures h[i].tradeType != t {
          if i < |init| { assert h[i] == init[i]; }
        }
      } else if last.tradeType != t {
        var i :| 0 <= i < |init| && init[i].tradeType == t;
        assert h[i] == init[i];
      }
    }
  }

  /** The newest record of a type is the last position of `h` holding that type. */
  lemma {:induction false} LatestIsLastOfType(h: seq<PriceRecord>, t: TradeType)
    requires LatestOfType(h, t).Some?
    ensures exists i :: 0 <= i < |h| && h[i] == LatestOfType(h, t).value && h[i].tradeType == t
                        && forall j :: i < j < |h| ==> h[j].tradeType != t
  {
    if h == [] {
      assert false;
    } else {
      var init, last := h[..|h| - 1], h[|h| - 1];
      assert h == init + [last];
      LatestOfTypeSnoc(init, last, t);
      if last.tradeType == t {
        assert h[|h| - 1] == LatestOfType(h, t).value;
      } else {
        LatestIsLastOfType(init, t);
        var i :| 0 <= i < |init| && init[i] == LatestOfType(init, t).value && init[i].tradeType == t
                 && forall j :: i < j < |init| ==> init[j].tradeType != t;
        assert h[i] == init[i];
        assert forall j :: i < j < |h| ==> h[j].tradeType != t by {
          forall j | i < j < |h| ensures h[j].tradeType != t {
            if j < |init| { assert h[j] == init[j]; }
          }
        }
      }
    }
  }

  /** `getLatestPrice(tradeType)`: `?.price || 0`. */
  function LatestPrice(h: seq<PriceRecord>, t: TradeType): int
  {
    match LatestOfType(h, t)
    case Some(r) => r.price
    case None => 0
  }

  /** `getLatestRange(tradeType)`: `?.range || { highest: 0, lowest: 0 }`. */
  function LatestRange(h: seq<PriceRecord>, t: TradeType): PriceRange
  {
    match LatestOfType(h, t)
    case Some(r) => r.range
    case None => PriceRange(0, 0)
  }

  /** Both selectors give the values of the last record of the type, and the zero
      defaults when there is none. */
  lemma {:induction false} SelectorsReadLastOfType(h: seq<PriceRecord>, t: TradeType)
    ensures (forall i :: 0 <= i < |h| ==> h[i].tradeType != t) ==>
              LatestPrice(h, t) == 0 && LatestRange(h, t) == PriceRange(0, 0)
    ensures (exists i :: 0 <= i < |h| && h[i].tradeType == t) ==>
              exists i :: 0 <= i < |h| && h[i].tradeType == t
                          && LatestPrice(h, t) == h[i].price && LatestRange(h, t) == h[i].range
                          && forall j :: i < j < |h| ==> h[j].tradeType != t
  {
    NoneOfType(h, t);
    if LatestOfType(h, t).Some? {
      LatestIsLastOfType(h, t);
    }
  }

  /** A record of the other type, wherever it stands, changes neither selector. */
  lemma {:induction false} OtherTypeIgnored(a: seq<PriceRecord>, r: PriceRecord, b: seq<PriceRecord>, t: TradeType)
    requires r.tradeType != t
    ensures LatestPrice(a + [r] + b, t) == LatestPrice(a + b, t)
    ensures LatestRange(a + [r] + b, t) == LatestRange(a + b, t)
  {
    OfTypeAppend(a + [r], b, t);
    OfTypeAppend(a, [r], t);
    OfTypeAppend(a, b, t);
    assert OfType([r], t) == [] by { assert [r][..0] == []; }
  }

  /** Appending a record makes it the one both selectors show for its type, and
      leaves what they show for the other type unchanged. */
  lemma {:induction false} AppendBecomesLatest(h: seq<PriceRecord>, r: PriceRecord, t: TradeType)
    ensures LatestPrice(h + [r], r.tradeType) == r.price && LatestRange(h + [r], r.tradeType) == r.range
    ensures t != r.tradeType ==> LatestPrice(h + [r], t) == LatestPrice(h, t) && LatestRange(h + [r], t) == LatestRange(h, t)
  {
    var g := h + [r];
    assert g[..|g| - 1] == h;
    if t != r.tradeType {
      OtherTypeIgnored(h, r, [], t);
      assert h + [r] + [] == g && h + [] == h;
    }
  }

  /** What the component renders: two skeletons while loading, else the two cards. */
  datatype TableView =
    | Skeletons
    | Cards(buyPrice: int, buyRange: PriceRange, sellPrice: int, sellRange: PriceRange)

  /** `PriceTable({ priceHistory, loading })`. */
  function View(h: seq<PriceRecord>, loading: bool): (v: TableView)
    ensures v.Skeletons? <==> loading
    ensures v.Cards? ==>
              && v.buyPrice == LatestPrice(h, BUY) && v.buyRange == LatestRange(h, BUY)
              && v.sellPrice == LatestPrice(h, SELL) && v.sellRange == LatestRange(h, SELL)
  {
    if loading then Skeletons
    else Cards(LatestPrice(h, BUY), LatestRange(h, BUY), LatestPrice(h, SELL), LatestRange(h, SELL))
  }
}
