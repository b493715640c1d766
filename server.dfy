/** The proxy server's price ingestion (proxy-server/server.js): one cycle queries
    the BUY and SELL listings, reduces each to a quote, appends both to the bounded
    in-memory history and pushes the latest pair to every open stream connection. */
module Server {
  import opened Common

  /** What one direction contributes to a cycle: its representative price and range. */
  datatype Quote = Quote(price: int, range: PriceRange)

  /** The prices of the listings that parse, in listing order; `parse` stands for
      `parseFloat` followed by the NaN test. */
  function ParsePrices(listings: seq<string>, parse: string -> Option<int>): (prices: seq<int>)
    ensures prices == [] <==> forall i :: 0 <= i < |listings| ==> parse(listings[i]).None?
    ensures prices != [] ==> exists i :: 0 <= i < |listings| && parse(listings[i]) == Some(prices[0])
                                         && forall j :: 0 <= j < i ==> parse(listings[j]).None?
    ensures forall i :: 0 <= i < |listings| && parse(listings[i]).Some? ==> parse(listings[i]).value in prices
    ensures forall p :: p in prices ==> exists i :: 0 <= i < |listings| && parse(listings[i]) == Some(p)
  {
    var parsed := seq(|listings|, i requires 0 <= i < |listings| => parse(listings[i]));
    assert forall i :: 0 <= i < |listings| ==> parsed[i] == parse(listings[i]);
    SomesMembers(parsed);
    SomesEmpty(parsed);
    SomesFirst(parsed);
    Somes(parsed)
  }

  /** Parsing works listing by listing: a single listing contributes its price when
      it parses and nothing otherwise, and the prices of consecutive batches follow
      one another, so the prices keep listing order. */
  lemma ParsePricesAppend(a: seq<string>, b: seq<string>, parse: string -> Option<int>)
    ensures ParsePrices(a + b, parse) == ParsePrices(a, parse) + ParsePrices(b, parse)
    ensures forall l :: ParsePrices([l], parse) == if parse(l).Some? then [parse(l).value] else []
  {
    var pa := seq(|a|, i requires 0 <= i < |a| => parse(a[i]));
    var pb := seq(|b|, i requires 0 <= i < |b| => parse(b[i]));
    var ab := a + b;
    var pab := seq(|ab|, i requires 0 <= i < |ab| => parse(ab[i]));
    assert pab == pa + pb;
    SomesAppend(pa, pb);
    forall l ensures ParsePrices([l], parse) == if parse(l).Some? then [parse(l).value] else [] {
      var pl := seq(1, i requires 0 <= i < 1 => parse([l][i]));
      assert pl == [] + [parse(l)];
      SomesSnoc([], parse(l));
    }
  }

  /** A direction's quote: the first sample is the price, the range spans all samples;
      no samples, no quote. */
  function Aggregate(prices: seq<int>): (q: Option<Quote>)
    ensures q.None? <==> prices == []
    ensures q.Some? ==> q.value.price == prices[0]
    ensures q.Some? ==> q.value.range.highest in prices && q.value.range.lowest in prices
    ensures q.Some? ==> forall p :: p in prices ==> q.value.range.lowest <= p <= q.value.range.highest
    ensures q.Some? ==> q.value.range.lowest <= q.value.price <= q.value.range.highest
  {
    if prices == [] then None
    else
      assert prices[0] in prices;
      Some(Quote(prices[0], PriceRange(Max(prices), Min(prices))))
  }

  /** `fetchPrice(tradeType)`: `response` is the listing prices of a successful
      request, or None when the request threw. */
  function FetchPrice(response: Option<seq<string>>, parse: string -> Option<int>): (q: Option<Quote>)
    ensures q.None? <==> response.None? || forall i :: 0 <= i < |response.value| ==> parse(response.value[i]).None?
    ensures q.Some? ==> exists i :: 0 <= i < |response.value| && parse(response.value[i]) == Some(q.value.price)
                                  && forall j :: 0 <= j < i ==> parse(response.value[j]).None?
    ensures q.Some? ==> forall i :: 0 <= i < |response.value| && parse(response.value[i]).Some? ==>
                                  q.value.range.lowest <= parse(response.value[i]).value <= q.value.range.highest
    ensures q.Some? ==> q.value.range.lowest <= q.value.price <= q.value.range.highest
    ensures q.Some? ==> exists i :: 0 <= i < |response.value| && parse(response.value[i]) == Some(q.value.range.highest)
    ensures q.Some? ==> exists i :: 0 <= i < |response.value| && parse(response.value[i]) == Some(q.value.range.lowest)
  {
    match response
    case None => None
    case Some(listings) => Aggregate(ParsePrices(listings, parse))
  }

  function ToRecord(q: Quote, timestamp: int, tradeType: TradeType): PriceRecord
  {
    PriceRecord(q.price, q.range, timestamp, tradeType)
  }

  /** The records a cycle appends: both or nothing, BUY first, one shared timestamp. */
  function CyclePair(buy: Option<Quote>, sell: Option<Quote>, now: int): (pair: Option<seq<PriceRecord>>)
    ensures pair.Some? <==> buy.Some? && sell.Some?
    ensures pair.Some? ==>
              && |pair.value| == 2
              && pair.value[0].tradeType == BUY && pair.value[1].tradeType == SELL
              && pair.value[0].timestamp == now && pair.value[1].timestamp == now
              && pair.value[0].price == buy.value.price && pair.value[0].range == buy.value.range
              && pair.value[1].price == sell.value.price && pair.value[1].range == sell.value.range
  {
    if buy.Some? && sell.Some? then Some([ToRecord(buy.value, now, BUY), ToRecord(sell.value, now, SELL)])
    else None
  }

  /** `[...priceHistory, ...newPrices].slice(-MAX_HISTORY_LENGTH)`. */
  function Retain(history: seq<PriceRecord>, incoming: seq<PriceRecord>): (h: seq<PriceRecord>)
  {
    TakeLast(history + incoming, MAX_HISTORY_LENGTH)
  }

  /** Append-and-trim keeps at most the cap, drops the oldest records first, keeps
      everything while under the cap, and never drops a record just appended. */
  lemma RetainKeepsNewest(history: seq<PriceRecord>, incoming: seq<PriceRecord>)
    ensures var h := Retain(history, incoming);
      && |h| == (if |history| + |incoming| <= MAX_HISTORY_LENGTH then |history| + |incoming| else MAX_HISTORY_LENGTH)
      && h == (history + incoming)[|history| + |incoming| - |h|..]
      && (|history| + |incoming| <= MAX_HISTORY_LENGTH ==> h == history + incoming)
      && (|incoming| <= MAX_HISTORY_LENGTH ==> h[|h| - |incoming|..] == incoming)
  {
    var h := Retain(history, incoming);
    if |incoming| <= MAX_HISTORY_LENGTH {
      assert (history + incoming)[|history|..] == incoming;
    }
  }

  /** `priceHistory.slice(-2)`: the payload of "latest" and of every stream frame. */
  function Latest(history: seq<PriceRecord>): (payload: seq<PriceRecord>)
    ensures |payload| == if |history| < 2 then |history| else 2
    ensures payload == history[|history| - |payload|..]
  {
    TakeLast(history, 2)
  }

  /** After a successful cycle the latest payload is exactly the pair just appended. */
  lemma {:induction false} LatestAfterCycle(history: seq<PriceRecord>, buy: Quote, sell: Quote, now: int)
    ensures var pair := CyclePair(Some(buy), Some(sell), now).value;
      Latest(Retain(history, pair)) == pair
  {
    var pair := CyclePair(Some(buy), Some(sell), now).value;
    RetainKeepsNewest(history, pair);
  }

  /** A cycle keeps the history ordered by time when its clock reading is not
      earlier than any stored timestamp. */
  lemma {:induction false} CycleKeepsOrder(history: seq<PriceRecord>, pair: seq<PriceRecord>, now: int)
    requires SortedByTime(history)
    requires forall i :: 0 <= i < |history| ==> history[i].timestamp <= now
    requires forall i :: 0 <= i < |pair| ==> pair[i].timestamp == now
    ensures SortedByTime(Retain(history, pair))
  {
    var all := history + pair;
    assert SortedByTime(all) by {
      forall i, j | 0 <= i < j < |all| ensures all[i].timestamp <= all[j].timestamp {
        if j < |history| {
        } else if i < |history| {
          assert all[j] == pair[j - |history|];
        } else {
          assert all[i] == pair[i - |history|] && all[j] == pair[j - |history|];
        }
      }
    }
    var h := Retain(history, pair);
    var k := |all| - |h|;
    forall i, j | 0 <= i < j < |h| ensures h[i].timestamp <= h[j].timestamp {
      assert h[i] == all[k + i] && h[j] == all[k + j];
    }
  }

  /** One `priceUpdate` emission: every registered connection is written the
      payload once more; a closed connection is written nothing. */
  function Broadcast(sent: map<nat, seq<seq<PriceRecord>>>, listeners: set<nat>, payload: seq<PriceRecord>)
    : (r: map<nat, seq<seq<PriceRecord>>>)
    ensures r.Keys == sent.Keys
    ensures forall c :: c in sent && c in listeners ==> r[c] == sent[c] + [payload]
    ensures forall c :: c in sent && c !in listeners ==> r[c] == sent[c]
  {
    map c | c in sent :: if c in listeners then sent[c] + [payload] else sent[c]
  }

  /** A broadcast keeps the connection set, and every connection keeps at least its
      first frame. */
  lemma BroadcastKeepsConnections(sent: map<nat, seq<seq<PriceRecord>>>, listeners: set<nat>, payload: seq<PriceRecord>, bound: nat)
    requires forall c :: c in sent ==> c < bound && sent[c] != []
    ensures forall c :: c in Broadcast(sent, listeners, payload) ==> c < bound && Broadcast(sent, listeners, payload)[c] != []
  {
  }

  /** The server's shared state: the history, the stream connections listening for
      `priceUpdate`, and the frames written to every connection so far. */
  class PriceServer {
    var history: seq<PriceRecord>
    var listeners: set<nat>
    var sent: map<nat, seq<seq<PriceRecord>>>
    var nextConnection: nat

    ghost predicate Valid()
      reads this
    {
      && |history| <= MAX_HISTORY_LENGTH
      && listeners <= sent.Keys
      && (forall c :: c in sent ==> c < nextConnection && sent[c] != [])
    }

    /** `let priceHistory = []`, before any connection. */
    constructor ()
      ensures Valid()
      ensures history == [] && listeners == {} && sent == map[]
    {
      history := [];
      listeners := {};
      sent := map[];
      nextConnection := 0;
    }

    /** The successful branch of a cycle: append the pair, trim to the cap and emit
        the latest payload to every listening connection. */
    method Record(pair: seq<PriceRecord>)
      requires Valid()
      modifies this
      ensures Valid()
      ensures history == Retain(old(history), pair)
      ensures sent == Broadcast(old(sent), listeners, Latest(history))
      ensures listeners == old(listeners) && nextConnection == old(nextConnection)
    {
      var retained := Retain(history, pair);
      var payload := Latest(retained);
      var frames := Broadcast(sent, listeners, payload);
      BroadcastKeepsConnections(sent, listeners, payload, nextConnection);
      assert |retained| <= MAX_HISTORY_LENGTH;
      assert frames.Keys == sent.Keys;
      history := retained;
      sent := frames;
    }

    /** `fetchPrices()`: one ingestion cycle given the outcome of both requests. */
    method FetchPrices(buyResponse: Option<seq<string>>, sellResponse: Option<seq<string>>,
                       parse: string -> Option<int>, now: int)
      requires Valid()
      modifies this
      ensures Valid()
      ensures listeners == old(listeners) && nextConnection == old(nextConnection)
      ensures match CyclePair(FetchPrice(buyResponse, parse), FetchPrice(sellResponse, parse), now)
              case None => history == old(history) && sent == old(sent)
              case Some(pair) => history == Retain(old(history), pair)
                                 && sent == Broadcast(old(sent), listeners, Latest(history))
    {
      var buyData := FetchPrice(buyResponse, parse);
      var sellData := FetchPrice(sellResponse, parse);
      var newPrices := CyclePair(buyData, sellData, now);
      if newPrices.Some? {
        Record(newPrices.value);
      }
    }

    /** GET /api/prices/stream: a new connection is written the latest payload at
        once and starts listening for updates. */
    method Subscribe() returns (connection: nat)
      requires Valid()
      modifies this
      ensures Valid()
      ensures connection !in old(sent)
      ensures listeners == old(listeners) + {connection}
      ensures sent == old(sent)[connection := [Latest(history)]]
      ensures history == old(history)
    {
      connection := nextConnection;
      nextConnection := nextConnection + 1;
      sent := sent[connection := [Latest(history)]];
      listeners := listeners + {connection};
    }

    /** The connection's `close` event: its listener is removed; closing twice is harmless. */
    method Unsubscribe(connection: nat)
      requires Valid()
      modifies this
      ensures Valid()
      ensures listeners == old(listeners) - {connection}
      ensures history == old(history) && sent == old(sent) && nextConnection == old(nextConnection)
    {
      listeners := listeners - {connection};
    }

    /** GET /api/prices/latest. */
    method GetLatest() returns (payload: seq<PriceRecord>)
      ensures |payload| == if |history| < 2 then |history| else 2
      ensures payload == history[|history| - |payload|..]
    {
      var h := history;
      payload := Latest(h);
    }

    /** GET /api/prices/history. */
    method GetHistory() returns (all: seq<PriceRecord>)
      requires Valid()
      ensures all == history && |all| <= MAX_HISTORY_LENGTH
    {
      all := history;
    }
  }
}
