/** The storage summary card (src/components/StorageInfo.tsx): record count, first
    and latest dates, the span in whole hours, and the high-usage warning. Date
    formatting is the parameter `format`; the length of the history's JSON text is
    the parameter `jsonLength`. */
module StorageInfo {
  import opened Common

  const MS_PER_HOUR: int := 1000 * 60 * 60

  /** `n` is `num / den` rounded to the nearest integer, halves upwards: that is,
      num/den - 1/2 <= n < num/den + 1/2, written without fractions. */
  ghost predicate RoundsHalfUp(n: int, num: int, den: int)
  {
    2 * n * den - den <= 2 * num < 2 * n * den + den
  }

  /** `Math.round(d / 3600000)` for a whole number of milliseconds `d`. */
  function RoundHours(d: int): (n: int)
    ensures RoundsHalfUp(n, d, MS_PER_HOUR)
  {
    (d + MS_PER_HOUR / 2) / MS_PER_HOUR
  }

  /** `timeSpan`: zero below two records, else the rounded hours between the first
      and the last record. */
  function TimeSpanHours(h: seq<PriceRecord>): (n: int)
    ensures |h| < 2 ==> n == 0
    ensures |h| >= 2 ==> RoundsHalfUp(n, h[|h| - 1].timestamp - h[0].timestamp, MS_PER_HOUR)
    ensures |h| >= 2 && h[0].timestamp <= h[|h| - 1].timestamp ==> n >= 0
  {
    if |h| > 1 then RoundHours(h[|h| - 1].timestamp - h[0].timestamp) else 0
  }

  /** The number `(jsonLength / 1024).toFixed(2)` denotes, in hundredths of a KB:
      toFixed picks the nearest hundredth, and the larger one on a tie. */
  function KilobyteHundredths(jsonLength: nat): (n: int)
    ensures RoundsHalfUp(n, jsonLength * 100, 1024)
  {
    (jsonLength * 100 + 512) / 1024
  }

  /** `isStorageHigh`: `Number(storageUsage) > 1024`. */
  function StorageHigh(jsonLength: nat): bool
  {
    KilobyteHundredths(jsonLength) > 1024 * 100
  }

  /** Because the figure is rounded to hundredths before the comparison, the warning
      starts at 1048582 characters, not just above 1024 * 1024. */
  lemma StorageHighThreshold(jsonLength: nat)
    ensures StorageHigh(jsonLength) <==> jsonLength >= 1048582
  {
    var n := KilobyteHundredths(jsonLength);
    if jsonLength >= 1048582 {
      assert n > 102400;
    } else {
      assert n <= 102400;
    }
  }

  /** What the card shows. */
  datatype Summary = Summary(totalRecords: nat, timeSpan: int, firstRecord: string, latestRecord: string, storageHigh: bool)

  /** `StorageInfo({ priceHistory })`. */
  function Summarize(h: seq<PriceRecord>, jsonLength: nat, format: int -> string): (s: Summary)
    ensures s.totalRecords == |h|
    ensures h == [] ==> s.firstRecord == "N/A" && s.latestRecord == "N/A"
    ensures h != [] ==> s.firstRecord == format(h[0].timestamp) && s.latestRecord == format(h[|h| - 1].timestamp)
    ensures s.timeSpan == TimeSpanHours(h)
    ensures s.storageHigh <==> jsonLength >= 1048582
  {
    StorageHighThreshold(jsonLength);
    Summary(
      |h|,
      TimeSpanHours(h),
      if |h| > 0 then format(h[0].timestamp) else "N/A",
      if |h| > 0 then format(h[|h| - 1].timestamp) else "N/A",
      StorageHigh(jsonLength))
  }
}
