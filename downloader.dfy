/**
 * Historical download planning: which time windows `ensure_data` and
 * `ensure_data_range` ask for, and how a window is cut into the one-hour
 * chunks the aggregated-trades endpoint accepts. Times are milliseconds.
 */
module Downloader {
  import opened Common

  datatype MarketType = Spot | Futures

  /** `MarketType::as_str`. */
  function AsStr(m: MarketType): (s: string)
    ensures m == Spot ==> s == "SPOT"
    ensures m == Futures ==> s == "FUTURES"
  {
    match m
    case Spot => "SPOT"
    case Futures => "FUTURES"
  }

  /** The two market strings are distinct, so `AsStr` is injective. */
  lemma AsStrInjective(a: MarketType, b: MarketType)
    ensures AsStr(a) == AsStr(b) <==> a == b
  {
    if a != b {
      assert AsStr(a)[0] != AsStr(b)[0];
    }
  }

  /** A time window `[start, end)` handed to the chunked fetch. */
  datatype Window = Window(start: nat, end: nat)

  /** Largest window the aggregated-trades endpoint accepts: one hour. */
  const MaxWindowMs: nat := 3600000

  /**
   * One step of the chunk loop as written: `chunk_start + MAX_WINDOW_MS` on
   * `u64`, which wraps in a release build (and panics in a debug build).
   */
  function ChunkEndAsWritten(chunkStart: nat, endTs: nat): (chunkEnd: nat)
    requires chunkStart < U64Modulus && endTs < U64Modulus
    ensures chunkEnd <= endTs
    ensures chunkStart + MaxWindowMs < U64Modulus ==> chunkEnd == NatMin(chunkStart + MaxWindowMs, endTs)
  {
    NatMin((chunkStart + MaxWindowMs) % U64Modulus, endTs)
  }

  function NatMin(a: nat, b: nat): nat {
    if a < b then a else b
  }

  /**
   * Near the top of the `u64` range the as-written step produces a chunk that
   * ends before it starts, and the loop restarts from a small timestamp
   * instead of terminating. `execute_isolated_backtest` passes `u64::MAX` as
   * the end when the request has none.
   */
  lemma ChunkEndWrapsBackwards()
    ensures var s := U64Modulus - 1000;
      var e := U64Modulus - 1;
      s < e && ChunkEndAsWritten(s, e) == 3599000 && ChunkEndAsWritten(s, e) < s
  {
  }

  /**
   * The chunk loop of `fetch_and_save_range_public`, with the window end
   * computed without wrap-around (`saturating_add`): contiguous chunks of at
   * most one hour, all full except possibly the last, covering exactly
   * `[startTs, endTs)`.
   */
  method PlanChunks(startTs: nat, endTs: nat) returns (chunks: seq<Window>)
    ensures startTs >= endTs <==> chunks == []
    ensures chunks != [] ==> chunks[0].start == startTs && chunks[|chunks| - 1].end == endTs
    ensures forall i :: 0 <= i < |chunks| ==>
      chunks[i].start < chunks[i].end <= chunks[i].start + MaxWindowMs
    ensures forall i :: 0 <= i < |chunks| - 1 ==>
      chunks[i].end == chunks[i + 1].start && chunks[i].end == chunks[i].start + MaxWindowMs
  {
    chunks := [];
    var chunkStart := startTs;
    while chunkStart < endTs
      invariant chunks == [] ==> chunkStart == startTs
      invariant chunks != [] ==> chunks[0].start == startTs && chunks[|chunks| - 1].end == chunkStart
      invariant chunks != [] ==> startTs < endTs && chunkStart <= endTs
      invariant forall i :: 0 <= i < |chunks| ==>
        chunks[i].start < chunks[i].end <= chunks[i].start + MaxWindowMs
      invariant forall i :: 0 <= i < |chunks| - 1 ==>
        chunks[i].end == chunks[i + 1].start && chunks[i].end == chunks[i].start + MaxWindowMs
      invariant chunks != [] && chunkStart < endTs ==>
        chunks[|chunks| - 1].end == chunks[|chunks| - 1].start + MaxWindowMs
      decreases endTs - chunkStart
    {
      var chunkEnd := NatMin(chunkStart + MaxWindowMs, endTs);
      chunks := chunks + [Window(chunkStart, chunkEnd)];
      chunkStart := chunkEnd;
    }
  }

  /**
   * The windows `ensure_data_range` fetches, given the stored MIN/MAX
   * `event_time` (as `i64`, absent for an empty table) and the requested
   * range: first the gap before the stored span, then the gap after it.
   */
  function EnsureDataRange(dbMin: Option<int>, dbMax: Option<int>, startTs: nat, endTs: nat): (fetches: seq<Window>)
    requires dbMin.Some? ==> -I64Bound <= dbMin.value < I64Bound
    requires dbMax.Some? ==> -I64Bound <= dbMax.value < I64Bound
    ensures |fetches| <= 2
  {
    var needBefore := !(dbMin.Some? && I64AsU64(dbMin.value) <= startTs);
    var needAfter := !(dbMax.Some? && I64AsU64(dbMax.value) >= endTs);
    if !needBefore && !needAfter then []
    else
      var existingMin := if dbMin.Some? then I64AsU64(dbMin.value) else endTs;
      var existingMax := if dbMax.Some? then I64AsU64(dbMax.value) else startTs;
      (if needBefore && startTs < existingMin then [Window(startTs, existingMin)] else [])
      + (if needAfter && endTs > existingMax then [Window(existingMax, endTs)] else [])
  }

  /**
   * With data stored, nothing is fetched iff the stored span already reaches
   * back to `startTs` and forward to `endTs`. Otherwise the fetches are the
   * gap `[startTs, min)` when the span starts late and the gap `[max, endTs)`
   * when it ends early, in that order; each is non-empty and touches the
   * stored span without overlapping it (so a span lying wholly outside the
   * request is joined up to it).
   */
  lemma EnsureDataRangeGaps(min: int, max: int, startTs: nat, endTs: nat)
    requires -I64Bound <= min < I64Bound && -I64Bound <= max < I64Bound
    ensures var fetches := EnsureDataRange(Some(min), Some(max), startTs, endTs);
      var lo, hi := I64AsU64(min), I64AsU64(max);
      && (fetches == [] <==> lo <= startTs && hi >= endTs)
      && fetches == (if startTs < lo then [Window(startTs, lo)] else [])
                  + (if hi < endTs then [Window(hi, endTs)] else [])
      && (forall w :: w in fetches ==> w.start < w.end && (w.end <= lo || w.start >= hi))
  {
    var lo, hi := I64AsU64(min), I64AsU64(max);
    var fetches := EnsureDataRange(Some(min), Some(max), startTs, endTs);
    if lo <= startTs && hi >= endTs {
      assert fetches == [];
    }
  }

  /**
   * With an empty table both gaps fire and the same whole range is requested
   * twice; an empty or inverted range fetches nothing.
   */
  lemma EnsureDataRangeEmptyTable(startTs: nat, endTs: nat)
    ensures startTs < endTs ==>
      EnsureDataRange(None, None, startTs, endTs) == [Window(startTs, endTs), Window(startTs, endTs)]
    ensures startTs >= endTs ==> EnsureDataRange(None, None, startTs, endTs) == []
  {
  }

  /**
   * The window `ensure_data` fetches for `hours` of history at clock `now`,
   * given the stored MIN `event_time`: none when the oldest stored trade is
   * already old enough, otherwise from the target start up to the oldest
   * stored trade, or up to `now` for an empty table. The target start is
   * `now - hours * 3600 * 1000` in `u64` arithmetic.
   */
  function EnsureData(now: nat, hours: nat, oldest: Option<int>): (fetch: Option<Window>)
    requires now < U64Modulus
    requires oldest.Some? ==> -I64Bound <= oldest.value < I64Bound
  {
    var target := TargetStart(now, hours);
    match oldest
    case Some(ts) =>
      if I64AsU64(ts) <= target then None else Some(Window(target, I64AsU64(ts)))
    case None => Some(Window(target, now))
  }

  /** `now - hours * 3600 * 1000`, each operation wrapping modulo 2^64. */
  function TargetStart(now: nat, hours: nat): (target: nat)
    requires now < U64Modulus
    ensures target < U64Modulus
    ensures hours * MaxWindowMs <= now ==> target == now - hours * MaxWindowMs
  {
    WrappingSub(now, (hours * MaxWindowMs) % U64Modulus)
  }

  /**
   * `ensure_data` fetches nothing iff the oldest stored trade is at or before
   * the target start; a fetch always starts at the target and ends at the
   * oldest stored trade (strictly after the target) or at `now`.
   */
  lemma EnsureDataDecision(now: nat, hours: nat, oldest: Option<int>)
    requires now < U64Modulus
    requires oldest.Some? ==> -I64Bound <= oldest.value < I64Bound
    ensures var target := TargetStart(now, hours);
      var fetch := EnsureData(now, hours, oldest);
      && (fetch.None? <==> oldest.Some? && I64AsU64(oldest.value) <= target)
      && (fetch.Some? ==> fetch.value.start == target)
      && (fetch.Some? && oldest.Some? ==> fetch.value.end == I64AsU64(oldest.value) > target)
      && (oldest.None? ==> fetch == Some(Window(target, now)))
      && (hours * MaxWindowMs <= now && oldest.None? ==> fetch.value.end - fetch.value.start == hours * MaxWindowMs)
  {
  }
}
