/** Timestamps are 64-bit integers in microseconds. Three values at each end of
    the range are reserved, and arithmetic is clamped to what lies between.
    Every intermediate result below is typed `Int64`, so the verifier checks
    that the two subtractions made by the clamp never overflow. */
module Timestamps {

  const INT64_MIN: int := -0x8000_0000_0000_0000
  const INT64_MAX: int := 0x7fff_ffff_ffff_ffff

  type Int64 = v: int | INT64_MIN <= v <= INT64_MAX

  type Timestamp = Int64

  const UNSET: Timestamp := INT64_MIN
  const UNSTARTED: Timestamp := INT64_MIN + 1
  const PRE_STREAM: Timestamp := INT64_MIN + 2
  const MIN: Timestamp := INT64_MIN + 3
  const MAX: Timestamp := INT64_MAX - 3
  const POST_STREAM: Timestamp := INT64_MAX - 2
  const ONE_OVER_POST_STREAM: Timestamp := INT64_MAX - 1
  const DONE: Timestamp := INT64_MAX

  predicate IsSpecial(t: Timestamp) {
    t <= MIN || t >= MAX
  }

  predicate IsRange(t: Timestamp) {
    MIN <= t <= MAX
  }

  predicate IsAllowedInStream(t: Timestamp) {
    PRE_STREAM <= t <= POST_STREAM
  }

  /** The public constructor aborts on a special value. */
  function FromValue(value: Int64): Timestamp
    requires !IsSpecial(value)
  {
    value
  }

  /** The mathematical clamp of any integer to the range of ordinary timestamps. */
  function Clamp(value: int): (t: Timestamp)
    ensures IsRange(t)
  {
    if value < MIN then MIN else if value > MAX then MAX else value
  }

  /** Adding an offset, with the comparisons in the order the code makes them.
      The result is the exact clamp of the unbounded sum for every offset. */
  function Add(t: Timestamp, offset: Int64): (r: Timestamp)
    requires IsRange(t)
    ensures r == Clamp(t + offset)
  {
    if offset >= 0 && (var limit: Int64 := MAX - offset; t >= limit) then MAX
    else if offset <= 0 && (var limit: Int64 := MIN - offset; t <= limit) then MIN
    else FromValue(t + offset)
  }

  /** The earliest timestamp a later packet may have. */
  function Next(t: Timestamp): (r: Timestamp)
    ensures IsAllowedInStream(t) ==> r > t
    ensures r <= ONE_OVER_POST_STREAM
  {
    if t >= MAX || t == PRE_STREAM then ONE_OVER_POST_STREAM
    else if t < MIN then MIN
    else Add(t, 1)
  }

  /** The latest timestamp an earlier packet may have had. */
  function Previous(t: Timestamp): (r: Timestamp)
    ensures t > UNSTARTED ==> r < t
  {
    if t <= MIN || t == POST_STREAM then UNSTARTED
    else if t > MAX then MAX
    else Add(t, -1)
  }

  function Min2(a: Timestamp, b: Timestamp): Timestamp {
    if b < a then b else a
  }

  function Max2(a: Timestamp, b: Timestamp): Timestamp {
    if a < b then b else a
  }

  /** Next and Previous undo each other on ordinary timestamps, and on no other
      timestamp a packet may have. */
  lemma {:induction false} NextPreviousInverse(t: Timestamp)
    requires IsAllowedInStream(t)
    ensures Previous(Next(t)) == t <==> IsRange(t)
    ensures Next(Previous(t)) == t <==> IsRange(t)
  {
  }

  /** Every packet that may legally follow one at `t` in the same stream is at or
      after `Next(t)`, and nothing lower than `Next(t)` would do. */
  lemma {:induction false} NextIsLeastSuccessor(t: Timestamp, u: Timestamp)
    requires IsRange(t) && IsRange(u)
    ensures t < u <==> Next(t) <= u
  {
  }
}
