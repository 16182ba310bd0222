/**
  Bandwidth ceilings of a tunnel and the limiter records that carry them.

  A token-bucket limiter is reduced to its configuration: the refill rate
  and the burst size. Token accounting, floating-point rates and wall-clock
  time belong to the rate library and are not part of this model.
 */
module Limits {

  /** A bandwidth ceiling in bytes per second. The source's `Limit` type is
      declared outside app/tunnel.go; it is converted to a limiter rate
      without change, so an integer is enough here. */
  type Limit = int

  /** The pair of ceilings a tunnel is created with and later updated to. */
  datatype TunnelLimits = TunnelLimits(tunnelLimit: Limit, connectionLimit: Limit)

  /** The configuration of one token-bucket limiter. */
  datatype Limiter = Limiter(limit: Limit, burst: nat)

  /** Changes a limiter's rate in place; its burst stays what it was. */
  function SetLimit(l: Limiter, limit: Limit): (r: Limiter)
    ensures r.limit == limit
    ensures r.burst == l.burst
  {
    l.(limit := limit)
  }

  /** Only the last of two rate changes is visible. */
  lemma SetLimitLastWins(l: Limiter, a: Limit, b: Limit)
    ensures SetLimit(SetLimit(l, a), b) == SetLimit(l, b)
  {
  }
}
