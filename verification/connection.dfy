/**
  One tunnelled connection: the accepted inbound socket, the socket dialed
  to the remote endpoint for it, the connection's own limiter and the two
  forwarding directions between the sockets.

  Sockets are opaque identities. Dialing is reduced to its outcome, which
  the caller supplies; the forwarding tasks are reduced to which sockets
  they copy between and which limiters they must ask before every chunk.
 */
module Connections {
  import opened Limits

  /** The n-th socket the tunnel accepted, or the socket dialed for it. */
  datatype Socket = Inbound(n: nat) | Outbound(n: nat)

  /** What dialing the remote endpoint produced. */
  datatype Dial = DialFailed | Dialed(egress: Socket)

  /** A limiter a forwarding direction consults: the tunnel-wide one shared
      by every connection, or the connection's own. */
  datatype LimiterRef = TunnelWide | ConnectionWide

  /** One forwarding direction: bytes go from `from` to `to`, and each chunk
      needs permission from every limiter in `limiters`, in order. */
  datatype Forwarder = Forwarder(from: Socket, to: Socket, limiters: seq<LimiterRef>)

  datatype Connection = Connection(
    ingress: Socket,
    egress: Socket,
    limiter: Limiter,
    upstream: Forwarder,
    downstream: Forwarder)

  /** The limiter list both directions of a connection share. */
  const SharedLimiters: seq<LimiterRef> := [TunnelWide, ConnectionWide]

  /** Both directions copy between the connection's own two sockets, one each
      way, and are governed by the tunnel limiter and then the connection's. */
  predicate WellFormed(c: Connection)
  {
    && c.upstream == Forwarder(c.ingress, c.egress, SharedLimiters)
    && c.downstream == Forwarder(c.egress, c.ingress, SharedLimiters)
  }

  /** The outcome of building a connection for an accepted socket. */
  datatype Creation = Created(conn: Connection) | DialError

  /** Builds the connection for `ingress` once the dial outcome is known. A
      failed dial yields no connection (the caller closes `ingress`); a
      successful one yields a connection whose own limiter runs at the
      tunnel's current per-connection limit with a burst of one buffer. */
  function Create(ingress: Socket, dial: Dial, connectionLimit: Limit, bufSize: nat): (r: Creation)
    ensures r.DialError? <==> dial.DialFailed?
    ensures r.Created? ==>
      && WellFormed(r.conn)
      && r.conn.ingress == ingress
      && r.conn.egress == dial.egress
      && r.conn.limiter == Limiter(connectionLimit, bufSize)
  {
    match dial
    case DialFailed => DialError
    case Dialed(egress) =>
      Created(Connection(
        ingress, egress, Limiter(connectionLimit, bufSize),
        Forwarder(ingress, egress, SharedLimiters),
        Forwarder(egress, ingress, SharedLimiters)))
  }

  /** Applies a new per-connection rate to a live connection: nothing is
      reconnected, and both directions keep sharing the same limiters. */
  function WithLimit(c: Connection, limit: Limit): (r: Connection)
    ensures r.limiter.limit == limit
    ensures r.limiter.burst == c.limiter.burst
    ensures r.ingress == c.ingress && r.egress == c.egress
    ensures WellFormed(c) ==> WellFormed(r)
  {
    c.(limiter := SetLimit(c.limiter, limit))
  }

  /** Every byte moved in either direction of a connection is charged to
      both the tunnel-wide limiter and the connection's own limiter: the two
      directions together are charged to each limiter. */
  lemma BothDirectionsChargeBothLimiters(c: Connection)
    requires WellFormed(c)
    ensures c.upstream.limiters == c.downstream.limiters
    ensures TunnelWide in c.upstream.limiters && ConnectionWide in c.upstream.limiters
    ensures c.upstream.from == c.downstream.to && c.upstream.to == c.downstream.from
  {
  }
}
