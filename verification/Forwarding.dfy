/** Which client a proxied handshake is attributed to. */
module Forwarding {
  import opened Options
  import opened Addresses
  import opened Text

  const MAX_CHAIN_BYTES: nat := 1024
  const MAX_CHAIN_HOPS: nat := 16

  /** The values of the two forwarding headers; `None` is a value that is not visible text. */
  datatype Headers = Headers(forwardedFor: seq<Option<string>>, realIp: seq<Option<string>>)

  datatype Problem = Ambiguous | InvalidForwarded | ChainTooLong | NoClient | InvalidReal | Conflicting | MissingClient

  datatype Outcome = Ok(client: IpAddr) | Err(problem: Problem)

  /** The textual address parser. */
  type Parser = string -> Option<IpAddr>

  function ParseHop(parse: Parser, text: string): Option<IpAddr> {
    var ip := parse(text);
    if ip.Some? then Some(Canonical(ip.value)) else None
  }

  /** All hops of a chain, or `None` if any of them is not an address. */
  function ParseChain(parse: Parser, pieces: seq<string>): Option<seq<IpAddr>> {
    if pieces == [] then Some([])
    else
      var hop, rest := ParseHop(parse, Trim(pieces[0])), ParseChain(parse, pieces[1..]);
      if hop.Some? && rest.Some? then Some([hop.value] + rest.value) else None
  }

  function LastUntrusted(trusted: set<IpAddr>, chain: seq<IpAddr>): Option<IpAddr> {
    if chain == [] then None
    else if chain[|chain| - 1] !in trusted then Some(chain[|chain| - 1])
    else LastUntrusted(trusted, chain[..|chain| - 1])
  }

  function CheckReal(trusted: set<IpAddr>, parse: Parser, stated: seq<Option<string>>, client: IpAddr): Outcome {
    if |stated| == 0 then Ok(client)
    else if |stated| > 1 then Err(Ambiguous)
    else if stated[0].None? || ParseHop(parse, stated[0].value).None? then Err(InvalidReal)
    else
      var ip := ParseHop(parse, stated[0].value).value;
      if ip !in trusted && ip != client then Err(Conflicting) else Ok(client)
  }

  function FromChain(trusted: set<IpAddr>, parse: Parser, value: string, stated: seq<Option<string>>): Outcome {
    if Utf8Len(value) > MAX_CHAIN_BYTES then Err(ChainTooLong)
    else
      var chain := ParseChain(parse, Split(value, ','));
      if chain.None? then Err(InvalidForwarded)
      else if |chain.value| > MAX_CHAIN_HOPS then Err(ChainTooLong)
      else
        var client := LastUntrusted(trusted, chain.value);
        if client.None? then Err(NoClient) else CheckReal(trusted, parse, stated, client.value)
  }

  function Source(trusted: set<IpAddr>, parse: Parser, peer: IpAddr, h: Headers): Outcome {
    if Canonical(peer) !in trusted then Ok(Canonical(peer))
    else if |h.forwardedFor| > 0 then
      if |h.forwardedFor| != 1 then Err(Ambiguous)
      else if h.forwardedFor[0].None? then Err(InvalidForwarded)
      else FromChain(trusted, parse, h.forwardedFor[0].value, h.realIp)
    else if |h.realIp| != 1 then Err(MissingClient)
    else if h.realIp[0].None? || ParseHop(parse, h.realIp[0].value).None? then Err(InvalidReal)
    else
      var ip := ParseHop(parse, h.realIp[0].value).value;
      if ip in trusted then Err(InvalidReal) else Ok(ip)
  }

  lemma {:induction false} ChainIsCanonical(parse: Parser, pieces: seq<string>)
    ensures
      var chain := ParseChain(parse, pieces);
      chain.Some? ==>
        |chain.value| == |pieces| && forall i :: 0 <= i < |chain.value| ==> Canonical(chain.value[i]) == chain.value[i]
  {
    if pieces != [] {
      ChainIsCanonical(parse, pieces[1..]);
      var hop := parse(Trim(pieces[0]));
      if hop.Some? {
        CanonicalIdempotent(hop.value);
      }
    }
  }

  lemma {:induction false} ChainConcat(parse: Parser, a: seq<string>, b: seq<string>)
    ensures
      var (ca, cb, c) := (ParseChain(parse, a), ParseChain(parse, b), ParseChain(parse, a + b));
      && (c.Some? <==> ca.Some? && cb.Some?)
      && (c.Some? ==> c.value == ca.value + cb.value)
  {
    if a == [] {
      assert a + b == b;
    } else {
      assert (a + b)[1..] == a[1..] + b;
      ChainConcat(parse, a[1..], b);
    }
  }

  /** The hop found is untrusted and all to its right are trusted proxies; none is found only if all are trusted. */
  lemma {:induction false} RightmostUntrusted(trusted: set<IpAddr>, chain: seq<IpAddr>) returns (i: int)
    ensures LastUntrusted(trusted, chain).Some? ==>
              && 0 <= i < |chain| && chain[i] == LastUntrusted(trusted, chain).value && chain[i] !in trusted
              && forall j :: i < j < |chain| ==> chain[j] in trusted
    ensures LastUntrusted(trusted, chain).None? ==> forall j :: 0 <= j < |chain| ==> chain[j] in trusted
  {
    i := |chain| - 1;
    if chain != [] && chain[|chain| - 1] in trusted {
      i := RightmostUntrusted(trusted, chain[..|chain| - 1]);
    }
  }

  lemma {:induction false} LastUntrustedIgnoresLeft(trusted: set<IpAddr>, left: seq<IpAddr>, right: seq<IpAddr>)
    requires LastUntrusted(trusted, right).Some?
    ensures LastUntrusted(trusted, left + right) == LastUntrusted(trusted, right)
  {
    var n := |right| - 1;
    assert (left + right)[|left + right| - 1] == right[n];
    if right[n] in trusted {
      assert (left + right)[..|left + right| - 1] == left + right[..n];
      LastUntrustedIgnoresLeft(trusted, left, right[..n]);
    }
  }

  /** An attributed client is canonical, is no proxy, and, if it came from a chain, is its rightmost untrusted hop. */
  lemma AttributionIsSound(trusted: set<IpAddr>, parse: Parser, peer: IpAddr, h: Headers)
    requires Source(trusted, parse, peer, h).Ok?
    ensures
      var ip := Source(trusted, parse, peer, h).client;
      && Canonical(ip) == ip && ip !in trusted
      && (Canonical(peer) !in trusted ==> ip == Canonical(peer))
      && (Canonical(peer) in trusted && h.forwardedFor != [] ==>
            && |h.forwardedFor| == 1 && h.forwardedFor[0].Some?
            && ParseChain(parse, Split(h.forwardedFor[0].value, ',')).Some?
            && var chain := ParseChain(parse, Split(h.forwardedFor[0].value, ',')).value;
               exists i :: 0 <= i < |chain| && chain[i] == ip && forall j :: i < j < |chain| ==> chain[j] in trusted)
  {
    CanonicalIdempotent(peer);
    if Canonical(peer) in trusted && h.forwardedFor != [] {
      var pieces := Split(h.forwardedFor[0].value, ',');
      ChainIsCanonical(parse, pieces);
      var i := RightmostUntrusted(trusted, ParseChain(parse, pieces).value);
    } else if Canonical(peer) in trusted {
      CanonicalIdempotent(parse(h.realIp[0].value).value);
    }
  }

  /** A header value that ends in `kept`, with or without hops to its left. */
  function Extended(left: Option<string>, kept: string): string {
    if left.Some? then left.value + "," + kept else kept
  }

  /**
   What a client writes to the left of the hop it is known by, if anything, does
   not matter: as long as that hop stays, any two accepted chains are attributed alike.
   */
  lemma LeftHopsAreIgnored(trusted: set<IpAddr>, parse: Parser, peer: IpAddr,
                           left: Option<string>, other: Option<string>, kept: string, stated: seq<Option<string>>)
    requires Canonical(peer) in trusted
    requires ParseChain(parse, Split(kept, ',')).Some?
    requires LastUntrusted(trusted, ParseChain(parse, Split(kept, ',')).value).Some?
    requires Source(trusted, parse, peer, Headers([Some(Extended(left, kept))], stated)).Ok?
    requires Source(trusted, parse, peer, Headers([Some(Extended(other, kept))], stated)).Ok?
    ensures Source(trusted, parse, peer, Headers([Some(Extended(left, kept))], stated)) ==
            Source(trusted, parse, peer, Headers([Some(Extended(other, kept))], stated))
  {
    KeptHopDecides(trusted, parse, left, kept);
    KeptHopDecides(trusted, parse, other, kept);
  }

  lemma KeptHopDecides(trusted: set<IpAddr>, parse: Parser, left: Option<string>, kept: string)
    requires ParseChain(parse, Split(kept, ',')).Some? && ParseChain(parse, Split(Extended(left, kept), ',')).Some?
    requires LastUntrusted(trusted, ParseChain(parse, Split(kept, ',')).value).Some?
    ensures LastUntrusted(trusted, ParseChain(parse, Split(Extended(left, kept), ',')).value) ==
            LastUntrusted(trusted, ParseChain(parse, Split(kept, ',')).value)
  {
    if left.Some? {
      SplitJoin(left.value, ',', kept);
      ChainConcat(parse, Split(left.value, ','), Split(kept, ','));
      LastUntrustedIgnoresLeft(trusted, ParseChain(parse, Split(left.value, ',')).value,
                               ParseChain(parse, Split(kept, ',')).value);
    }
  }

  // ----- When an attribution is accepted -----

  /** Every piece of the header value, trimmed, is an address. */
  predicate AllHops(parse: Parser, pieces: seq<string>) {
    forall i :: 0 <= i < |pieces| ==> parse(Trim(pieces[i])).Some?
  }

  function HopAt(parse: Parser, pieces: seq<string>, i: nat): IpAddr
    requires i < |pieces| && AllHops(parse, pieces)
  {
    Canonical(parse(Trim(pieces[i])).value)
  }

  lemma {:induction false} ChainIsAllHops(parse: Parser, pieces: seq<string>)
    ensures ParseChain(parse, pieces).Some? <==> AllHops(parse, pieces)
    ensures ParseChain(parse, pieces).Some? ==>
              var chain := ParseChain(parse, pieces).value;
              |chain| == |pieces| && forall i :: 0 <= i < |pieces| ==> chain[i] == HopAt(parse, pieces, i)
  {
    if pieces != [] {
      ChainIsAllHops(parse, pieces[1..]);
      assert AllHops(parse, pieces) <==> parse(Trim(pieces[0])).Some? && AllHops(parse, pieces[1..]) by {
        assert forall i :: 0 <= i < |pieces[1..]| ==> pieces[1..][i] == pieces[i + 1];
        assert forall i :: 1 <= i < |pieces| ==> pieces[i] == pieces[1..][i - 1];
      }
    }
  }

  /** Hop `i` is the client: an untrusted hop with nothing but trusted proxies to its right. */
  ghost predicate ClientHop(trusted: set<IpAddr>, parse: Parser, pieces: seq<string>, i: nat) {
    && i < |pieces| && AllHops(parse, pieces) && HopAt(parse, pieces, i) !in trusted
    && forall j :: i < j < |pieces| ==> HopAt(parse, pieces, j) in trusted
  }

  /** The real-address header is absent, or is one address that is trusted or agrees with the client. */
  predicate Corroborates(trusted: set<IpAddr>, parse: Parser, stated: seq<Option<string>>, client: IpAddr) {
    || stated == []
    || (|stated| == 1 && stated[0].Some? && parse(stated[0].value).Some?
        && var shown := Canonical(parse(stated[0].value).value); shown in trusted || shown == client)
  }

  /** The chain header is one visible value of at most 1024 bytes and 16 hops whose client hop is `client`. */
  ghost predicate ChainNames(trusted: set<IpAddr>, parse: Parser, forwarded: seq<Option<string>>, client: IpAddr) {
    && |forwarded| == 1 && forwarded[0].Some? && Utf8Len(forwarded[0].value) <= 1024
    && var pieces := Split(forwarded[0].value, ',');
       |pieces| <= 16 && exists i :: ClientHop(trusted, parse, pieces, i) && HopAt(parse, pieces, i) == client
  }

  /** Who a handshake comes from, said without saying how it is found. */
  ghost predicate ComesFrom(trusted: set<IpAddr>, parse: Parser, peer: IpAddr, h: Headers, client: IpAddr) {
    if Canonical(peer) !in trusted then client == Canonical(peer)
    else if h.forwardedFor != [] then
      ChainNames(trusted, parse, h.forwardedFor, client) && Corroborates(trusted, parse, h.realIp, client)
    else
      && |h.realIp| == 1 && h.realIp[0].Some? && parse(h.realIp[0].value).Some?
      && client == Canonical(parse(h.realIp[0].value).value) && client !in trusted
  }

  lemma LastUntrustedIsClientHop(trusted: set<IpAddr>, parse: Parser, pieces: seq<string>, client: IpAddr)
    requires ParseChain(parse, pieces).Some?
    ensures LastUntrusted(trusted, ParseChain(parse, pieces).value) == Some(client) <==>
            exists i :: ClientHop(trusted, parse, pieces, i) && HopAt(parse, pieces, i) == client
  {
    ChainIsAllHops(parse, pieces);
    var chain := ParseChain(parse, pieces).value;
    var last := RightmostUntrusted(trusted, chain);
    if i: nat :| ClientHop(trusted, parse, pieces, i) && HopAt(parse, pieces, i) == client {
      assert chain[i] !in trusted;
      OneClientHop(trusted, parse, pieces, i, last);
    } else if LastUntrusted(trusted, chain).Some? {
      assert ClientHop(trusted, parse, pieces, last);
    }
  }

  lemma OneClientHop(trusted: set<IpAddr>, parse: Parser, pieces: seq<string>, i: nat, j: nat)
    requires ClientHop(trusted, parse, pieces, i) && ClientHop(trusted, parse, pieces, j)
    ensures i == j
  {}

  lemma ChainDecided(trusted: set<IpAddr>, parse: Parser, value: string, stated: seq<Option<string>>, client: IpAddr)
    ensures FromChain(trusted, parse, value, stated) == Ok(client) <==>
            ChainNames(trusted, parse, [Some(value)], client) && Corroborates(trusted, parse, stated, client)
  {
    var pieces := Split(value, ',');
    ChainIsAllHops(parse, pieces);
    if ParseChain(parse, pieces).Some? {
      LastUntrustedIsClientHop(trusted, parse, pieces, client);
    }
  }

  /** A handshake is attributed to a client exactly when it comes from that client; it is refused if from none. */
  lemma AttributionDecided(trusted: set<IpAddr>, parse: Parser, peer: IpAddr, h: Headers, client: IpAddr)
    ensures Source(trusted, parse, peer, h) == Ok(client) <==> ComesFrom(trusted, parse, peer, h, client)
  {
    if Canonical(peer) in trusted && |h.forwardedFor| == 1 && h.forwardedFor[0].Some? {
      assert h.forwardedFor == [Some(h.forwardedFor[0].value)];
      ChainDecided(trusted, parse, h.forwardedFor[0].value, h.realIp, client);
    }
  }
}
