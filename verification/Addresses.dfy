/** Network addresses, their canonical form, and the folding used for per-source quotas. */
module Addresses {
  const TWO32: nat := 0x1_0000_0000
  const TWO64: nat := 0x1_0000_0000_0000_0000
  const TWO128: nat := 0x1_0000_0000_0000_0000_0000_0000_0000_0000

  type Bits32 = n: nat | n < TWO32
  type Bits128 = n: nat | n < TWO128

  datatype IpAddr = V4(v4: Bits32) | V6(v6: Bits128)

  /** An IPv4-mapped IPv6 address (::ffff:a.b.c.d) is the IPv4 address it carries. */
  function Canonical(ip: IpAddr): IpAddr {
    match ip
    case V4(_) => ip
    case V6(b) => if b / TWO32 == 0xFFFF then V4(b % TWO32) else ip
  }

  /** IPv6 sources share one quota per /64 network. */
  function QuotaSource(ip: IpAddr): IpAddr {
    match Canonical(ip)
    case V4(b) => V4(b)
    case V6(b) => V6(b - b % TWO64)
  }

  function Mapped(b: Bits32): IpAddr {
    V6(0xFFFF * TWO32 + b)
  }

  lemma CanonicalIdempotent(ip: IpAddr)
    ensures Canonical(Canonical(ip)) == Canonical(ip)
  {}

  /** Both spellings of an IPv4 host are one source. */
  lemma MappedIsSame(b: Bits32)
    ensures Canonical(Mapped(b)) == V4(b) && QuotaSource(Mapped(b)) == QuotaSource(V4(b)) == V4(b)
  {
    assert (0xFFFF * TWO32 + b) / TWO32 == 0xFFFF;
    assert (0xFFFF * TWO32 + b) % TWO32 == b;
  }

  /** The first address of a /64 network is never an IPv4-mapped one. */
  lemma NetworkIsNotMapped(b: Bits128)
    ensures (b - b % TWO64) / TWO32 != 0xFFFF
  {
    var q := b / TWO64;
    assert TWO64 == TWO32 * TWO32;
    assert b - b % TWO64 == q * TWO64;
    assert q * TWO64 == (q * TWO32) * TWO32;
    assert (q * TWO64) / TWO32 == q * TWO32;
    assert q == 0 || q * TWO32 >= TWO32;
  }

  /** Folding is stable: a quota source is its own quota source, and it is canonical. */
  lemma QuotaSourceIdempotent(ip: IpAddr)
    ensures QuotaSource(QuotaSource(ip)) == QuotaSource(ip)
    ensures Canonical(QuotaSource(ip)) == QuotaSource(ip)
    ensures QuotaSource(Canonical(ip)) == QuotaSource(ip)
  {
    CanonicalIdempotent(ip);
    if Canonical(ip).V6? {
      NetworkIsNotMapped(Canonical(ip).v6);
      var b := Canonical(ip).v6;
      assert (b - b % TWO64) % TWO64 == 0;
    }
  }

  /** Two IPv6 hosts share a quota exactly when they share their upper 64 bits. */
  lemma SameNetworkSameQuota(a: Bits128, b: Bits128)
    requires Canonical(V6(a)) == V6(a) && Canonical(V6(b)) == V6(b)
    ensures QuotaSource(V6(a)) == QuotaSource(V6(b)) <==> a / TWO64 == b / TWO64
  {
    assert a - a % TWO64 == a / TWO64 * TWO64;
    assert b - b % TWO64 == b / TWO64 * TWO64;
  }

  /** `ip` is one of the two spellings of the IPv4 host `h`. */
  predicate Spells(ip: IpAddr, h: Bits32) {
    ip == V4(h) || ip == V6(0xFFFF_0000_0000 + h)
  }

  /** Exactly the two spellings of an IPv4 host become that host; any other address is left as it is. */
  lemma CanonicalDecided(ip: IpAddr, h: Bits32)
    ensures Canonical(ip) == V4(h) <==> Spells(ip, h)
    ensures Canonical(ip).V6? ==> Canonical(ip) == ip
  {
    MappedIsSame(h);
  }

  /** Two spellings of one IPv4 host. */
  ghost predicate SameHost(a: IpAddr, b: IpAddr) {
    exists h: Bits32 :: Spells(a, h) && Spells(b, h)
  }

  /** Two IPv6 addresses that are no IPv4 hosts and share their upper 64 bits. */
  ghost predicate SameNetwork(a: IpAddr, b: IpAddr) {
    a.V6? && b.V6? && !SameHost(a, a) && !SameHost(b, b) && a.v6 / TWO64 == b.v6 / TWO64
  }

  lemma SpelledOrNot(ip: IpAddr)
    ensures Canonical(ip).V4? <==> SameHost(ip, ip)
  {
    if Canonical(ip).V4? {
      CanonicalDecided(ip, Canonical(ip).v4);
    }
    if h: Bits32 :| Spells(ip, h) && Spells(ip, h) {
      CanonicalDecided(ip, h);
    }
  }

  /** Two sources share one quota exactly when they are one IPv4 host or lie in one IPv6 /64. */
  lemma SameQuotaIffSameOrigin(a: IpAddr, b: IpAddr)
    ensures QuotaSource(a) == QuotaSource(b) <==> SameHost(a, b) || SameNetwork(a, b)
  {
    SpelledOrNot(a);
    SpelledOrNot(b);
    if Canonical(a).V4? {
      CanonicalDecided(a, Canonical(a).v4);
      CanonicalDecided(b, Canonical(a).v4);
    } else if Canonical(b).V6? {
      CanonicalDecided(a, 0);
      CanonicalDecided(b, 0);
      SameNetworkSameQuota(a.v6, b.v6);
    }
    if h: Bits32 :| Spells(a, h) && Spells(b, h) {
      CanonicalDecided(a, h);
      CanonicalDecided(b, h);
    }
  }
}
