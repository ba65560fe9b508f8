/** Synthetic path addresses and their allocator, which consumers share. */
module SyntheticPaths {
  import opened Prelude

  const CGNAT_BASE: nat := 100 * 0x100_0000 + 64 * 0x1_0000
  const CGNAT_HOSTS: nat := 0x40_0000
  const FIRST_PATH_HOST: nat := 2
  const SYNTHETIC_PATH_PORT: u16 := 443

  function Octets(x: nat): (ip: Ipv4)
    requires x <= U32_MAX
  {
    [(x / 0x100_0000) as u8, (x / 0x1_0000 % 0x100) as u8, (x / 0x100 % 0x100) as u8, (x % 0x100) as u8]
  }

  function Address(host: nat): SocketAddr
    requires host < CGNAT_HOSTS
  {
    V4(Octets(CGNAT_BASE + host), SYNTHETIC_PATH_PORT)
  }

  /** The shared address space 100.64.0.0/10 of section 7 of RFC 6598. */
  predicate InSharedSpace(addr: SocketAddr) {
    addr.V4? && addr.ip4[0] == 100 && 64 <= addr.ip4[1] <= 127
  }

  /** The host number of an address in the shared space. */
  function HostOf(addr: SocketAddr): int
    requires InSharedSpace(addr)
  {
    (addr.ip4[1] as int - 64) * 0x1_0000 + addr.ip4[2] as int * 0x100 + addr.ip4[3] as int
  }

  lemma {:induction false} AddressHost(host: nat)
    requires host < CGNAT_HOSTS
    ensures InSharedSpace(Address(host)) && HostOf(Address(host)) == host && Address(host).port == 443
  {
    var x := CGNAT_BASE + host;
    assert x / 0x100_0000 == 100;
    assert x / 0x1_0000 == 100 * 0x100 + 64 + host / 0x1_0000;
    assert x / 0x1_0000 % 0x100 == 64 + host / 0x1_0000;
    assert x / 0x100 == (100 * 0x100 + 64) * 0x100 + host / 0x100;
    assert x / 0x100 % 0x100 == host / 0x100 % 0x100;
    assert x % 0x100 == host % 0x100;
    assert host / 0x100 == host / 0x1_0000 * 0x100 + host / 0x100 % 0x100;
  }

  datatype AllocationError = AddressSpaceExhausted

  type Allocation = Result<SocketAddr, AllocationError>

  /** What the `n`th call to one allocator gives, counting from zero. */
  function NthAllocation(n: nat): Allocation {
    if FIRST_PATH_HOST + n < CGNAT_HOSTS then Ok(Address(FIRST_PATH_HOST + n)) else Err(AddressSpaceExhausted)
  }

  /** Exactly 2^22 - 2 calls succeed, the first ones; each gives an address of the
      shared space with host number at least 2, above all earlier ones. */
  lemma {:induction false} AllocationsAreFresh(m: nat, n: nat)
    requires m < n
    ensures NthAllocation(n).Ok? <==> n < 0x40_0000 - 2
    ensures NthAllocation(n).Ok? ==>
      && NthAllocation(m).Ok?
      && InSharedSpace(NthAllocation(m).value) && InSharedSpace(NthAllocation(n).value)
      && 2 <= HostOf(NthAllocation(m).value) < HostOf(NthAllocation(n).value) < 0x40_0000
      && NthAllocation(m).value != NthAllocation(n).value
  {
    if NthAllocation(n).Ok? {
      AddressHost(FIRST_PATH_HOST + m);
      AddressHost(FIRST_PATH_HOST + n);
    }
  }

  lemma {:induction false} DistinctCalls(m: nat, n: nat)
    requires m != n && NthAllocation(n).Ok?
    ensures NthAllocation(m) != NthAllocation(n)
  {
    if m < n {
      AllocationsAreFresh(m, n);
    } else {
      AllocationsAreFresh(n, m);
    }
  }

  class SyntheticPathAllocator {
    var nextHost: nat
    ghost var calls: nat

    ghost predicate Valid()
      reads this
    {
      nextHost == Min(FIRST_PATH_HOST + calls, CGNAT_HOSTS)
    }

    constructor ()
      ensures Valid() && calls == 0
    {
      nextHost, calls := FIRST_PATH_HOST, 0;
    }

    /** The counter and the sum stay below 2^32 at every call. */
    method Allocate() returns (r: Allocation)
      requires Valid()
      modifies this
      ensures Valid() && calls == old(calls) + 1 && r == NthAllocation(old(calls))
      ensures nextHost <= U32_MAX && CGNAT_BASE + nextHost <= U32_MAX
    {
      calls := calls + 1;
      if nextHost < CGNAT_HOSTS {
        var host := nextHost;
        nextHost := nextHost + 1;
        r := Ok(Address(host));
      } else {
        r := Err(AddressSpaceExhausted);
      }
    }

    /** Allocations made by other consumers that share the allocator. */
    method AllocateForOthers(n: nat)
      requires Valid()
      modifies this
      ensures Valid() && calls == old(calls) + n
    {
      var i := 0;
      while i < n
        invariant i <= n && Valid() && calls == old(calls) + i
      {
        var _ := Allocate();
        i := i + 1;
      }
    }
  }
}
