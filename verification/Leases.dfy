/** The lease on one execution, as the memory store grants and releases it. */
module Leases {
  import opened Values

  datatype Lease = Lease(owner: string, expires: Time)

  /** A lease held by somebody else that has not expired keeps `owner` out. */
  predicate KeepsOut(lease: Option<Lease>, owner: string, now: Time) {
    lease.Some? && lease.value.owner != owner && now < lease.value.expires
  }

  predicate HoldsLease(lease: Option<Lease>, owner: string) {
    lease.Some? && lease.value.owner == owner
  }

  /** The lease after `owner` asked for it: taken or renewed for another ttl, unless kept out. */
  function Acquired(lease: Option<Lease>, owner: string, now: Time, ttl: int): Option<Lease> {
    if KeepsOut(lease, owner, now) then lease else Some(Lease(owner, now + ttl))
  }

  /** What is left of the lease when `owner` gives it up: somebody else's stays. */
  function Released(lease: Option<Lease>, owner: string): Option<Lease> {
    if lease.Some? && lease.value.owner == owner then None else lease
  }

  function LeaseIn(leases: map<string, Lease>, id: string): Option<Lease> {
    if id in leases then Some(leases[id]) else None
  }
}
