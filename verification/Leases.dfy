/** Fenced leases and the execution guard, as thin clients of the key-value store. */
module Leases {
  import opened Core
  import opened Keys
  import opened TimedStore

  datatype Lease = Lease(resource: JobId, holder: WorkerId, token: nat)

  datatype StaleLease = StaleLease(resource: JobId, token: int, newestSeen: int)

  class LeaseManager {
    const kv: InMemoryKV<Key, Owner>
    const ttl: real

    constructor (kv: InMemoryKV<Key, Owner>, ttl: real)
      ensures this.kv == kv && this.ttl == ttl
    {
      this.kv := kv;
      this.ttl := ttl;
    }

    /** The token is drawn before the SET NX, so a failed acquire burns one. */
    method Acquire(resource: JobId, holder: WorkerId) returns (lease: Option<Lease>)
      modifies kv
      ensures var before := old(kv.View());
              var token := Counter(before.counters, TokenKey(resource)) + 1;
              && kv.View().counters == before.counters[TokenKey(resource) := token]
              && kv.View().live == Take(before.live, before.now, LeaseKey(resource), Owner(holder, token), ttl)
              && lease == if LeaseKey(resource) in before.live then None
                          else Some(Lease(resource, holder, token))
      ensures kv.View().now == old(kv.View().now)
    {
      var token := kv.Incr(TokenKey(resource));
      var acquired := kv.SetIfAbsent(LeaseKey(resource), Owner(holder, token), ttl);
      if !acquired {
        return None;
      }
      return Some(Lease(resource, holder, token));
    }

    /** Release only what is still held under this very token. */
    method Release(lease: Lease) returns (released: bool)
      modifies kv
      ensures released == Holds(old(kv.View()).live, LeaseKey(lease.resource), Owner(lease.holder, lease.token))
      ensures kv.View() == old(kv.View()).(live :=
                Drop(old(kv.View()).live, LeaseKey(lease.resource), Owner(lease.holder, lease.token)))
    {
      released := kv.CompareAndDelete(LeaseKey(lease.resource), Owner(lease.holder, lease.token));
    }
  }

  /** The rule of the write site: accept a token at least as new as the newest accepted. */
  predicate Accepts(newest: int, token: int) {
    newest <= token
  }

  class FencedWriter {
    var newest: map<JobId, int>

    constructor ()
      ensures forall r :: NewestAccepted(r) == 0
    {
      newest := map[];
    }

    function NewestAccepted(resource: JobId): int
      reads this
    {
      if resource in newest then newest[resource] else 0
    }

    method Check(resource: JobId, token: int) returns (error: Option<StaleLease>)
      modifies this
      ensures error.None? <==> Accepts(old(NewestAccepted(resource)), token)
      ensures error.Some? ==> error.value == StaleLease(resource, token, old(NewestAccepted(resource)))
      ensures forall r :: NewestAccepted(r) ==
                if r == resource && error.None? then token else old(NewestAccepted(r))
    {
      var current := NewestAccepted(resource);
      if token < current {
        return Some(StaleLease(resource, token, current));
      }
      newest := newest[resource := token];
      return None;
    }
  }

  datatype ClaimResult = Claimed | AlreadyDone | InProgress

  class ExecutionGuard {
    const kv: InMemoryKV<Key, Owner>
    const claimTtl: real
    const doneTtl: real

    constructor (kv: InMemoryKV<Key, Owner>, claimTtl: real, doneTtl: real)
      ensures this.kv == kv && this.claimTtl == claimTtl && this.doneTtl == doneTtl
    {
      this.kv := kv;
      this.claimTtl := claimTtl;
      this.doneTtl := doneTtl;
    }

    method TryClaim(job: JobId, delivery: Owner) returns (r: ClaimResult)
      modifies kv
      ensures var before := old(kv.View());
              && (r == AlreadyDone <==> DoneKey(job) in before.live)
              && (r == Claimed <==> DoneKey(job) !in before.live && ClaimKey(job) !in before.live)
              && kv.View() == if r != Claimed then before
                              else before.(live := Take(before.live, before.now, ClaimKey(job), delivery, claimTtl))
    {
      var done := kv.Get(DoneKey(job));
      if done.Some? {
        return AlreadyDone;
      }
      var claimed := kv.SetIfAbsent(ClaimKey(job), delivery, claimTtl);
      if !claimed {
        return InProgress;
      }
      return Claimed;
    }

    method MarkDone(job: JobId, delivery: Owner)
      modifies kv
      ensures var before := old(kv.View());
              kv.View() == before.(live :=
                Drop(Take(before.live, before.now, DoneKey(job), delivery, doneTtl), ClaimKey(job), delivery))
    {
      var _ := kv.SetIfAbsent(DoneKey(job), delivery, doneTtl);
      var _ := kv.CompareAndDelete(ClaimKey(job), delivery);
    }

    method ReleaseClaim(job: JobId, delivery: Owner)
      modifies kv
      ensures kv.View() == old(kv.View()).(live := Drop(old(kv.View()).live, ClaimKey(job), delivery))
    {
      var _ := kv.CompareAndDelete(ClaimKey(job), delivery);
    }
  }
}
