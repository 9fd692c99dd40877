/** The int64 nanosecond arithmetic of `reconcileTerminal` (platform/k8s/reconcilers/agentjob_reconciler.go:131-140). */
module Ttl {

  import opened Lifecycle
  import opened JobModel
  import opened JobTheorems

  const MIN64 := -0x8000_0000_0000_0000
  const MAX64 := 0x7FFF_FFFF_FFFF_FFFF

  predicate FitsInt32(n: int) { -0x8000_0000 <= n < 0x8000_0000 }

  predicate FitsInt64(n: int) { MIN64 <= n <= MAX64 }

  /** Go's wrap-around of an int64 result. */
  function Wrap64(n: int): (r: int)
    ensures FitsInt64(r) && (n - r) % 0x1_0000_0000_0000_0000 == 0
  {
    var m := n % 0x1_0000_0000_0000_0000;
    if m <= MAX64 then m else m - 0x1_0000_0000_0000_0000
  }

  /** time.Since saturates. */
  function Since(now: int, then_: int): (r: int)
    ensures FitsInt64(r) && (FitsInt64(now - then_) ==> r == now - then_)
    ensures now - then_ > MAX64 ==> r == MAX64
    ensures now - then_ < MIN64 ==> r == MIN64
  {
    var d := now - then_;
    if d < MIN64 then MIN64 else if d > MAX64 then MAX64 else d
  }

  /** time.Duration(ttl) * time.Second as computed. */
  function TtlNanos(ttl: int): int { Wrap64(ttl * SECOND) }

  /** The wait that is returned, as computed. */
  function Wait(ttl: int, elapsed: int): int { Wrap64(TtlNanos(ttl) - elapsed) }

  lemma WrapFits(n: int)
    requires FitsInt64(n)
    ensures Wrap64(n) == n
  {
    if n < 0 {
      assert n == -1 * 0x1_0000_0000_0000_0000 + (n + 0x1_0000_0000_0000_0000);
      assert n % 0x1_0000_0000_0000_0000 == n + 0x1_0000_0000_0000_0000;
    } else {
      assert n % 0x1_0000_0000_0000_0000 == n;
    }
  }

  /** An int32 TTL in nanoseconds never overflows. */
  lemma TtlNeverOverflows(ttl: int)
    requires FitsInt32(ttl)
    ensures TtlNanos(ttl) == ttl * SECOND
  {
    WrapFits(ttl * SECOND);
  }

  /** For a positive TTL that has not passed, the wait is the mathematical one, and positive, if and only if the
      completion time does not lie more than about 292 years ahead of the clock; otherwise it comes out negative. */
  lemma WaitIsRightIff(ttl: int, elapsed: int)
    requires FitsInt32(ttl) && ttl > 0 && FitsInt64(elapsed) && elapsed < ttl * SECOND
    ensures Wait(ttl, elapsed) == ttl * SECOND - elapsed <==> elapsed >= ttl * SECOND - MAX64
    ensures Wait(ttl, elapsed) > 0 <==> elapsed >= ttl * SECOND - MAX64
  {
    TtlNeverOverflows(ttl);
    var n := ttl * SECOND - elapsed;
    if FitsInt64(n) {
      WrapFits(n);
    } else {
      assert MAX64 < n < 0x1_0000_0000_0000_0000;
      assert n % 0x1_0000_0000_0000_0000 == n;
    }
  }

  /** The branch `elapsed < ttl` takes the right side whatever the clock says: time.Since saturates far beyond any TTL.
      */
  lemma BranchIsRight(spec: Spec, st: Status, now: int)
    requires FitsInt32(spec.ttl) && spec.ttl > 0 && st.completedAt.Some?
    ensures Since(now, st.completedAt.value) < TtlNanos(spec.ttl) <==> !Expired(spec, st, now)
  {
    TtlNeverOverflows(spec.ttl);
  }

  /** With a clock and a completion time within 2^62 nanoseconds (about 146 years) of each other the delay computed is
      the one the reconciler promises. */
  lemma WaitIsRight(job: Job, now: int)
    requires FitsInt32(job.spec.ttl) && job.spec.ttl > 0 && job.history != [] && job.Last().completedAt.Some?
    requires -0x4000_0000_0000_0000 <= now - job.Last().completedAt.value <= 0x4000_0000_0000_0000
    requires !Expired(job.spec, job.Last(), now)
    ensures Wait(job.spec.ttl, Since(now, job.Last().completedAt.value)) == RequeueAfter(job, now) > 0
  {
    WaitIsRightIff(job.spec.ttl, now - job.Last().completedAt.value);
  }
}
