/** The reconciler process: takes the scan lease, scans with a renewal before each step, and gives the lease back. */
module ReconcilerRunner {
  import opened Options
  import opened LifecycleTheorems
  import opened Reconciliation
  import opened ReconcilerService
  import L = ReconcilerLease

  /** Before a renewal: what other instances did to the lease since the last one, and the clock it reads. */
  datatype LeaseTurn = LeaseTurn(others: seq<L.Op>, now: int)

  /** The lease row when renewal `k` is made. */
  function RowAt(row: Option<L.Lease>, owner: string, token: int, turns: nat -> LeaseTurn, ttl: int, k: nat)
    : Option<L.Lease>
  {
    L.Run(if k == 0 then row
          else L.Renewed(RowAt(row, owner, token, turns, ttl, k - 1), owner, token, turns(k - 1).now, ttl).0,
          turns(k).others, ttl)
  }

  /** Renewal `k` succeeds. */
  predicate Renews(row: Option<L.Lease>, owner: string, token: int, turns: nat -> LeaseTurn, ttl: int, k: nat) {
    L.Renewed(RowAt(row, owner, token, turns, ttl, k), owner, token, turns(k).now, ttl).1
  }

  lemma RenewIsApply(row: Option<L.Lease>, owner: string, token: int, now: int, ttl: int)
    ensures L.Run(row, [L.Renew(owner, token, now)], ttl) == L.Renewed(row, owner, token, now, ttl).0
  {
    assert [L.Renew(owner, token, now)][1..] == [];
    assert L.Run(L.Apply(row, L.Renew(owner, token, now), ttl).0, [], ttl)
           == L.Apply(row, L.Renew(owner, token, now), ttl).0;
  }

  /** From one renewal to a later one the row changes only by operations on the lease. */
  lemma {:induction false} RowRuns(row: Option<L.Lease>, owner: string, token: int, turns: nat -> LeaseTurn, ttl: int,
                                   j: nat, k: nat) returns (ops: seq<L.Op>)
    requires j <= k
    ensures RowAt(row, owner, token, turns, ttl, k) == L.Run(RowAt(row, owner, token, turns, ttl, j), ops, ttl)
    decreases k - j
  {
    if j == k {
      ops := [];
    } else {
      var before := RowRuns(row, owner, token, turns, ttl, j, k - 1);
      var at, mid := RowAt(row, owner, token, turns, ttl, j), RowAt(row, owner, token, turns, ttl, k - 1);
      var renew := [L.Renew(owner, token, turns(k - 1).now)];
      RenewIsApply(mid, owner, token, turns(k - 1).now, ttl);
      L.RunAppend(at, before, renew, ttl);
      L.RunAppend(at, before + renew, turns(k).others, ttl);
      ops := before + renew + turns(k).others;
    }
  }

  /** Once another instance has the lease, no later renewal of this one succeeds. */
  lemma LostForGood(row: Option<L.Lease>, owner: string, token: int, turns: nat -> LeaseTurn, ttl: int, j: nat, k: nat)
    requires j <= k
    requires var at := RowAt(row, owner, token, turns, ttl, j);
             at.Some? && at.value.token >= 1 && token < at.value.token
    ensures !Renews(row, owner, token, turns, ttl, k)
  {
    var ops := RowRuns(row, owner, token, turns, ttl, j, k);
    L.TokensIncrease(RowAt(row, owner, token, turns, ttl, j), ops, ttl);
  }

  class Runner {
    const service: ReconciliationService
    const lease: L.ReconciliationLeaseService
    const owner: string

    constructor (service: ReconciliationService, lease: L.ReconciliationLeaseService, owner: string)
      ensures this.service == service && this.lease == lease && this.owner == owner
    {
      this.service, this.lease, this.owner := service, lease, owner;
    }

    /** One round; None when the lease is not to be had.  Each renewal, and the release, are transactions of their own,
        apart from the scan's. */
    method RunOnce(order: seq<string>, resolved: map<string, int>, now: int, race: seq<L.Op>, late: seq<L.Op>,
                   turns: nat -> LeaseTurn, released: int)
      returns (result: Option<ScanResult>, checks: nat, ghost start: Option<L.Lease>, ghost token: int)
      requires WorldInv(service.session.State()) && Lists(order, service.session.records)
      modifies service.session`records, service.session`buckets, lease, lease.table
      ensures result.None? ==> service.session.State() == old(service.session.State())
      // The scan is whole or leaves no trace.
      ensures result == Some(Done) ==>
                Pass(old(service.session.State()), resolved, order) == Some(service.session.State())
      ensures result != Some(Done) ==> service.session.State() == old(service.session.State())
      // It is whole only if the lease was this instance's at every one of its renewals.
      ensures result == Some(Done) ==>
                forall k :: 0 <= k < checks ==> Renews(start, owner, token, turns, lease.ttl, k)
      ensures result == Some(Aborted) ==>
                exists k :: 0 <= k < checks && !Renews(start, owner, token, turns, lease.ttl, k)
      // And gives back no lease but its own.
      ensures result.Some? ==>
                lease.table.row
                == L.Released(RowAt(start, owner, token, turns, lease.ttl, checks), owner, token, released).0
    {
      hide WorldInv, Pass, Lists, L.Run;
      checks, start, token := 0, None, 0;
      var ok := lease.Acquire(owner, now, race, late);
      if !ok {
        return None, checks, start, token;
      }
      token, start := lease.fencingToken.value, lease.table.row;
      var held := lease.fencingToken.value;
      var ttl, first := lease.ttl, lease.table.row;
      var guard := (k: nat) => Renews(first, owner, held, turns, ttl, k);
      var scan;
      scan, checks := service.RunOnce(order, resolved, guard);
      assert forall k: nat :: guard(k) <==> Renews(first, owner, held, turns, ttl, k);
      lease.table.row := RowAt(first, owner, held, turns, ttl, checks);
      var _ := lease.Release(owner, held, released);
      result := Some(scan);
    }
  }
}
