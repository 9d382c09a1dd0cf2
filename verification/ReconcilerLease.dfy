/** The reconciler's scan lease: one row, taken over by fencing token. */
module ReconcilerLease {
  import opened Options

  datatype Lease = Lease(owner: string, expiresAt: int, token: int)

  // ----- Guarded updates, at any clock -----

  function Acquired(row: Option<Lease>, owner: string, now: int, ttl: int): (Option<Lease>, bool) {
    match row
    case None => (Some(Lease(owner, now + ttl, 1)), true)
    case Some(l) =>
      if l.expiresAt <= now then (Some(Lease(owner, now + ttl, l.token + 1)), true) else (row, false)
  }

  function Renewed(row: Option<Lease>, owner: string, token: int, now: int, ttl: int): (Option<Lease>, bool) {
    if row.Some? && row.value.owner == owner && row.value.token == token && row.value.expiresAt > now
    then (Some(row.value.(expiresAt := now + ttl)), true)
    else (row, false)
  }

  function Released(row: Option<Lease>, owner: string, token: int, now: int): (Option<Lease>, bool) {
    if row.Some? && row.value.owner == owner && row.value.token == token
    then (Some(row.value.(expiresAt := now)), true)
    else (row, false)
  }

  datatype Op =
    | Acquire(owner: string, now: int)
    | Renew(owner: string, token: int, now: int)
    | Release(owner: string, token: int, now: int)

  function Apply(row: Option<Lease>, op: Op, ttl: int): (Option<Lease>, bool) {
    match op
    case Acquire(owner, now) => Acquired(row, owner, now, ttl)
    case Renew(owner, token, now) => Renewed(row, owner, token, now, ttl)
    case Release(owner, token, now) => Released(row, owner, token, now)
  }

  function Run(row: Option<Lease>, ops: seq<Op>, ttl: int): Option<Lease>
    decreases |ops|
  {
    if ops == [] then row else Run(Apply(row, ops[0], ttl).0, ops[1..], ttl)
  }

  /** Who got the lease by the successful acquisitions, and under which token, in order. */
  function Grants(row: Option<Lease>, ops: seq<Op>, ttl: int): seq<(string, int)>
    decreases |ops|
  {
    if ops == [] then []
    else
      var (after, ok) := Apply(row, ops[0], ttl);
      (if ops[0].Acquire? && ok && after.Some? then [Holder(after.value)] else []) + Grants(after, ops[1..], ttl)
  }

  function Holder(l: Lease): (string, int) {
    (l.owner, l.token)
  }

  function TokenOf(row: Option<Lease>): int {
    if row.Some? then row.value.token else 0
  }

  /** Tokens strictly increasing, and all above `floor`. */
  ghost predicate Rising(grants: seq<(string, int)>, floor: int) {
    && (forall i :: 0 <= i < |grants| ==> floor < grants[i].1)
    && (forall i, j :: 0 <= i < j < |grants| ==> grants[i].1 < grants[j].1)
  }

  lemma RisingCons(first: (string, int), rest: seq<(string, int)>, floor: int)
    requires floor < first.1 && Rising(rest, first.1)
    ensures Rising([first] + rest, floor)
  {
  }

  lemma ApplyToken(row: Option<Lease>, op: Op, ttl: int)
    requires row.Some? ==> row.value.token >= 1
    ensures var (after, ok) := Apply(row, op, ttl);
            && TokenOf(row) <= TokenOf(after) && (after.Some? ==> after.value.token >= 1)
            && (op.Acquire? && ok ==> after.Some? && TokenOf(row) < TokenOf(after))
  {
  }

  /** Over any sequence of operations by any instances, at any clocks, acquisitions get strictly rising tokens. */
  lemma {:induction false} TokensIncrease(row: Option<Lease>, ops: seq<Op>, ttl: int)
    requires row.Some? ==> row.value.token >= 1
    ensures Rising(Grants(row, ops, ttl), TokenOf(row))
    ensures TokenOf(row) <= TokenOf(Run(row, ops, ttl))
    decreases |ops|
  {
    if ops != [] {
      ApplyToken(row, ops[0], ttl);
      var (after, ok) := Apply(row, ops[0], ttl);
      hide Apply;
      TokensIncrease(after, ops[1..], ttl);
      var rest := Grants(after, ops[1..], ttl);
      if ops[0].Acquire? && ok {
        RisingCons(Holder(after.value), rest, TokenOf(row));
        assert Grants(row, ops, ttl) == [Holder(after.value)] + rest;
      } else {
        assert Grants(row, ops, ttl) == rest;
      }
    }
  }

  lemma ApplyHolder(row: Option<Lease>, op: Op, ttl: int)
    ensures var (after, ok) := Apply(row, op, ttl);
            && (op.Acquire? && ok ==> after.Some?)
            && (!(op.Acquire? && ok) ==>
                  (after.Some? <==> row.Some?) && (row.Some? ==> Holder(after.value) == Holder(row.value)))
  {
  }

  lemma {:induction false} HolderIsLast(row: Option<Lease>, ops: seq<Op>, ttl: int)
    ensures var grants, later := Grants(row, ops, ttl), Run(row, ops, ttl);
            later.Some? ==>
              if grants == [] then row.Some? && Holder(later.value) == Holder(row.value)
              else Holder(later.value) == grants[|grants| - 1]
    decreases |ops|
  {
    if ops != [] {
      ApplyHolder(row, ops[0], ttl);
      hide Apply;
      HolderIsLast(Apply(row, ops[0], ttl).0, ops[1..], ttl);
    }
  }

  /** Whatever happened, only the last acquirer can renew, under the token it got: at most one pair at any time. */
  lemma OneHolder(ops: seq<Op>, owner: string, token: int, now: int, ttl: int)
    requires Renewed(Run(None, ops, ttl), owner, token, now, ttl).1
    ensures var grants := Grants(None, ops, ttl);
            grants != [] && grants[|grants| - 1] == (owner, token)
  {
    HolderIsLast(None, ops, ttl);
  }

  /** Once its lease was taken over, a holder can neither renew nor release, in any later state, at any clock. */
  lemma StaleForever(row: Option<Lease>, holder: string, token: int, takeover: Op, ops: seq<Op>, now: int, ttl: int)
    requires row.Some? && row.value.token >= 1 && token <= row.value.token
    requires takeover.Acquire? && Apply(row, takeover, ttl).1
    ensures var later := Run(Apply(row, takeover, ttl).0, ops, ttl);
            && Renewed(later, holder, token, now, ttl) == (later, false)
            && Released(later, holder, token, now) == (later, false)
  {
    TokensIncrease(Apply(row, takeover, ttl).0, ops, ttl);
  }

  /** While a renewed lease lasts nobody else gets it, whatever they try before it expires. */
  lemma {:induction false} Exclusive(row: Option<Lease>, ops: seq<Op>, ttl: int, until: int)
    requires row.Some? && until <= row.value.expiresAt
    requires forall op :: op in ops ==>
               op.now < until && (op.Release? ==> op.owner != row.value.owner || op.token != row.value.token)
    requires forall op :: op in ops ==> op.Renew? ==> until <= op.now + ttl
    ensures var later := Run(row, ops, ttl);
            && later.Some? && later.value.owner == row.value.owner && later.value.token == row.value.token
            && until <= later.value.expiresAt
    decreases |ops|
  {
    if ops != [] {
      assert ops[0] in ops;
      Exclusive(Apply(row, ops[0], ttl).0, ops[1..], ttl, until);
    }
  }

  /** At every moment either the holder can renew, or anyone can take the lease over. */
  lemma RenewedOrTaken(l: Lease, other: string, now: int, ttl: int)
    ensures Renewed(Some(l), l.owner, l.token, now, ttl).1 <==> !Acquired(Some(l), other, now, ttl).1
  {
  }

  /** A lease taken or renewed lasts its whole time and no longer; one given back is free at once. */
  lemma LeaseLasts(row: Option<Lease>, owner: string, other: string, now: int, later: int, ttl: int)
    ensures Acquired(row, owner, now, ttl).1 ==>
              var held := Acquired(row, owner, now, ttl).0;
              && held.Some? && held.value.owner == owner
              && (Acquired(held, other, later, ttl).1 <==> now + ttl <= later)
    ensures row.Some? && Renewed(row, owner, row.value.token, now, ttl).1 ==>
              var held := Renewed(row, owner, row.value.token, now, ttl).0;
              && held.Some? && Holder(held.value) == Holder(row.value)
              && (Acquired(held, other, later, ttl).1 <==> now + ttl <= later)
    ensures row.Some? && Released(row, owner, row.value.token, now).1 ==>
              (Acquired(Released(row, owner, row.value.token, now).0, other, later, ttl).1 <==> now <= later)
    ensures row.None? ==> Acquired(row, owner, now, ttl).1
  {
  }

  // ----- Taking the lease -----

  /** The row can be taken over, and its token read, in one transaction. */
  predicate ReadsAtOnce(row: Option<Lease>, now: int) {
    row.Some? && row.value.expiresAt <= now
  }

  /** An acquisition that others may get ahead of between its two statements. */
  function Raced(row: Option<Lease>, owner: string, now: int, ttl: int, race: seq<Op>): (Option<Lease>, bool) {
    Acquired(if ReadsAtOnce(row, now) then row else Run(row, race, ttl), owner, now, ttl)
  }

  lemma RunNothing(row: Option<Lease>, ttl: int)
    ensures Run(row, [], ttl) == row
  {
  }

  lemma {:induction false} RunSnoc(row: Option<Lease>, ops: seq<Op>, op: Op, ttl: int)
    ensures Run(row, ops + [op], ttl) == Apply(Run(row, ops, ttl), op, ttl).0
    decreases |ops|
  {
    hide Apply;
    if ops == [] {
      assert Run(row, [op], ttl) == Run(Apply(row, op, ttl).0, [], ttl);
    } else {
      assert (ops + [op])[1..] == ops[1..] + [op];
      RunSnoc(Apply(row, ops[0], ttl).0, ops[1..], op, ttl);
    }
  }

  lemma {:induction false} RunAppend(row: Option<Lease>, a: seq<Op>, b: seq<Op>, ttl: int)
    ensures Run(row, a + b, ttl) == Run(Run(row, a, ttl), b, ttl)
    decreases |a|
  {
    hide Apply;
    if a == [] {
      assert a + b == b;
    } else {
      assert (a + b)[1..] == a[1..] + b;
      RunAppend(Apply(row, a[0], ttl).0, a[1..], b, ttl);
    }
  }

  lemma {:induction false} RowStays(row: Option<Lease>, ops: seq<Op>, ttl: int)
    requires row.Some?
    ensures Run(row, ops, ttl).Some?
    decreases |ops|
  {
    if ops != [] {
      RowStays(Apply(row, ops[0], ttl).0, ops[1..], ttl);
    }
  }

  /** While the token stays, so does its holder: every take-over brings a new token. */
  lemma {:induction false} SameTokenSameHolder(row: Option<Lease>, ops: seq<Op>, ttl: int)
    requires row.Some? && row.value.token >= 1
    ensures var later := Run(row, ops, ttl);
            later.Some? && (later.value.token == row.value.token ==> later.value.owner == row.value.owner)
    decreases |ops|
  {
    if ops != [] {
      var after := Apply(row, ops[0], ttl).0;
      ApplyToken(row, ops[0], ttl);
      ApplyHolder(row, ops[0], ttl);
      TokensIncrease(after, ops[1..], ttl);
      hide Apply;
      SameTokenSameHolder(after, ops[1..], ttl);
    }
  }

  /** A token read late may be a successor's.  It is then of no use: in no later state can it renew or release under
      this owner's name, unless the owner itself held the lease when it was read. */
  lemma LateReadHarmless(row: Option<Lease>, owner: string, ops: seq<Op>, now: int, ttl: int)
    requires row.Some? && row.value.token >= 1
    ensures var token, later := TokenOf(row), Run(row, ops, ttl);
            Renewed(later, owner, token, now, ttl).1 || Released(later, owner, token, now).1 ==>
              row.value.owner == owner
  {
    SameTokenSameHolder(row, ops, ttl);
  }

  /** The table with its one row. */
  class LeaseTable {
    var row: Option<Lease>

    constructor ()
      ensures row == None
    {
      row := None;
    }
  }

  class ReconciliationLeaseService {
    const table: LeaseTable
    const ttl: int
    var fencingToken: Option<int>

    constructor (table: LeaseTable, ttlSeconds: int)
      requires ttlSeconds > 0
      ensures this.table == table && ttl == ttlSeconds && fencingToken == None
    {
      this.table, ttl, fencingToken := table, ttlSeconds, None;
    }

    method TakeExpired(owner: string, now: int) returns (ok: bool)
      modifies table
      ensures ok == (old(table.row).Some? && old(table.row).value.expiresAt <= now)
      ensures table.row == if ok then Acquired(old(table.row), owner, now, ttl).0 else old(table.row)
    {
      ok := table.row.Some? && table.row.value.expiresAt <= now;
      if ok {
        table.row := Some(Lease(owner, now + ttl, table.row.value.token + 1));
      }
    }

    /** What the other instances do to the row meanwhile. */
    method Others(ops: seq<Op>)
      modifies table
      ensures table.row == Run(old(table.row), ops, ttl)
    {
      RunNothing(table.row, ttl);
      for k := 0 to |ops|
        invariant table.row == Run(old(table.row), ops[..k], ttl)
      {
        assert ops[..k + 1] == ops[..k] + [ops[k]];
        RunSnoc(old(table.row), ops[..k], ops[k], ttl);
        table.row := Apply(table.row, ops[k], ttl).0;
      }
      assert ops[..|ops|] == ops;
    }

    /** Takes an expired lease and reads its token in one transaction; else inserts the row, which an existing one
        turns into a second try, and reads the token only after the commit.  `race` is what others do before the
        insert, `late` what they do before the read. */
    method Acquire(owner: string, now: int, race: seq<Op>, late: seq<Op>) returns (ok: bool)
      modifies this, table
      ensures var taken := Raced(old(table.row), owner, now, ttl, race);
              && ok == taken.1
              && table.row == if ok && !ReadsAtOnce(old(table.row), now) then Run(taken.0, late, ttl) else taken.0
      ensures ok ==> table.row.Some? && fencingToken == Some(TokenOf(table.row))
      ensures !ok ==> fencingToken == old(fencingToken)
    {
      ok := TakeExpired(owner, now);
      if !ok {
        Others(race);
        if table.row.Some? {
          ok := TakeExpired(owner, now);
          if !ok {
            return;
          }
        } else {
          table.row, ok := Some(Lease(owner, now + ttl, 1)), true;
        }
        RowStays(table.row, late, ttl);
        Others(late);
      }
      fencingToken := Some(table.row.value.token);
    }

    method Renew(owner: string, token: int, now: int) returns (ok: bool)
      modifies table
      ensures (table.row, ok) == Renewed(old(table.row), owner, token, now, ttl)
    {
      ok := table.row.Some? && table.row.value.owner == owner && table.row.value.token == token
            && table.row.value.expiresAt > now;
      if ok {
        table.row := Some(table.row.value.(expiresAt := now + ttl));
      }
    }

    method Release(owner: string, token: int, now: int) returns (ok: bool)
      modifies table
      ensures (table.row, ok) == Released(old(table.row), owner, token, now)
    {
      ok := table.row.Some? && table.row.value.owner == owner && table.row.value.token == token;
      if ok {
        table.row := Some(table.row.value.(expiresAt := now));
      }
    }
  }
}
