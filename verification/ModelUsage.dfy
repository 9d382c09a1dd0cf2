/** The ledger of physical model calls: one row per attempt, moved only by guarded updates. */
module ModelUsage {
  import opened Options

  datatype Outcome = OutSucceeded | OutFailed | OutRateLimited | OutUnknown | OutAborted

  datatype UsageStatus = Reserved | Running | Started | Done(outcome: Outcome)

  datatype Usage = Usage(
    stepId: string, executionAttempt: int, modelAttempt: int, status: UsageStatus, permitId: Option<string>,
    reservedTokens: nat, reservedCost: real, inputTokens: Option<nat>, outputTokens: Option<nat>,
    estimatedCost: Option<real>, providerRequestId: Option<string>, deadline: Option<int>)

  type Rows = map<string, Usage>

  /** What a settlement reports; `prices` is the frozen route's input and output price per thousand tokens. */
  datatype Report = Report(
    outcome: Outcome, inputTokens: Option<int>, outputTokens: Option<int>,
    prices: Option<(real, real)>, providerRequestId: Option<string>)

  datatype SettleReply = SettledNow | AlreadySettled | IdentityMismatch | Rejected

  predicate InFlight(u: Usage) {
    u.status == Running || u.status == Started
  }

  function Tokens(u: Usage): nat {
    if u.status == Done(OutAborted) then 0
    else if u.inputTokens.Some? && u.outputTokens.Some? then u.inputTokens.value + u.outputTokens.value
    else u.reservedTokens
  }

  function Cost(u: Usage): real {
    if u.estimatedCost.Some? && u.estimatedCost.value >= 0.0 then u.estimatedCost.value
    else if u.reservedCost >= 0.0 then u.reservedCost else 0.0
  }

  // ----- Guarded updates -----

  function Activated(rows: Rows, id: string, permitId: string): (Rows, bool) {
    if id in rows && rows[id].status == Reserved
    then (rows[id := rows[id].(status := Running, permitId := Some(permitId))], true)
    else (rows, false)
  }

  function MarkedStarted(rows: Rows, id: string): (Rows, bool) {
    if id in rows && rows[id].status == Running then (rows[id := rows[id].(status := Started)], true)
    else (rows, false)
  }

  function Cancelled(rows: Rows, id: string): (Rows, bool) {
    if id in rows && rows[id].status == Reserved then (rows - {id}, true) else (rows, false)
  }

  predicate Negative(tokens: Option<int>) {
    tokens.Some? && tokens.value < 0
  }

  /** The arguments a settlement refuses before it looks at any row. */
  predicate Malformed(r: Report) {
    || Negative(r.inputTokens) || Negative(r.outputTokens)
    || (r.providerRequestId.Some? && !(1 <= |r.providerRequestId.value| <= 120))
    || (Measured(r) && r.prices.None?)
  }

  predicate Measured(r: Report) {
    r.outcome == OutSucceeded && r.inputTokens.Some? && r.outputTokens.Some?
  }

  function NatOf(tokens: Option<int>): Option<nat>
    requires !Negative(tokens)
  {
    match tokens
    case None => None
    case Some(n) => Some(n)
  }

  function ReportedCost(u: Usage, r: Report): real
    requires Measured(r) ==> r.prices.Some?
  {
    if r.outcome == OutAborted then 0.0
    else if Measured(r) then
      (r.inputTokens.value as real * r.prices.value.0 + r.outputTokens.value as real * r.prices.value.1) / 1000.0
    else u.reservedCost
  }

  /** A measured success or failure may still arrive for a call whose outcome was given up as unknown. */
  predicate Recovers(r: Report) {
    r.outcome == OutSucceeded || r.outcome == OutFailed
  }

  function SettledRow(u: Usage, r: Report): Usage
    requires !Malformed(r)
  {
    u.(status := Done(r.outcome), inputTokens := NatOf(r.inputTokens), outputTokens := NatOf(r.outputTokens),
       estimatedCost := Some(ReportedCost(u, r)),
       providerRequestId := if r.providerRequestId.Some? then r.providerRequestId else u.providerRequestId)
  }

  function Settled(rows: Rows, id: string, r: Report): (Rows, SettleReply) {
    if Malformed(r) || id !in rows then (rows, Rejected)
    else
      var u := rows[id];
      var unknown := u.status == Done(OutUnknown);
      if Recovers(r) && unknown && (r.providerRequestId.None? || u.providerRequestId != r.providerRequestId)
      then (rows, IdentityMismatch)
      else if InFlight(u) || (Recovers(r) && unknown) then (rows[id := SettledRow(u, r)], SettledNow)
      else (rows, AlreadySettled)
  }

  predicate Overdue(u: Usage, now: int) {
    InFlight(u) && u.deadline.Some? && u.deadline.value < now
  }

  /** The reconciler gives up on calls in flight past their deadline and keeps their reserved cost. */
  function GivenUp(rows: Rows, now: int): Rows {
    map id | id in rows ::
      if Overdue(rows[id], now) then rows[id].(status := Done(OutUnknown), estimatedCost := Some(rows[id].reservedCost))
      else rows[id]
  }

  // ----- What the updates come to -----

  /** A reserved call is activated once, under its permit, and started once; it can be cancelled only before that. */
  lemma AttemptLife(rows: Rows, id: string, permitId: string)
    requires id in rows && rows[id].status == Reserved
    ensures var (running, activated) := Activated(rows, id, permitId);
            var (started, marked) := MarkedStarted(running, id);
            && activated && marked
            && id in running && running == rows[id := running[id]] && running[id].permitId == Some(permitId)
            && id in started && started == running[id := running[id].(status := Started)]
            && !MarkedStarted(rows, id).1 && !Activated(running, id, permitId).1 && !MarkedStarted(started, id).1
            && Cancelled(rows, id) == (rows - {id}, true)
            && Cancelled(running, id) == (running, false) && Cancelled(started, id) == (started, false)
  {
  }

  /** Which settlements count: of calls in flight all, of calls given up as unknown those of a success or a failure that
      name the provider request on record; none that report nonsense. */
  lemma SettleExactly(rows: Rows, id: string, r: Report)
    requires id in rows
    ensures var reply, u := Settled(rows, id, r).1, rows[id];
            var nonsense := || (r.inputTokens.Some? && r.inputTokens.value < 0)
                            || (r.outputTokens.Some? && r.outputTokens.value < 0)
                            || r.providerRequestId == Some("")
                            || (r.providerRequestId.Some? && |r.providerRequestId.value| > 120)
                            || (r.outcome == OutSucceeded && r.inputTokens.Some? && r.outputTokens.Some?
                                && r.prices.None?);
            var recovers := u.status == Done(OutUnknown) && (r.outcome == OutSucceeded || r.outcome == OutFailed);
            && (reply == Rejected <==> nonsense)
            && (reply == SettledNow <==>
                  && !nonsense
                  && (|| u.status == Running || u.status == Started
                      || (recovers && r.providerRequestId.Some? && r.providerRequestId == u.providerRequestId)))
            && (reply == IdentityMismatch <==>
                  !nonsense && recovers && (r.providerRequestId.None? || r.providerRequestId != u.providerRequestId))
            && (reply != SettledNow ==> Settled(rows, id, r).0 == rows)
  {
  }

  /** A call settled for good stays as it is, whatever is reported of it later. */
  lemma SettledForGood(rows: Rows, id: string, first: Report, again: Report)
    requires Settled(rows, id, first).1 == SettledNow && first.outcome != OutUnknown
    ensures var once := Settled(rows, id, first).0;
            Settled(once, id, again).0 == once && Settled(once, id, again).1 != SettledNow
  {
  }

  /** A call in flight is given up exactly when its deadline is past, and keeps its reserved cost. */
  lemma GivenUpExactly(rows: Rows, now: int, id: string)
    requires id in rows
    ensures var u, later := rows[id], GivenUp(rows, now);
            && id in later
            && if (u.status == Running || u.status == Started) && u.deadline.Some? && u.deadline.value < now then
                 && later[id].status == Done(OutUnknown)
                 && Tokens(later[id]) == Tokens(u) && Cost(later[id]) == Cost(u.(estimatedCost := None))
               else later[id] == u
  {
  }

  /** The service: each method is one conditional statement on the table. */
  class ModelUsageService {
    var rows: Rows

    constructor ()
      ensures rows == map[]
    {
      rows := map[];
    }

    method ActivateReservation(id: string, permitId: string) returns (ok: bool)
      modifies this
      ensures (rows, ok) == Activated(old(rows), id, permitId)
    {
      ok := id in rows && rows[id].status == Reserved;
      if ok {
        rows := rows[id := rows[id].(status := Running, permitId := Some(permitId))];
      }
    }

    method MarkStarted(id: string) returns (ok: bool)
      modifies this
      ensures (rows, ok) == MarkedStarted(old(rows), id)
    {
      ok := id in rows && rows[id].status == Running;
      if ok {
        rows := rows[id := rows[id].(status := Started)];
      }
    }

    method CancelReservation(id: string) returns (ok: bool)
      modifies this
      ensures (rows, ok) == Cancelled(old(rows), id)
    {
      ok := id in rows && rows[id].status == Reserved;
      if ok {
        rows := rows - {id};
      }
    }

    method Settle(id: string, r: Report) returns (reply: SettleReply)
      modifies this
      ensures (rows, reply) == Settled(old(rows), id, r)
    {
      if Malformed(r) || id !in rows {
        return Rejected;
      }
      var u := rows[id];
      var cost := ReportedCost(u, r);
      if Recovers(r) && u.status == Done(OutUnknown) {
        if r.providerRequestId.None? || u.providerRequestId != r.providerRequestId {
          return IdentityMismatch;
        }
      } else if !InFlight(u) {
        return AlreadySettled;
      }
      u := u.(status := Done(r.outcome), inputTokens := NatOf(r.inputTokens), outputTokens := NatOf(r.outputTokens),
              estimatedCost := Some(cost));
      if r.providerRequestId.Some? {
        u := u.(providerRequestId := r.providerRequestId);
      }
      rows := rows[id := u];
      return SettledNow;
    }

    method MarkExpiredRunningUnknown(now: int) returns (expired: nat)
      modifies this
      ensures rows == GivenUp(old(rows), now)
      ensures expired == |set id | id in old(rows) && Overdue(old(rows)[id], now)|
    {
      var hit := set id | id in rows && Overdue(rows[id], now);
      expired := |hit|;
      rows := map id | id in rows ::
        if id in hit then rows[id].(status := Done(OutUnknown), estimatedCost := Some(rows[id].reservedCost))
        else rows[id];
    }
  }
}
