/** The shared traffic ledger of one rate-limit key: the permit script's sorted sets and hashes.

    Every operation is one atomic script call at a client time `now`; calls come at non-decreasing
    times.  A Redis key with a time to live is kept with the moment it vanishes.
 */
module Permits {
  import opened Options

  datatype PermitState = Acquired | Started | Settled | Expired

  /** A permit hash: `routeId` is missing when the hash was recreated after it had vanished. */
  datatype Permit = Permit(state: PermitState, routeId: Option<string>, gone: real)

  datatype Timed<T> = Timed(value: T, gone: real)

  datatype Ledger = Ledger(
    active: map<string, real>,
    rpm: map<string, real>,
    tpm: map<string, real>,
    amounts: map<string, nat>,
    permits: map<string, Permit>,
    blocked: Option<Timed<real>>,
    failures: map<string, Timed<int>>,
    circuits: map<string, Timed<real>>)

  const EMPTY_LEDGER: Ledger := Ledger(map[], map[], map[], map[], map[], None, map[], map[])

  datatype Reply =
    | Granted | AlreadyThere(state: PermitState) | RouteMismatch | Blocked | CircuitOpen
    | ConcurrencyExceeded | RpmExceeded | TpmExceeded
    | StartedNow | AlreadyStarted | NotStartable(state: PermitState) | Gone
    | SettledNow | AlreadySettled

  /** What one route asks of the script. */
  datatype Quota = Quota(concurrency: int, ttl: real, rpmLimit: int, tpmLimit: int, circuitThreshold: int)

  function Ceil(x: real): int {
    -((-x).Floor)
  }

  function Lookup(l: Ledger, p: string, now: real): Option<Permit> {
    if p in l.permits && now < l.permits[p].gone then Some(l.permits[p]) else None
  }

  function BlockedUntil(l: Ledger, now: real): real {
    if l.blocked.Some? && now < l.blocked.value.gone then l.blocked.value.value else 0.0
  }

  function OpenUntil(l: Ledger, route: string, now: real): real {
    if route in l.circuits && now < l.circuits[route].gone then l.circuits[route].value else 0.0
  }

  predicate Unsent(l: Ledger, p: string, now: real) {
    Lookup(l, p, now).Some? && Lookup(l, p, now).value.state == Acquired
  }

  function Buried(l: Ledger, p: string, now: real): Permit {
    Permit(Expired, if Lookup(l, p, now).Some? then Lookup(l, p, now).value.routeId else None, now + 60.0)
  }

  function PastTtl(l: Ledger, now: real): set<string> {
    set p | p in l.active && l.active[p] <= now
  }

  function UnsentOf(l: Ledger, dead: set<string>, now: real): set<string> {
    set p | p in dead && Unsent(l, p, now)
  }

  function Graves(l: Ledger, dead: set<string>, now: real): map<string, Permit> {
    map p | p in l.permits.Keys + dead :: if p in dead then Buried(l, p, now) else l.permits[p]
  }

  /** Drops the `dead` permits from the active set; one never sent also gives its window rows back. */
  function Bury(l: Ledger, dead: set<string>, now: real): Ledger {
    var unsent := UnsentOf(l, dead, now);
    l.(active := l.active - dead, rpm := l.rpm - unsent, tpm := l.tpm - unsent, amounts := l.amounts - unsent,
       permits := Graves(l, dead, now))
  }

  function Reap(l: Ledger, now: real): Ledger {
    Bury(l, PastTtl(l, now), now)
  }

  function WindowPast(rows: map<string, real>, now: real): set<string> {
    set p | p in rows && rows[p] <= now - 60.0
  }

  /** Drops what left the sixty-second window. */
  function Slide(l: Ledger, now: real): Ledger {
    var stale := WindowPast(l.tpm, now);
    l.(rpm := l.rpm - WindowPast(l.rpm, now), tpm := l.tpm - stale, amounts := l.amounts - stale)
  }

  ghost function Sum(amounts: map<string, nat>, keys: set<string>): nat
    requires keys <= amounts.Keys
  {
    if keys == {} then 0
    else var p :| p in keys; amounts[p] + Sum(amounts, keys - {p})
  }

  ghost function Used(l: Ledger): nat {
    Sum(l.amounts, l.amounts.Keys)
  }

  function Enter(l: Ledger, p: string, route: string, q: Quota, tokens: nat, now: real): Ledger {
    l.(active := l.active[p := now + q.ttl], rpm := l.rpm[p := now], tpm := l.tpm[p := now],
       amounts := l.amounts[p := tokens],
       permits := l.permits[p := Permit(Acquired, Some(route), now + (Ceil(q.ttl) + 60) as real)])
  }

  ghost function Acquire(l: Ledger, p: string, route: string, q: Quota, tokens: nat, now: real): (Ledger, Reply) {
    var existing := Lookup(l, p, now);
    if q.circuitThreshold > 0 && OpenUntil(l, route, now) > now then (l, CircuitOpen)
    else if existing.Some? && existing.value.routeId.Some? then
      (l, if existing.value.routeId.value != route then RouteMismatch else AlreadyThere(existing.value.state))
    else if BlockedUntil(l, now) > now then (l, Blocked)
    else
      var reaped := Reap(l, now);
      if |reaped.active| >= q.concurrency then (reaped, ConcurrencyExceeded)
      else
        var slid := Slide(reaped, now);
        if |slid.rpm| >= q.rpmLimit then (slid, RpmExceeded)
        else if Used(slid) + tokens > q.tpmLimit then (slid, TpmExceeded)
        else (Enter(slid, p, route, q, tokens, now), Granted)
  }

  function Start(l: Ledger, p: string, route: string, now: real): (Ledger, Reply) {
    var reaped := Reap(l, now);
    var found := Lookup(reaped, p, now);
    if found.None? then (reaped, Gone)
    else if found.value.routeId != Some(route) then (reaped, RouteMismatch)
    else
      match found.value.state
      case Acquired =>
        (reaped.(permits := reaped.permits[p := found.value.(state := Started)]), StartedNow)
      case Started => (reaped, AlreadyStarted)
      case _ => (reaped, NotStartable(found.value.state))
  }

  /** The key-wide cooldown after a rate-limit answer. */
  function Cool(l: Ledger, retryAfter: real, now: real): Ledger {
    if retryAfter <= 0.0 then l
    else
      var until := if BlockedUntil(l, now) > now + retryAfter then BlockedUntil(l, now) else now + retryAfter;
      l.(blocked := Some(Timed(until, now + Ceil(until - now) as real)))
  }

  function Settle(l: Ledger, p: string, route: string, retryAfter: real, now: real): (Ledger, Reply) {
    var reaped := Reap(l, now);
    var found := Lookup(reaped, p, now);
    if found.None? then (reaped, AlreadySettled)
    else if found.value.routeId != Some(route) then (reaped, RouteMismatch)
    else if found.value.state == Settled then (reaped, AlreadySettled)
    else
      var closed := reaped.(permits := reaped.permits[p := found.value.(state := Settled)],
                            active := reaped.active - {p});
      (Cool(closed, retryAfter, now), SettledNow)
  }

  function AtLeastOne(n: int): int {
    if n < 1 then 1 else n
  }

  function CircuitFailure(l: Ledger, route: string, threshold: int, openSeconds: real, now: real): Ledger {
    if threshold == 0 then l
    else
      var before := if route in l.failures && now < l.failures[route].gone then l.failures[route].value else 0;
      var gone := now + AtLeastOne(Ceil(openSeconds)) as real;
      var failed := l.(failures := l.failures[route := Timed(before + 1, gone)]);
      if before + 1 >= threshold then failed.(circuits := l.circuits[route := Timed(now + openSeconds, gone)])
      else failed
  }

  function CircuitSuccess(l: Ledger, route: string): Ledger {
    l.(failures := l.failures - {route}, circuits := l.circuits - {route})
  }

  // ----- Histories -----

  datatype Op =
    | AcquireOp(permit: string, route: string, quota: Quota, tokens: nat)
    | StartOp(permit: string, route: string)
    | SettleOp(permit: string, route: string, retryAfter: real)
    | FailureOp(route: string, threshold: int, openSeconds: real)
    | SuccessOp(route: string)

  datatype Call = Call(op: Op, now: real)

  /** What was promised when a permit was granted; `serial` counts the grants. */
  datatype Grant = Grant(serial: nat, at: real, tokens: nat, expires: real, quota: Quota)

  /** The ledger with everything that ever happened to it. */
  datatype History = History(ledger: Ledger, now: real, grants: map<string, Grant>, started: map<string, real>)

  const EMPTY_HISTORY: History := History(EMPTY_LEDGER, 0.0, map[], map[])

  ghost function Answer(l: Ledger, c: Call): (Ledger, Reply) {
    match c.op
    case AcquireOp(p, route, q, tokens) => Acquire(l, p, route, q, tokens, c.now)
    case StartOp(p, route) => Start(l, p, route, c.now)
    case SettleOp(p, route, retryAfter) => Settle(l, p, route, retryAfter, c.now)
    case FailureOp(route, threshold, secs) => (CircuitFailure(l, route, threshold, secs, c.now), Gone)
    case SuccessOp(route) => (CircuitSuccess(l, route), Gone)
  }

  ghost function After(h: History, c: Call): History {
    var (ledger, reply) := Answer(h.ledger, c);
    var grants := if c.op.AcquireOp? && reply == Granted then
                    h.grants[c.op.permit := Grant(|h.grants|, c.now, c.op.tokens, c.now + c.op.quota.ttl, c.op.quota)]
                  else h.grants;
    var started := if c.op.StartOp? && reply == StartedNow then h.started[c.op.permit := c.now] else h.started;
    History(ledger, c.now, grants, started)
  }

  /** Time does not go back, and every acquisition brings an id never used before. */
  predicate Allowed(h: History, c: Call) {
    && h.now <= c.now
    && (c.op.AcquireOp? ==> c.op.permit !in h.ledger.permits && c.op.permit !in h.grants)
  }

  ghost predicate AllowedAll(h: History, calls: seq<Call>)
    decreases |calls|
  {
    calls == [] || (Allowed(h, calls[0]) && AllowedAll(After(h, calls[0]), calls[1..]))
  }

  ghost function Replay(h: History, calls: seq<Call>): History
    decreases |calls|
  {
    if calls == [] then h else Replay(After(h, calls[0]), calls[1..])
  }

  // ----- What every call keeps -----

  /** The three window tables hold the same permits, and their rows are grants, as granted. */
  ghost predicate WindowSound(rpm: map<string, real>, tpm: map<string, real>, amounts: map<string, nat>,
                              grants: map<string, Grant>) {
    && rpm == tpm
    && rpm.Keys == amounts.Keys
    && forall p :: p in rpm ==> p in grants && rpm[p] == grants[p].at && amounts[p] == grants[p].tokens
  }

  /** A permit that was not started and never will be. */
  predicate Dead(h: History, p: string) {
    p !in h.started && p in h.ledger.permits && h.ledger.permits[p].state != Acquired
  }

  /** A grant leaves the window by age, or by dying unsent. */
  ghost predicate GrantsAccounted(h: History) {
    forall p :: p in h.grants ==> p in h.ledger.rpm || h.grants[p].at <= h.now - 60.0 || Dead(h, p)
  }

  /** A permit still sendable or sent is in the active set until its time to live. */
  ghost predicate ActiveIsLive(active: map<string, real>, permits: map<string, Permit>,
                               grants: map<string, Grant>, started: map<string, real>) {
    && (forall p :: p in active ==> p in grants && active[p] == grants[p].expires)
    && (forall p :: p in permits && (permits[p].state == Acquired || permits[p].state == Started) ==> p in active)
    && (forall p :: p in grants ==> p in permits)
    && (forall p :: p in started ==> p in grants && started[p] < grants[p].expires && permits[p].state != Acquired)
  }

  ghost predicate GrantsOrdered(grants: map<string, Grant>, now: real) {
    && (forall p :: p in grants ==>
          grants[p].serial < |grants| && grants[p].at <= now && grants[p].expires == grants[p].at + grants[p].quota.ttl)
    && (forall p, r {:trigger grants[p], grants[r]} :: p in grants && r in grants ==>
          (grants[p].serial <= grants[r].serial ==> grants[p].at <= grants[r].at)
          && (grants[p].serial == grants[r].serial ==> p == r))
  }

  /** The grants not later than `p`, within the minute before it, that did not die unsent. */
  ghost function Companions(h: History, p: string): set<string>
    requires p in h.grants
  {
    set r | r in h.grants && h.grants[r].serial <= h.grants[p].serial && h.grants[r].at > h.grants[p].at - 60.0
            && !Dead(h, r)
  }

  ghost function TokensOf(h: History): map<string, nat> {
    map p | p in h.grants :: h.grants[p].tokens
  }

  ghost predicate WithinQuota(h: History, p: string)
    requires p in h.grants
  {
    && |Companions(h, p)| <= h.grants[p].quota.rpmLimit
    && Sum(TokensOf(h), Companions(h, p)) <= h.grants[p].quota.tpmLimit
  }

  ghost predicate QuotasHeld(h: History) {
    forall p :: p in h.grants ==> WithinQuota(h, p)
  }

  /** A cooldown is not forgotten before it is over. */
  predicate CooldownSound(blocked: Option<Timed<real>>) {
    blocked.Some? ==> blocked.value.value <= blocked.value.gone
  }

  ghost predicate Inv(h: History) {
    && WindowSound(h.ledger.rpm, h.ledger.tpm, h.ledger.amounts, h.grants)
    && GrantsAccounted(h)
    && ActiveIsLive(h.ledger.active, h.ledger.permits, h.grants, h.started)
    && GrantsOrdered(h.grants, h.now)
    && QuotasHeld(h)
    && CooldownSound(h.ledger.blocked)
  }
}
