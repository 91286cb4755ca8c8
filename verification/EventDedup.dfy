/** Restart-safe event deduplication in one channel scope: processing leases, completed markers, owners. */
module EventDedup {
  import opened Base

  type EventId = string
  type Token = string
  type Task = nat

  datatype Lease = Lease(owner: Token, expires: int)

  datatype Config = Config(lease: int, ttl: int, maxEntries: nat)

  /** The two tables, and each task's own record of the tokens it holds. */
  datatype Db = Db(processing: map<EventId, Lease>, completed: map<EventId, int>, owned: map<Task, map<EventId, Lease>>)

  const EMPTY: Db := Db(map[], map[], map[])

  datatype Op =
    | Claim(task: Task, event: EventId, token: Token, now: int)
    | Complete(task: Task, event: EventId, now: int)
    | Release(task: Task, event: EventId)
    | Purge(now: int)
    | TaskGone(task: Task)

  datatype Reply = Claimed | Duplicate | AtCapacity | Done | OwnershipExpired | Purged(rows: nat)

  datatype Outcome = Outcome(db: Db, reply: Reply)

  function LiveLeases(m: map<EventId, Lease>, now: int): map<EventId, Lease> {
    map e | e in m && m[e].expires > now :: m[e]
  }

  function LiveMarks(m: map<EventId, int>, now: int): map<EventId, int> {
    map e | e in m && m[e] > now :: m[e]
  }

  function Held(owned: map<Task, map<EventId, Lease>>, task: Task): map<EventId, Lease> {
    if task in owned then owned[task] else map[]
  }

  /** How many rows have run out. */
  function Expired(db: Db, now: int): nat {
    |set e | e in db.completed && db.completed[e] <= now| +
        |set e | e in db.processing && db.processing[e].expires <= now|
  }

  /** An error rolls the transaction back, so it leaves the tables as they were. */
  function DoClaim(c: Config, db: Db, op: Op): Outcome
    requires op.Claim?
  {
    var marks, leases := LiveMarks(db.completed, op.now), LiveLeases(db.processing, op.now);
    if op.event in marks || op.event in leases then Outcome(db.(processing := leases, completed := marks), Duplicate)
    else if |marks| + |leases| >= c.maxEntries then Outcome(db, AtCapacity)
    else
      var row := Lease(op.token, op.now + c.lease);
      Outcome(Db(leases[op.event := row], marks,
                 db.owned[op.task := LiveLeases(Held(db.owned, op.task), op.now)[op.event := row]]),
              Claimed)
  }

  function DoComplete(c: Config, db: Db, op: Op): Outcome
    requires op.Complete?
  {
    var held := Held(db.owned, op.task);
    if op.event !in held then Outcome(db, OwnershipExpired)
    else if op.event !in db.processing || db.processing[op.event].owner != held[op.event].owner
            || db.processing[op.event].expires <= op.now || op.event in db.completed then Outcome(db, OwnershipExpired)
    else Outcome(Db(db.processing - {op.event}, db.completed[op.event := op.now + c.ttl],
                    db.owned[op.task := held - {op.event}]),
                 Done)
  }

  function DoRelease(db: Db, op: Op): Outcome
    requires op.Release?
  {
    var held := Held(db.owned, op.task);
    if op.event !in held then Outcome(db, Done)
    else
      var mine := op.event in db.processing && db.processing[op.event].owner == held[op.event].owner;
      Outcome(db.(processing := if mine then db.processing - {op.event} else db.processing,
                  owned := db.owned[op.task := held - {op.event}]),
              Done)
  }

  function Step(c: Config, db: Db, op: Op): Outcome {
    match op
    case Claim(_, _, _, _) => DoClaim(c, db, op)
    case Complete(_, _, _) => DoComplete(c, db, op)
    case Release(_, _) => DoRelease(db, op)
    case Purge(now) =>
      var marks, leases := LiveMarks(db.completed, now), LiveLeases(db.processing, now);
      Outcome(db.(processing := leases, completed := marks),
              Purged(Expired(db, now)))
    case TaskGone(task) => Outcome(db.(owned := db.owned - {task}), Done)
  }

  function Run(c: Config, db: Db, ops: seq<Op>): Db
    decreases |ops|
  {
    if ops == [] then db else Run(c, Step(c, db, ops[0]).db, ops[1..])
  }

  // ----- Capacity and single rows -----

  /** An event has at most one row across the two tables, and the rows stay within the cap. */
  ghost predicate Inv(c: Config, db: Db) {
    db.processing.Keys !! db.completed.Keys && |db.processing| + |db.completed| <= c.maxEntries
  }

  lemma {:induction false} LiveSizes(leases: map<EventId, Lease>, marks: map<EventId, int>, now: int)
    ensures |LiveLeases(leases, now)| <= |leases| && |LiveMarks(marks, now)| <= |marks|
  {
    SubsetSize(LiveLeases(leases, now).Keys, leases.Keys);
    SubsetSize(LiveMarks(marks, now).Keys, marks.Keys);
  }

  lemma {:induction false} SubsetSize(a: set<EventId>, b: set<EventId>)
    requires a <= b
    ensures |a| <= |b|
  {
    assert b == a + (b - a);
  }

  lemma {:induction false} MapSizes<V>(m: map<EventId, V>, e: EventId, v: V)
    ensures e !in m ==> |m[e := v]| == |m| + 1
    ensures e in m ==> |m - {e}| == |m| - 1
  {
    if e !in m {
      assert m[e := v].Keys == m.Keys + {e};
    } else {
      assert (m - {e}).Keys == m.Keys - {e};
      assert |m.Keys - {e}| == |m.Keys| - 1;
    }
  }

  lemma {:induction false} ClaimKeeps(c: Config, db: Db, op: Op)
    requires Inv(c, db) && op.Claim?
    ensures Inv(c, DoClaim(c, db, op).db)
  {
    var leases, marks := LiveLeases(db.processing, op.now), LiveMarks(db.completed, op.now);
    LiveSizes(db.processing, db.completed, op.now);
    MapSizes(leases, op.event, Lease(op.token, op.now + c.lease));
    assert leases.Keys <= db.processing.Keys && marks.Keys <= db.completed.Keys;
  }

  lemma {:induction false} CompleteKeeps(c: Config, db: Db, op: Op)
    requires Inv(c, db) && op.Complete?
    ensures Inv(c, DoComplete(c, db, op).db)
  {
    var e := op.event;
    if DoComplete(c, db, op).reply == Done {
      MapSizes(db.processing, e, db.processing[e]);
      MapSizes(db.completed, e, op.now + c.ttl);
    }
  }

  lemma {:induction false} ReleaseKeeps(c: Config, db: Db, op: Op)
    requires Inv(c, db) && op.Release?
    ensures Inv(c, DoRelease(db, op).db)
  {
    if op.event in db.processing { MapSizes(db.processing, op.event, db.processing[op.event]); }
  }

  lemma {:induction false} StepKeeps(c: Config, db: Db, op: Op)
    requires Inv(c, db)
    ensures Inv(c, Step(c, db, op).db)
  {
    match op
    case Claim(_, _, _, _) => ClaimKeeps(c, db, op);
    case Complete(_, _, _) => CompleteKeeps(c, db, op);
    case Release(_, _) => ReleaseKeeps(c, db, op);
    case Purge(now) => LiveSizes(db.processing, db.completed, now);
    case TaskGone(_) =>
  }

  lemma {:induction false} RunKeeps(c: Config, db: Db, ops: seq<Op>)
    requires Inv(c, db)
    ensures Inv(c, Run(c, db, ops))
    decreases |ops|
  {
    if ops != [] {
      StepKeeps(c, db, ops[0]);
      RunKeeps(c, Step(c, db, ops[0]).db, ops[1..]);
    }
  }

  /** Purging accounts for every row: it is kept, or it had expired and is counted. */
  lemma {:induction false} PurgeCounts(c: Config, db: Db, now: int)
    ensures var o := Step(c, db, Purge(now));
            |o.db.processing| + |o.db.completed| + o.reply.rows == |db.processing| + |db.completed|
  {
    var marks, leases := LiveMarks(db.completed, now), LiveLeases(db.processing, now);
    var m := set e | e in db.completed && db.completed[e] <= now;
    var l := set e | e in db.processing && db.processing[e].expires <= now;
    assert db.completed.Keys == marks.Keys + m;
    assert db.processing.Keys == leases.Keys + l;
  }

  // ----- No event is claimed again while it is retained -----

  function Time(op: Op): Option<int> {
    match op
    case Claim(_, _, _, now) => Some(now)
    case Complete(_, _, now) => Some(now)
    case Purge(now) => Some(now)
    case _ => None
  }

  /** Every clock reading of the run is earlier than t. */
  predicate Before(ops: seq<Op>, t: int) {
    forall i :: 0 <= i < |ops| ==> (Time(ops[i]).Some? ==> Time(ops[i]).value < t)
  }

  ghost predicate NeverClaims(c: Config, db: Db, ops: seq<Op>, e: EventId)
    decreases |ops|
  {
    ops == [] ||
    (&& (ops[0].Claim? && ops[0].event == e ==> Step(c, db, ops[0]).reply == Duplicate)
     && NeverClaims(c, Step(c, db, ops[0]).db, ops[1..], e))
  }

  /** A completed event stays marked, and every claim of it is refused, until its retention expires. */
  lemma {:induction false} RetainedIsNeverClaimed(c: Config, db: Db, ops: seq<Op>, e: EventId, until: int)
    requires e in db.completed && db.completed[e] >= until && Before(ops, until)
    ensures NeverClaims(c, db, ops, e)
    ensures e in Run(c, db, ops).completed && Run(c, db, ops).completed[e] >= until
    decreases |ops|
  {
    if ops != [] {
      assert Time(ops[0]).Some? ==> Time(ops[0]).value < until;
      assert forall i :: 0 <= i < |ops[1..]| ==> ops[1..][i] == ops[i + 1];
      RetainedIsNeverClaimed(c, Step(c, db, ops[0]).db, ops[1..], e, until);
    }
  }

  /** In particular after a completion at `now`, for the whole retention time. */
  lemma {:induction false} CompletedIsRetained(c: Config, db: Db, op: Op, ops: seq<Op>)
    requires op.Complete? && Step(c, db, op).reply == Done && Before(ops, op.now + c.ttl)
    ensures NeverClaims(c, Step(c, db, op).db, ops, op.event)
  {
    RetainedIsNeverClaimed(c, Step(c, db, op).db, ops, op.event, op.now + c.ttl);
  }

  // ----- A lease is exclusive while it lasts -----

  /** The run does not give the event up on behalf of this token's holders. */
  ghost predicate KeepsLease(c: Config, db: Db, ops: seq<Op>, e: EventId, token: Token)
    decreases |ops|
  {
    ops == [] ||
    (Keeps(db, ops[0], e, token) && KeepsLease(c, Step(c, db, ops[0]).db, ops[1..], e, token))
  }

  /** The operation does not give the event up on behalf of the token's holder. */
  predicate Keeps(db: Db, op: Op, e: EventId, token: Token) {
    op.Complete? || op.Release? ==>
      !(op.event == e && e in Held(db.owned, op.task) && Held(db.owned, op.task)[e].owner == token)
  }

  lemma {:induction false} LeaseSurvives(c: Config, db: Db, op: Op, e: EventId, token: Token, until: int)
    requires e in db.processing && db.processing[e] == Lease(token, until)
    requires (Time(op).Some? ==> Time(op).value < until) && Keeps(db, op, e, token)
    ensures var o := Step(c, db, op);
            && e in o.db.processing && o.db.processing[e] == Lease(token, until)
            && (op.Claim? && op.event == e ==> o.reply == Duplicate)
  {
    match op
    case Claim(_, _, _, now) => assert e in LiveLeases(db.processing, now);
    case Complete(_, _, _) =>
    case Release(_, _) =>
    case Purge(now) => assert e in LiveLeases(db.processing, now);
    case TaskGone(_) =>
  }

  lemma {:induction false} LeaseIsExclusive(c: Config, db: Db, ops: seq<Op>, e: EventId, token: Token, until: int)
    requires e in db.processing && db.processing[e] == Lease(token, until) && Before(ops, until)
    requires KeepsLease(c, db, ops, e, token)
    ensures NeverClaims(c, db, ops, e)
    ensures e in Run(c, db, ops).processing && Run(c, db, ops).processing[e] == Lease(token, until)
    decreases |ops|
  {
    if ops != [] {
      assert Time(ops[0]).Some? ==> Time(ops[0]).value < until;
      assert forall i :: 0 <= i < |ops[1..]| ==> ops[1..][i] == ops[i + 1];
      LeaseSurvives(c, db, ops[0], e, token, until);
      LeaseIsExclusive(c, Step(c, db, ops[0]).db, ops[1..], e, token, until);
    }
  }

  // ----- Stale owners -----

  function Tokens(op: Op): set<Token> { if op.Claim? then {op.token} else {} }

  /** Owner tokens are random: each claim brings one that was never used. */
  ghost predicate Fresh(used: set<Token>, ops: seq<Op>)
    decreases |ops|
  {
    ops == [] || (Tokens(ops[0]) !! used && Fresh(used + Tokens(ops[0]), ops[1..]))
  }

  ghost predicate Lost(db: Db, e: EventId, token: Token) {
    e in db.processing ==> db.processing[e].owner != token
  }

  /** Once a lease is lost it never comes back: in every later state the old owner can neither complete
      nor release whoever holds the event then. */
  lemma {:induction false} StaleOwnerIsPowerless(c: Config, db: Db, used: set<Token>, ops: seq<Op>, e: EventId,
                                                 token: Token,
                                                 task: Task, now: int)
    requires Lost(db, e, token) && token in used && Fresh(used, ops)
    ensures var after := Run(c, db, ops);
            && Lost(after, e, token)
            && (e in Held(after.owned, task) && Held(after.owned, task)[e].owner == token ==>
                  && Step(c, after, Complete(task, e, now)) == Outcome(after, OwnershipExpired)
                  && Step(c, after, Release(task, e)).db.processing == after.processing
                  && Step(c, after, Release(task, e)).db.completed == after.completed)
    decreases |ops|
  {
    if ops != [] {
      LostStays(c, db, ops[0], e, token);
      StaleOwnerIsPowerless(c, Step(c, db, ops[0]).db, used + Tokens(ops[0]), ops[1..], e, token, task, now);
    }
  }

  lemma {:induction false} LostStays(c: Config, db: Db, op: Op, e: EventId, token: Token)
    requires Lost(db, e, token) && token !in Tokens(op)
    ensures Lost(Step(c, db, op).db, e, token)
  {
    match op
    case Claim(_, _, _, _) =>
    case Complete(_, _, _) =>
    case Release(_, _) =>
    case Purge(_) =>
    case TaskGone(_) =>
  }

  /** A claim that succeeds on an event someone held before makes that holder stale. */
  lemma {:induction false} NewClaimMakesStale(c: Config, db: Db, op: Op, used: set<Token>, token: Token)
    requires op.Claim? && Step(c, db, op).reply == Claimed && token in used && op.token !in used
    ensures Lost(Step(c, db, op).db, op.event, token)
  {
  }

  // ----- The deduplicator -----

  class Deduplicator {
    const config: Config
    var processing: map<EventId, Lease>
    var completed: map<EventId, int>
    var owned: map<Task, map<EventId, Lease>>

    function Model(): Db
      reads this
    {
      Db(processing, completed, owned)
    }

    constructor (c: Config)
      ensures config == c && Model() == EMPTY && Inv(config, Model())
    {
      config := c;
      processing, completed, owned := map[], map[], map[];
    }

    method ClaimEvent(task: Task, event: EventId, token: Token, now: int) returns (reply: Reply)
      modifies this
      ensures Outcome(Model(), reply) == Step(config, old(Model()), Claim(task, event, token, now))
      ensures reply.Claimed? ==> event !in completed && event in processing && processing[event].owner == token
    {
      var marks := LiveMarks(completed, now);
      var leases := LiveLeases(processing, now);
      if event in marks || event in leases {
        completed, processing := marks, leases;
        return Duplicate;
      }
      if |marks| + |leases| >= config.maxEntries { return AtCapacity; }
      var row := Lease(token, now + config.lease);
      completed, processing := marks, leases[event := row];
      var mine := LiveLeases(Held(owned, task), now);
      owned := owned[task := mine[event := row]];
      return Claimed;
    }

    /** In reachable states the marker cannot already exist, so its insertion never violates the key. */
    method CompleteEvent(task: Task, event: EventId, now: int) returns (reply: Reply)
      requires processing.Keys !! completed.Keys
      modifies this
      ensures Outcome(Model(), reply) == DoComplete(config, old(Model()), Complete(task, event, now))
      ensures reply.Done? ==> event in completed && event !in processing
    {
      var held := Held(owned, task);
      if event !in held { return OwnershipExpired; }
      if !(event in processing && processing[event].owner == held[event].owner && processing[event].expires > now) {
        return OwnershipExpired;
      }
      processing := processing - {event};
      completed := completed[event := now + config.ttl];
      owned := owned[task := held - {event}];
      return Done;
    }

    method ReleaseEvent(task: Task, event: EventId) returns (reply: Reply)
      modifies this
      ensures Outcome(Model(), reply) == Step(config, old(Model()), Release(task, event))
      ensures completed == old(completed)
    {
      var held := Held(owned, task);
      if event !in held { return Done; }
      owned := owned[task := held - {event}];
      if event in processing && processing[event].owner == held[event].owner {
        processing := processing - {event};
      }
      return Done;
    }

    method PurgeExpired(now: int) returns (reply: Reply)
      modifies this
      ensures Outcome(Model(), reply) == Step(config, old(Model()), Purge(now))
      ensures |processing| + |completed| + reply.rows == old(|processing| + |completed|)
    {
      PurgeCounts(config, Model(), now);
      reply := Purged(Expired(Model(), now));
      completed := LiveMarks(completed, now);
      processing := LiveLeases(processing, now);
    }
  }

  // ----- What each operation does, on the rows -----

  ghost predicate Unexpired(db: Db, e: EventId, now: int) {
    (e in db.completed && db.completed[e] > now) || (e in db.processing && db.processing[e].expires > now)
  }

  /** Expired rows are gone and all others are as they were, but for this event. */
  ghost predicate PurgedBut(db: Db, now: int, e: EventId, db': Db) {
    && (forall x :: x != e ==> (x in db'.completed <==> x in db.completed && db.completed[x] > now))
    && (forall x :: x != e && x in db'.completed ==> db'.completed[x] == db.completed[x])
    && (forall x :: x != e ==> (x in db'.processing <==> x in db.processing && db.processing[x].expires > now))
    && (forall x :: x != e && x in db'.processing ==> db'.processing[x] == db.processing[x])
  }

  ghost function UnexpiredRows(db: Db, now: int): nat {
    |set e | e in db.completed && db.completed[e] > now|
    + |set e | e in db.processing && db.processing[e].expires > now|
  }

  lemma {:induction false} LiveRows(db: Db, now: int)
    ensures |LiveMarks(db.completed, now)| + |LiveLeases(db.processing, now)| == UnexpiredRows(db, now)
  {
    assert LiveMarks(db.completed, now).Keys == set e | e in db.completed && db.completed[e] > now;
    assert LiveLeases(db.processing, now).Keys == set e | e in db.processing && db.processing[e].expires > now;
  }

  /** A claim is a duplicate exactly while a row of the event is unexpired, and succeeds exactly when it
      is none and there is room. A full table changes nothing; otherwise expired rows go, and a
      successful claim leaves its own lease. */
  lemma {:induction false} ClaimsExactly(c: Config, db: Db, task: Task, e: EventId, token: Token, now: int)
    ensures var o := Step(c, db, Claim(task, e, token, now));
            && (o.reply == Duplicate <==> Unexpired(db, e, now))
            && (o.reply == Claimed <==> !Unexpired(db, e, now) && UnexpiredRows(db, now) < c.maxEntries)
            && (o.reply in {Duplicate, Claimed} || (o.reply == AtCapacity && o.db == db))
            && (o.reply != AtCapacity ==> PurgedBut(db, now, e, o.db))
            && (o.reply == Claimed ==>
                  && e !in o.db.completed && e in o.db.processing
                  && o.db.processing[e] == Lease(token, now + c.lease)
                  && task in o.db.owned && e in o.db.owned[task] && o.db.owned[task][e] == o.db.processing[e])
            && (o.reply == Duplicate ==>
                  && (e in o.db.completed <==> e in db.completed && db.completed[e] > now)
                  && (e in o.db.processing <==> e in db.processing && db.processing[e].expires > now)
                  && o.db.owned == db.owned)
  {
    LiveRows(db, now);
  }

  /** The task holds the lease that is stored for the event. */
  ghost predicate HoldsRow(db: Db, task: Task, e: EventId) {
    && task in db.owned && e in db.owned[task] && e in db.processing
    && db.processing[e].owner == db.owned[task][e].owner
  }

  lemma {:induction false} CompletesHeld(c: Config, db: Db, task: Task, e: EventId, now: int)
    requires e !in db.completed && HoldsRow(db, task, e) && now < db.processing[e].expires
    ensures var o := Step(c, db, Complete(task, e, now));
            && o.reply == Done && o.db.processing == db.processing - {e}
            && o.db.completed == db.completed[e := now + c.ttl]
            && o.db.owned == db.owned[task := db.owned[task] - {e}]
  {
  }

  lemma {:induction false} CompletesNothing(c: Config, db: Db, task: Task, e: EventId, now: int)
    requires !HoldsRow(db, task, e) || db.processing[e].expires <= now
    ensures Step(c, db, Complete(task, e, now)) == Outcome(db, OwnershipExpired)
  {
  }

  /** Completing succeeds exactly for the holder of an unexpired lease, turns the lease into a marker for
      the retention time, and otherwise changes nothing. */
  lemma {:induction false} CompletesExactly(c: Config, db: Db, task: Task, e: EventId, now: int)
    requires Inv(c, db)
    ensures var o := Step(c, db, Complete(task, e, now));
            if HoldsRow(db, task, e) && now < db.processing[e].expires then
              && o.reply == Done && o.db.processing == db.processing - {e}
              && o.db.completed == db.completed[e := now + c.ttl]
              && o.db.owned == db.owned[task := db.owned[task] - {e}]
            else o == Outcome(db, OwnershipExpired)
  {
    if HoldsRow(db, task, e) && now < db.processing[e].expires {
      CompletesHeld(c, db, task, e, now);
    } else {
      CompletesNothing(c, db, task, e, now);
    }
  }

  /** Releasing deletes the row exactly when the task still holds it, and forgets the task's claim. */
  lemma {:induction false} ReleasesExactly(c: Config, db: Db, task: Task, e: EventId)
    ensures var o := Step(c, db, Release(task, e));
            && o.reply == Done && o.db.completed == db.completed
            && o.db.processing == (if HoldsRow(db, task, e) then db.processing - {e} else db.processing)
            && (task in o.db.owned ==> e !in o.db.owned[task])
  {
  }
}
