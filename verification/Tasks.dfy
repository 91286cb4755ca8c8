/** Durable child tasks: the task table, the parent fences, and what holds over every run. */
module Tasks {
  import opened Base

  type Id = string

  datatype Status = Queued | Running | Succeeded | Failed | Cancelled | TimedOut

  predicate Terminal(s: Status) { s.Succeeded? || s.Failed? || s.Cancelled? || s.TimedOut? }

  /** The authenticated owner together with the parent run. */
  datatype Parent = Parent(tenant: string, product: string, principal: string, run: Id)

  datatype Record = Record(
    id: Id, parent: Parent, call: Id, role: string, digest: string, childRun: Id, status: Status,
    startedAt: Option<int>, finishedAt: Option<int>, result: Option<string>, failure: Option<string>)

  datatype Db = Db(tasks: map<Id, Record>, fences: set<Parent>)

  const EMPTY: Db := Db(map[], {})

  predicate CanMove(from: Status, to: Status) {
    match from
    case Queued => to.Running? || to.Failed? || to.Cancelled? || to.TimedOut?
    case Running => Terminal(to)
    case _ => false
  }

  datatype Op =
    | Create(parent: Parent, call: Id, role: string, digest: string, freshId: Id, freshRun: Id)
    | Transition(parent: Parent, id: Id, expected: Status, target: Status, result: Option<string>,
        failure: Option<string>, now: int)
    | CancelChildren(parent: Parent, now: int)
    | Recover(now: int)

  datatype Reply = Found(record: Record) | NotChanged | Conflict | ParentCancelled | BadRequest | Changed(count: nat)

  datatype Outcome = Outcome(db: Db, reply: Reply)

  predicate SameCall(r: Record, parent: Parent, call: Id) { r.parent == parent && r.call == call }

  /** The task that this call of the parent already made, if any. */
  ghost function Prior(tasks: map<Id, Record>, parent: Parent, call: Id): Option<Id> {
    if exists id :: id in tasks && SameCall(tasks[id], parent, call) then
      var id :| id in tasks && SameCall(tasks[id], parent, call);
      Some(id)
    else None
  }

  function Moved(r: Record, target: Status, result: Option<string>, failure: Option<string>, now: int): Record {
    r.(status := target,
       startedAt := if target.Running? then Some(now) else r.startedAt,
       finishedAt := if Terminal(target) then Some(now) else r.finishedAt,
       result := result, failure := failure)
  }

  function Closed(r: Record, status: Status, failure: Option<string>, now: int): Record {
    r.(status := status, finishedAt := Some(now), failure := failure)
  }

  function Unfinished(db: Db, parent: Option<Parent>): set<Id> {
    set id | id in db.tasks && !Terminal(db.tasks[id].status) && (parent.Some? ==> db.tasks[id].parent == parent.value)
  }

  /** The database primary and unique keys: one row per id, one per call of a parent, one per child run. */
  ghost predicate Keyed(tasks: map<Id, Record>) {
    && (forall id :: id in tasks ==> tasks[id].id == id)
    && (forall a, b :: a in tasks && b in tasks && SameCall(tasks[a], tasks[b].parent, tasks[b].call) ==> a == b)
    && (forall a, b :: a in tasks && b in tasks && tasks[a].childRun == tasks[b].childRun ==> a == b)
  }

  ghost function Step(db: Db, op: Op): Outcome {
    match op
    case Create(parent, call, role, digest, freshId, freshRun) =>
      var prior := Prior(db.tasks, parent, call);
      if prior.Some? then
        var r := db.tasks[prior.value];
        if r.role != role || r.digest != digest then Outcome(db, Conflict) else Outcome(db, Found(r))
      else if parent in db.fences then Outcome(db, ParentCancelled)
      else
        var r := Record(freshId, parent, call, role, digest, freshRun, Queued, None, None, None, None);
        Outcome(db.(tasks := db.tasks[freshId := r]), Found(r))
    case Transition(parent, id, expected, target, result, failure, now) =>
      if !CanMove(expected, target) then Outcome(db, NotChanged)
      else if result.Some? && !target.Succeeded? then Outcome(db, BadRequest)
      else if failure.Some? && !target.Failed? && !target.TimedOut? then Outcome(db, BadRequest)
      else if id !in db.tasks || db.tasks[id].parent != parent || db.tasks[id].status != expected then
          Outcome(db, NotChanged)
      else
        var r := Moved(db.tasks[id], target, result, failure, now);
        Outcome(db.(tasks := db.tasks[id := r]), Found(r))
    case CancelChildren(parent, now) =>
      var hit := Unfinished(db, Some(parent));
      Outcome(Db(map id | id in db.tasks :: if id in hit then
        Closed(db.tasks[id], Cancelled, db.tasks[id].failure, now) else db.tasks[id],
                 db.fences + {parent}),
              Changed(|hit|))
    case Recover(now) =>
      var hit := Unfinished(db, None);
      Outcome(db.(tasks := map id | id in db.tasks ::
                             if id in hit then Closed(db.tasks[id], Failed, Some("interrupted by service restart"), now)
                             else db.tasks[id]),
              Changed(|hit|))
  }

  ghost function Run(db: Db, ops: seq<Op>): Db
    decreases |ops|
  {
    if ops == [] then db else Run(Step(db, ops[0]).db, ops[1..])
  }

  // ----- The invariant -----

  /** One row: times and texts agree with the status, and a fenced parent has no open child. */
  predicate RowOk(r: Record, fences: set<Parent>) {
    && (r.parent in fences ==> Terminal(r.status))
    && (r.result.Some? ==> r.status.Succeeded?)
    && (r.failure.Some? ==> r.status.Failed? || r.status.TimedOut?)
    && (r.finishedAt.Some? <==> Terminal(r.status))
    && (r.status.Queued? ==> r.startedAt.None?)
    && (r.status.Running? || r.status.Succeeded? ==> r.startedAt.Some?)
  }

  ghost predicate Inv(db: Db) {
    Keyed(db.tasks) && forall id :: id in db.tasks ==> RowOk(db.tasks[id], db.fences)
  }

  /** Generated identifiers are unused. */
  predicate FreshFor(db: Db, op: Op) {
    op.Create? ==> op.freshId !in db.tasks && forall id :: id in db.tasks ==> db.tasks[id].childRun != op.freshRun
  }

  ghost predicate Fresh(db: Db, ops: seq<Op>)
    decreases |ops|
  {
    ops == [] || (FreshFor(db, ops[0]) && Fresh(Step(db, ops[0]).db, ops[1..]))
  }

  /** Rows that keep their identity keep the keys. */
  lemma {:induction false} KeyedUpdate(before: map<Id, Record>, after: map<Id, Record>)
    requires Keyed(before) && after.Keys == before.Keys
    requires forall id :: id in before ==>
               after[id].id == id && after[id].parent == before[id].parent && after[id].call == before[id].call
               && after[id].childRun == before[id].childRun
    ensures Keyed(after)
  {
  }

  lemma {:induction false} KeyedAdd(tasks: map<Id, Record>, r: Record)
    requires Keyed(tasks) && r.id !in tasks
    requires forall id :: id in tasks ==> !SameCall(tasks[id], r.parent, r.call) && tasks[id].childRun != r.childRun
    ensures Keyed(tasks[r.id := r])
  {
  }

  lemma {:induction false} CreateKeeps(db: Db, op: Op)
    requires Inv(db) && FreshFor(db, op) && op.Create?
    ensures Inv(Step(db, op).db)
  {
    if Prior(db.tasks, op.parent, op.call).None? && op.parent !in db.fences {
      var r := Record(op.freshId, op.parent, op.call, op.role, op.digest, op.freshRun, Queued, None, None, None, None);
      KeyedAdd(db.tasks, r);
    }
  }

  lemma {:induction false} MoveKeeps(db: Db, op: Op)
    requires Inv(db) && op.Transition?
    ensures Inv(Step(db, op).db)
  {
    var after := Step(db, op).db.tasks;
    if after != db.tasks {
      var r := db.tasks[op.id];
      assert RowOk(r, db.fences) && RowOk(after[op.id], db.fences);
      KeyedUpdate(db.tasks, after);
    }
  }

  lemma {:induction false} CancelKeeps(db: Db, op: Op)
    requires Inv(db) && op.CancelChildren?
    ensures Inv(Step(db, op).db)
  {
    var after := Step(db, op).db;
    KeyedUpdate(db.tasks, after.tasks);
    forall id | id in after.tasks ensures RowOk(after.tasks[id],
        after.fences) { assert RowOk(db.tasks[id], db.fences); }
  }

  lemma {:induction false} RecoverKeeps(db: Db, op: Op)
    requires Inv(db) && op.Recover?
    ensures Inv(Step(db, op).db)
  {
    var after := Step(db, op).db;
    KeyedUpdate(db.tasks, after.tasks);
    forall id | id in after.tasks ensures RowOk(after.tasks[id],
        after.fences) { assert RowOk(db.tasks[id], db.fences); }
  }

  lemma {:induction false} StepKeeps(db: Db, op: Op)
    requires Inv(db) && FreshFor(db, op)
    ensures Inv(Step(db, op).db)
  {
    match op
    case Create(_, _, _, _, _, _) => CreateKeeps(db, op);
    case Transition(_, _, _, _, _, _, _) => MoveKeeps(db, op);
    case CancelChildren(_, _) => CancelKeeps(db, op);
    case Recover(_) => RecoverKeeps(db, op);
  }

  lemma {:induction false} RunKeeps(db: Db, ops: seq<Op>)
    requires Inv(db) && Fresh(db, ops)
    ensures Inv(Run(db, ops))
    decreases |ops|
  {
    if ops != [] {
      StepKeeps(db, ops[0]);
      RunKeeps(Step(db, ops[0]).db, ops[1..]);
    }
  }

  // ----- Laws over runs -----

  /** How a row may change in one step: never its identity, and never backwards. */
  predicate Advances(before: Record, after: Record) {
    && after == before.(status := after.status, startedAt := after.startedAt, finishedAt := after.finishedAt,
                        result := after.result, failure := after.failure)
    && (after == before || CanMove(before.status, after.status))
  }

  lemma {:induction false} StepAdvances(db: Db, op: Op, id: Id)
    requires Inv(db) && FreshFor(db, op) && id in db.tasks
    ensures id in Step(db, op).db.tasks && Advances(db.tasks[id], Step(db, op).db.tasks[id])
    ensures db.fences <= Step(db, op).db.fences
  {
  }

  /** A terminal record never changes again. */
  lemma {:induction false} TerminalIsFinal(db: Db, ops: seq<Op>, id: Id)
    requires Inv(db) && Fresh(db, ops) && id in db.tasks && Terminal(db.tasks[id].status)
    ensures id in Run(db, ops).tasks && Run(db, ops).tasks[id] == db.tasks[id]
    decreases |ops|
  {
    if ops != [] {
      StepKeeps(db, ops[0]);
      StepAdvances(db, ops[0], id);
      TerminalIsFinal(Step(db, ops[0]).db, ops[1..], id);
    }
  }

  ghost predicate SameChildren(a: Db, b: Db, parent: Parent) {
    forall id :: (id in a.tasks && a.tasks[id].parent == parent) <==> (id in b.tasks && b.tasks[id].parent == parent)
  }

  lemma {:induction false} FencedStep(db: Db, op: Op, parent: Parent)
    requires Inv(db) && FreshFor(db, op) && parent in db.fences
    ensures parent in Step(db, op).db.fences && SameChildren(db, Step(db, op).db, parent)
  {
    forall id | id in db.tasks
      ensures id in Step(db, op).db.tasks && Step(db, op).db.tasks[id].parent == db.tasks[id].parent
    {
      StepAdvances(db, op, id);
    }
  }

  /** Once a parent run is fenced, in all later states no child of it is new, open or changed. */
  lemma {:induction false} FenceIsFinal(db: Db, ops: seq<Op>, parent: Parent, id: Id)
    requires Inv(db) && Fresh(db, ops) && parent in db.fences
    ensures var after := Run(db, ops);
            && parent in after.fences
            && ((id in after.tasks && after.tasks[id].parent == parent) <==>
              (id in db.tasks && db.tasks[id].parent == parent))
            && (id in after.tasks && after.tasks[id].parent == parent ==>
                  Terminal(after.tasks[id].status) && after.tasks[id] == db.tasks[id])
    decreases |ops|
  {
    if ops != [] {
      StepKeeps(db, ops[0]);
      FencedStep(db, ops[0], parent);
      if id in db.tasks && db.tasks[id].parent == parent { StepAdvances(db, ops[0], id); }
      FenceIsFinal(Step(db, ops[0]).db, ops[1..], parent, id);
    }
  }

  /** Cancelling fences the parent, and closes exactly its open children. */
  lemma {:induction false} CancelCloses(db: Db, parent: Parent, now: int, id: Id)
    requires Inv(db) && id in db.tasks
    ensures var after := Step(db, CancelChildren(parent, now)).db;
            && parent in after.fences && id in after.tasks
            && if db.tasks[id].parent == parent && !Terminal(db.tasks[id].status)
               then after.tasks[id].status.Cancelled? && after.tasks[id].result.None?
               else after.tasks[id] == db.tasks[id]
  {
  }

  /** Cancelling a parent's children is for good: in every later state the parent is fenced, its children
      are those it had, the ones that were open are cancelled without a result, and the others unchanged. */
  lemma {:induction false} CancelIsFinal(db: Db, parent: Parent, now: int, ops: seq<Op>, id: Id)
    requires Inv(db) && Fresh(Step(db, CancelChildren(parent, now)).db, ops)
    ensures var after := Run(Step(db, CancelChildren(parent, now)).db, ops);
            && parent in after.fences
            && ((id in after.tasks && after.tasks[id].parent == parent) <==>
              (id in db.tasks && db.tasks[id].parent == parent))
            && (id in db.tasks && db.tasks[id].parent == parent ==>
                  if Terminal(db.tasks[id].status) then after.tasks[id] == db.tasks[id]
                  else after.tasks[id].status.Cancelled? && after.tasks[id].result.None?)
  {
    var cut := Step(db, CancelChildren(parent, now)).db;
    StepKeeps(db, CancelChildren(parent, now));
    FenceIsFinal(cut, ops, parent, id);
    if id in db.tasks {
      CancelCloses(db, parent, now, id);
    }
  }

  lemma {:induction false} BecameSucceeded(db: Db, op: Op, id: Id)
    requires Inv(db) && FreshFor(db, op)
    requires id in Step(db, op).db.tasks && Step(db, op).db.tasks[id].status.Succeeded?
    requires id in db.tasks ==> !db.tasks[id].status.Succeeded?
    ensures id in db.tasks && db.tasks[id].status.Running?
  {
    if id in db.tasks { StepAdvances(db, op, id); }
  }

  /** A task that has succeeded was running at an earlier point of the run. */
  lemma {:induction false} SucceededWasRunning(db: Db, ops: seq<Op>, id: Id) returns (i: nat)
    requires Inv(db) && Fresh(db, ops) && (id in db.tasks ==> !db.tasks[id].status.Succeeded?)
    requires id in Run(db, ops).tasks && Run(db, ops).tasks[id].status.Succeeded?
    ensures i < |ops| && id in Run(db, ops[..i]).tasks && Run(db, ops[..i]).tasks[id].status.Running?
    decreases |ops|
  {
    var next := Step(db, ops[0]).db;
    StepKeeps(db, ops[0]);
    if id in next.tasks && next.tasks[id].status.Succeeded? {
      BecameSucceeded(db, ops[0], id);
      assert ops[..0] == [];
      i := 0;
    } else {
      var j := SucceededWasRunning(next, ops[1..], id);
      assert ops[..j + 1][1..] == ops[1..][..j];
      i := j + 1;
    }
  }

  /** In every reachable state there is at most one task per parent call, and creating it again returns it. */
  lemma {:induction false} CreateIsIdempotent(ops: seq<Op>, op: Op, a: Id)
    requires Fresh(EMPTY, ops) && op.Create?
    requires var db := Run(EMPTY, ops); a in db.tasks && SameCall(db.tasks[a], op.parent, op.call)
    ensures var db := Run(EMPTY, ops);
            && (forall b :: b in db.tasks && SameCall(db.tasks[b], op.parent, op.call) ==> b == a)
            && Step(db, op) == Outcome(db, if db.tasks[a].role == op.role && db.tasks[a].digest == op.digest
                                           then Found(db.tasks[a]) else Conflict)
  {
    RunKeeps(EMPTY, ops);
  }

  // ----- The store -----

  class Store {
    var tasks: map<Id, Record>
    var fences: set<Parent>

    function Model(): Db
      reads this
    {
      Db(tasks, fences)
    }

    constructor ()
      ensures Model() == EMPTY && Inv(Model())
    {
      tasks, fences := map[], {};
    }

    method CreateTask(op: Op) returns (reply: Reply)
      requires op.Create? && Inv(Model())
      modifies this
      ensures Outcome(Model(), reply) == Step(old(Model()), op)
      ensures old(FreshFor(Model(), op)) ==> Inv(Model())
    {
      if FreshFor(Model(), op) { CreateKeeps(Model(), op); }
      var prior := set id | id in tasks && SameCall(tasks[id], op.parent, op.call);
      if prior != {} {
        var id :| id in prior;
        if tasks[id].role != op.role || tasks[id].digest != op.digest { return Conflict; }
        return Found(tasks[id]);
      }
      assert Prior(tasks, op.parent, op.call).None? by {
        assert forall id :: id in tasks && SameCall(tasks[id], op.parent, op.call) ==> id in prior;
      }
      if op.parent in fences { return ParentCancelled; }
      var r := Record(op.freshId, op.parent, op.call, op.role, op.digest, op.freshRun, Queued, None, None, None, None);
      tasks := tasks[r.id := r];
      return Found(r);
    }

    method MoveTask(op: Op) returns (reply: Reply)
      requires op.Transition?
      modifies this
      ensures Outcome(Model(), reply) == Step(old(Model()), op)
      ensures reply.Found? ==>
        op.id in old(tasks) && !Terminal(old(tasks)[op.id].status) && tasks[op.id].status == op.target
    {
      if !CanMove(op.expected, op.target) { return NotChanged; }
      if op.result.Some? && !op.target.Succeeded? { return BadRequest; }
      if op.failure.Some? && !op.target.Failed? && !op.target.TimedOut? { return BadRequest; }
      if op.id !in tasks || tasks[op.id].parent != op.parent || tasks[op.id].status != op.expected {
        return NotChanged;
      }
      tasks := tasks[op.id := Moved(tasks[op.id], op.target, op.result, op.failure, op.now)];
      return Found(tasks[op.id]);
    }

    method Cancel(op: Op) returns (reply: Reply)
      requires op.CancelChildren?
      modifies this
      ensures Outcome(Model(), reply) == Step(old(Model()), op)
      ensures forall id :: id in tasks && tasks[id].parent == op.parent ==> Terminal(tasks[id].status)
    {
      fences := fences + {op.parent};
      var hit := set id | id in tasks && tasks[id].parent == op.parent && !Terminal(tasks[id].status);
      assert hit == Unfinished(old(Model()), Some(op.parent));
      tasks := map id | id in tasks ::
        if id in hit then tasks[id].(status := Cancelled, finishedAt := Some(op.now)) else tasks[id];
      return Changed(|hit|);
    }

    method RecoverInterrupted(op: Op) returns (reply: Reply)
      requires op.Recover?
      modifies this
      ensures Outcome(Model(), reply) == Step(old(Model()), op)
      ensures forall id :: id in tasks ==> Terminal(tasks[id].status)
    {
      var hit := set id | id in tasks && !Terminal(tasks[id].status);
      assert hit == Unfinished(old(Model()), None);
      tasks := map id | id in tasks ::
        if id in hit then Closed(tasks[id], Failed, Some("interrupted by service restart"), op.now) else tasks[id];
      return Changed(|hit|);
    }
  }

  // ----- What each operation does, on the rows -----

  /** Creating a task returns the one this call made before, if role and input are the same; else, unless
      the parent is fenced, it adds a queued one. */
  lemma {:induction false} CreatesExactly(db: Db, op: Op)
    requires Inv(db) && op.Create?
    ensures var o := Step(db, op);
            && (forall id :: id in db.tasks && db.tasks[id].parent == op.parent && db.tasks[id].call == op.call ==>
                  && o.db == db
                  && o.reply == if db.tasks[id].role == op.role && db.tasks[id].digest == op.digest
                                then Found(db.tasks[id]) else Conflict)
            && ((forall id :: id in db.tasks ==> db.tasks[id].parent != op.parent || db.tasks[id].call != op.call) ==>
                  if op.parent in db.fences then o.db == db && o.reply == ParentCancelled
                  else && o.reply.Found? && o.db == db.(tasks := db.tasks[op.freshId := o.reply.record])
                       && var r := o.reply.record;
                          && r.id == op.freshId && r.parent == op.parent && r.call == op.call && r.role == op.role
                          && r.digest == op.digest && r.childRun == op.freshRun && r.status == Queued
                          && r.startedAt == r.finishedAt == None && r.result == r.failure == None)
  {
  }

  /** From queued a task may start or end without success; from running it may end in any way. */
  ghost predicate Permits(from: Status, to: Status) {
    || (from == Queued && to in {Running, Failed, Cancelled, TimedOut})
    || (from == Running && to in {Succeeded, Failed, Cancelled, TimedOut})
  }

  /** A result belongs to success, and a failure text to failing or running out of time. */
  ghost predicate Fitting(to: Status, result: Option<string>, failure: Option<string>) {
    (result.Some? ==> to == Succeeded) && (failure.Some? ==> to in {Failed, TimedOut})
  }

  /** A transition is made exactly when it is permitted, its texts fit, and the owner's task is in the
      expected status. It sets the status, one time and the texts, and nothing else. */
  lemma {:induction false} TransitionsExactly(db: Db, op: Op)
    requires op.Transition?
    ensures var (o, r) := (Step(db, op), op.id);
            var fits := Permits(op.expected, op.target) && Fitting(op.target, op.result, op.failure);
            var present := r in db.tasks && db.tasks[r].parent == op.parent && db.tasks[r].status == op.expected;
            && (o.reply.Found? <==> fits && present)
            && (o.reply.BadRequest? <==> Permits(op.expected, op.target) && !fits)
            && (!o.reply.Found? ==> o.db == db && o.reply in {BadRequest, NotChanged})
            && (o.reply.Found? ==>
                  && o.db == db.(tasks := db.tasks[r := o.reply.record])
                  && o.reply.record == db.tasks[r].(
                       status := op.target, result := op.result, failure := op.failure,
                       startedAt := if op.target == Running then Some(op.now) else db.tasks[r].startedAt,
                       finishedAt := if op.target == Running then db.tasks[r].finishedAt else Some(op.now)))
  {
  }

  ghost predicate StillOpen(r: Record) { r.status == Queued || r.status == Running }

  /** Cancelling ends exactly the parent's open tasks, now, and counts them. */
  lemma {:induction false} CancelsExactly(db: Db, parent: Parent, now: int)
    ensures var o := Step(db, CancelChildren(parent, now));
            && o.db.fences == db.fences + {parent} && o.db.tasks.Keys == db.tasks.Keys
            && o.reply == Changed(|set id | id in db.tasks && db.tasks[id].parent == parent && StillOpen(db.tasks[id])|)
            && forall id :: id in db.tasks ==>
                 o.db.tasks[id] == if db.tasks[id].parent == parent && StillOpen(db.tasks[id])
                                   then db.tasks[id].(status := Cancelled, finishedAt := Some(now)) else db.tasks[id]
  {
    assert Unfinished(db, Some(parent)) ==
           set id | id in db.tasks && db.tasks[id].parent == parent && StillOpen(db.tasks[id]);
  }

  /** After a restart exactly the open tasks of all parents are failed, now, with the same words, and
      counted. */
  lemma {:induction false} RecoversExactly(db: Db, now: int)
    ensures var o := Step(db, Recover(now));
            && o.db.fences == db.fences && o.db.tasks.Keys == db.tasks.Keys
            && o.reply == Changed(|set id | id in db.tasks && StillOpen(db.tasks[id])|)
            && forall id :: id in db.tasks ==>
                 o.db.tasks[id] == if StillOpen(db.tasks[id])
                                   then db.tasks[id].(status := Failed, finishedAt := Some(now),
                                                      failure := Some("interrupted by service restart"))
                                   else db.tasks[id]
  {
    assert Unfinished(db, None) == set id | id in db.tasks && StillOpen(db.tasks[id]);
  }
}
