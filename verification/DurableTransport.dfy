/** Durable transports over one state key: serialised remote operations with revisioned commits. */
module DurableTransport {
  import opened Base
  import opened StateStore

  /** One connection, with counts of the remote operations it issued and the checkpoints it committed.
      `busy` is its operation lock: a remote call was issued and its state is not saved yet. */
  datatype Client = Client(
    revision: nat, sequence: nat, failed: bool, closed: bool, busy: bool, issued: nat, committed: nat)

  function Fresh(revision: nat): Client { Client(revision, 0, false, false, false, 0, 0) }

  /** The store, and all transports that share the key. */
  datatype System = System(db: Db, clients: seq<Client>)

  datatype Op =
    | Issue(client: nat)                              // the remote call
    | Save(client: nat, state: string, now: int)      // committing the resume state the call left
    | Close(client: nat)
    | Elsewhere(write: Write)                         // any other user of the store

  predicate Available(c: Client) { !c.closed && !c.failed }

  function Issued(c: Client): Client { c.(busy := true, issued := c.issued + 1) }

  function SaveOf(key: Key, i: nat, c: Client, state: string, now: int): Write {
    Write(Command(key, state, c.revision), Writer(i, c.sequence + 1), now)
  }

  /** The checkpoint the store returned, if it returned one. */
  function Checkpoint(r: Reply): Option<Record> {
    match r
    case Written(record) => Some(record)
    case Replayed(record) => Some(record)
    case _ => None
  }

  function AfterSave(c: Client, state: string, r: Reply): Client {
    var saved := c.(busy := false, sequence := c.sequence + 1);
    var point := Checkpoint(r);
    if point.Some? && point.value.revision == c.revision + 1 && point.value.value == state then
      saved.(revision := point.value.revision, committed := c.committed + 1)
    else saved.(failed := true)
  }

  /** A transport's calls, saves and closing take turns; those of different transports interleave freely. */
  function Step(cfg: Config, key: Key, s: System, op: Op): System {
    match op
    case Issue(i) =>
      if i < |s.clients| && Available(s.clients[i]) && !s.clients[i].busy
      then s.(clients := s.clients[i := Issued(s.clients[i])]) else s
    case Save(i, state, now) =>
      if i < |s.clients| && s.clients[i].busy then
        var o := CompareAndSet(cfg, s.db, SaveOf(key, i, s.clients[i], state, now));
        System(o.db, s.clients[i := AfterSave(s.clients[i], state, o.reply)])
      else s
    case Close(i) =>
      if i < |s.clients| && !s.clients[i].busy then s.(clients := s.clients[i := s.clients[i].(closed := true)]) else s
    case Elsewhere(w) => if w.idem.Caller? then s.(db := CompareAndSet(cfg, s.db, w).db) else s
  }

  function Run(cfg: Config, key: Key, s: System, ops: seq<Op>): System
    decreases |ops|
  {
    if ops == [] then s else Run(cfg, key, Step(cfg, key, s, ops[0]), ops[1..])
  }

  /** A transport has committed all it issued, but for the call in flight or the one that failed. */
  predicate ClientOk(c: Client, base: nat) {
    && c.revision == base + c.committed
    && c.issued == c.committed + (if c.failed || c.busy then 1 else 0)
    && !(c.failed && c.busy) && !(c.closed && c.busy)
  }

  /** Transport keys in use carry sequence numbers their writers have passed. */
  ghost predicate KeysPassed(remembered: map<IdemKey, Remembered>, clients: seq<Client>) {
    forall k :: k in remembered && k.Writer? ==> k.writer < |clients| && k.sequence <= clients[k.writer].sequence
  }

  /** The store has moved on at least as far as any transport, and at most one transport has committed. */
  ghost predicate Inv(key: Key, s: System, base: nat) {
    && (forall i :: 0 <= i < |s.clients| ==>
          ClientOk(s.clients[i], base) && base + s.clients[i].committed <= RevisionOf(s.db, key))
    && base <= RevisionOf(s.db, key)
    && (forall i, j :: 0 <= i < j < |s.clients| ==> s.clients[i].committed == 0 || s.clients[j].committed == 0)
    && KeysPassed(s.db.remembered, s.clients)
  }

  /** A fresh key is never replayed, so the save either writes or is refused. */
  lemma {:induction false} SaveIsNew(cfg: Config, key: Key, s: System, base: nat, i: nat, state: string, now: int)
    requires Inv(key, s, base) && i < |s.clients|
    ensures !CompareAndSet(cfg, s.db, SaveOf(key, i, s.clients[i], state, now)).reply.Replayed?
  {
    assert Writer(i, s.clients[i].sequence + 1) !in s.db.remembered;
  }

  lemma {:induction false} SaveKeeps(cfg: Config, key: Key, s: System, base: nat, i: nat, state: string, now: int)
    requires Inv(key, s, base) && i < |s.clients| && s.clients[i].busy
    ensures Inv(key, Step(cfg, key, s, Save(i, state, now)), base)
  {
    var c := s.clients[i];
    var w := SaveOf(key, i, c, state, now);
    var o := CompareAndSet(cfg, s.db, w);
    SaveIsNew(cfg, key, s, base, i, state, now);
    OnlyWritesChange(cfg, s.db, w);
    var s' := Step(cfg, key, s, Save(i, state, now));
    if o.reply.Written? {
      // The save was accepted at the transport's own revision: nobody else has moved the key.
      assert RevisionOf(s.db, key) == base + c.committed;
    }
    KeysStillPassed(cfg, s, w, s'.clients);
  }

  lemma {:induction false} KeysStillPassed(cfg: Config, s: System, w: Write, clients: seq<Client>)
    requires KeysPassed(s.db.remembered, s.clients) && |clients| == |s.clients|
    requires forall j :: 0 <= j < |clients| ==> s.clients[j].sequence <= clients[j].sequence
    requires w.idem.Writer? ==> w.idem.writer < |clients| && w.idem.sequence <= clients[w.idem.writer].sequence
    ensures KeysPassed(CompareAndSet(cfg, s.db, w).db.remembered, clients)
  {
  }

  lemma {:induction false} StepKeeps(cfg: Config, key: Key, s: System, base: nat, op: Op)
    requires Inv(key, s, base)
    ensures Inv(key, Step(cfg, key, s, op), base)
  {
    match op
    case Issue(_) =>
    case Save(i, state, now) => if i < |s.clients| && s.clients[i].busy { SaveKeeps(cfg, key, s, base, i, state, now); }
    case Close(_) =>
    case Elsewhere(w) =>
      if w.idem.Caller? {
        OnlyWritesChange(cfg, s.db, w);
        KeysStillPassed(cfg, s, w, s.clients);
      }
  }

  lemma {:induction false} RunKeeps(cfg: Config, key: Key, s: System, base: nat, ops: seq<Op>)
    requires Inv(key, s, base)
    ensures Inv(key, Run(cfg, key, s, ops), base)
    decreases |ops|
  {
    if ops != [] {
      StepKeeps(cfg, key, s, base, ops[0]);
      RunKeeps(cfg, key, Step(cfg, key, s, ops[0]), base, ops[1..]);
    }
  }

  /** Transports that all loaded the same checkpoint and have done nothing yet. */
  ghost predicate Started(key: Key, s: System) {
    && (forall i :: 0 <= i < |s.clients| ==> s.clients[i] == Fresh(RevisionOf(s.db, key)))
    && (forall k :: k in s.db.remembered ==> k.Caller?)
  }

  /** Of all transports started from one revision at most one ever commits, and each of the others issues
      at most one remote operation: the one whose commit failed. */
  lemma {:induction false} AtMostOneCommits(cfg: Config, key: Key, s: System, ops: seq<Op>, i: nat, j: nat)
    requires Started(key, s) && i < j < |s.clients|
    ensures var after := Run(cfg, key, s, ops).clients;
            && |after| == |s.clients|
            && (after[i].committed == 0 || after[j].committed == 0)
            && (after[i].committed == 0 ==> after[i].issued <= 1)
            && (after[j].committed == 0 ==> after[j].issued <= 1)
  {
    RunKeeps(cfg, key, s, RevisionOf(s.db, key), ops);
    ClientCount(cfg, key, s, ops);
  }

  lemma {:induction false} ClientCount(cfg: Config, key: Key, s: System, ops: seq<Op>)
    ensures |Run(cfg, key, s, ops).clients| == |s.clients|
    decreases |ops|
  {
    if ops != [] { ClientCount(cfg, key, Step(cfg, key, s, ops[0]), ops[1..]); }
  }

  /** After its persistence has failed, a transport never issues another remote operation. */
  lemma {:induction false} FailedStaysSilent(cfg: Config, key: Key, s: System, ops: seq<Op>, i: nat)
    requires i < |s.clients| && s.clients[i].failed
    ensures i < |Run(cfg, key, s, ops).clients|
    ensures Run(cfg, key, s, ops).clients[i].failed && Run(cfg, key, s, ops).clients[i].issued == s.clients[i].issued
    decreases |ops|
  {
    if ops != [] { FailedStaysSilent(cfg, key, Step(cfg, key, s, ops[0]), ops[1..], i); }
  }

  // ----- The transport -----

  class Transport {
    const key: Key
    const writer: nat
    const store: Store
    var revision: nat
    var sequence: nat
    var failed: bool
    var closed: bool
    var busy: bool
    var issued: nat
    var committed: nat

    function Model(): Client
      reads this
    {
      Client(revision, sequence, failed, closed, busy, issued, committed)
    }

    constructor (key: Key, writer: nat, store: Store, checkpoint: nat)
      ensures this.key == key && this.writer == writer && this.store == store
      ensures Model() == Fresh(checkpoint)
    {
      this.key, this.writer, this.store := key, writer, store;
      revision, sequence, failed, closed, busy, issued, committed := checkpoint, 0, false, false, false, 0, 0;
    }

    /** Takes the operation lock and issues the remote call, unless the transport is shut. */
    method BeginOperation() returns (ok: bool)
      requires !busy
      modifies this
      ensures ok <==> Available(old(Model()))
      ensures Model() == if ok then Issued(old(Model())) else old(Model())
    {
      if closed || failed { return false; }
      busy := true;
      issued := issued + 1;
      return true;
    }

    /** Commits the resume state the call left and gives the lock back; without a commit it shuts down. */
    method PersistAfterOperation(state: string, now: int) returns (ok: bool)
      requires busy
      modifies this, store
      ensures var c := old(Model());
              var o := CompareAndSet(store.config, old(store.Model()), SaveOf(key, writer, c, state, now));
              store.Model() == o.db && Model() == AfterSave(c, state, o.reply)
      ensures ok == (committed > old(committed)) && (!ok ==> failed && committed == old(committed))
    {
      sequence := sequence + 1;
      busy := false;
      var reply := store.Set(Write(Command(key, state, revision), Writer(writer, sequence), now));
      var point := Checkpoint(reply);
      if point.None? || point.value.revision != revision + 1 || point.value.value != state {
        failed := true;
        return false;
      }
      revision := point.value.revision;
      committed := committed + 1;
      return true;
    }

    method Shut()
      requires !busy
      modifies this
      ensures Model() == old(Model()).(closed := true)
    {
      closed := true;
    }
  }

  // ----- When a transport issues and when it commits -----

  /** A closed transport never issues another remote operation. */
  lemma {:induction false} ClosedStaysSilent(cfg: Config, key: Key, s: System, ops: seq<Op>, i: nat)
    requires i < |s.clients| && s.clients[i].closed
    ensures i < |Run(cfg, key, s, ops).clients|
    ensures Run(cfg, key, s, ops).clients[i].closed && Run(cfg, key, s, ops).clients[i].issued == s.clients[i].issued
    decreases |ops|
  {
    if ops != [] { ClosedStaysSilent(cfg, key, Step(cfg, key, s, ops[0]), ops[1..], i); }
  }

  /** A transport issues exactly when it is idle and was neither closed nor failed, and closes only when
      idle; neither touches the store or another transport. */
  lemma {:induction false} IssuesExactly(cfg: Config, key: Key, s: System, i: nat)
    requires i < |s.clients|
    ensures var (c, s') := (s.clients[i], Step(cfg, key, s, Issue(i)));
            && s'.db == s.db && |s'.clients| == |s.clients|
            && (forall j :: 0 <= j < |s.clients| && j != i ==> s'.clients[j] == s.clients[j])
            && s'.clients[i] == if c.busy || c.closed || c.failed then c else c.(busy := true, issued := c.issued + 1)
    ensures Step(cfg, key, s, Close(i)) ==
            if s.clients[i].busy then s else s.(clients := s.clients[i := s.clients[i].(closed := true)])
  {
  }

  /** In every state reached from a common start, the save after a remote call commits exactly when nobody
      has moved the key since this transport last looked and the store has room; it then leaves the new
      state at the next revision. Otherwise the transport fails and no record changes. */
  lemma {:induction false} SavesExactly(cfg: Config, key: Key, s0: System, ops: seq<Op>, i: nat, state: string,
                                        now: int)
    requires Started(key, s0) && i < |Run(cfg, key, s0, ops).clients| && Run(cfg, key, s0, ops).clients[i].busy
    ensures var s := Run(cfg, key, s0, ops);
            var (c, s') := (s.clients[i], Step(cfg, key, s, Save(i, state, now)));
            && |s'.clients| == |s.clients|
            && if RevisionOf(s.db, key) == c.revision && HasRoom(cfg, s.db, key, now) then
                 && s'.clients[i] == c.(busy := false, sequence := c.sequence + 1, revision := c.revision + 1,
                                        committed := c.committed + 1)
                 && s'.db.records == s.db.records[key := Record(key, state, c.revision + 1)]
               else
                 && s'.clients[i] == c.(busy := false, sequence := c.sequence + 1, failed := true)
                 && s'.db.records == s.db.records
  {
    RunKeeps(cfg, key, s0, RevisionOf(s0.db, key), ops);
    SavedExactly(cfg, key, Run(cfg, key, s0, ops), RevisionOf(s0.db, key), i, state, now);
  }

  lemma {:induction false} SavedExactly(cfg: Config, key: Key, s: System, base: nat, i: nat, state: string, now: int)
    requires Inv(key, s, base) && i < |s.clients| && s.clients[i].busy
    ensures var (c, s') := (s.clients[i], Step(cfg, key, s, Save(i, state, now)));
            && |s'.clients| == |s.clients|
            && if RevisionOf(s.db, key) == c.revision && HasRoom(cfg, s.db, key, now) then
                 && s'.clients[i] == c.(busy := false, sequence := c.sequence + 1, revision := c.revision + 1,
                                        committed := c.committed + 1)
                 && s'.db.records == s.db.records[key := Record(key, state, c.revision + 1)]
               else
                 && s'.clients[i] == c.(busy := false, sequence := c.sequence + 1, failed := true)
                 && s'.db.records == s.db.records
  {
    SaveIsNew(cfg, key, s, base, i, state, now);
    SetsExactly(cfg, s.db, SaveOf(key, i, s.clients[i], state, now));
  }
}
