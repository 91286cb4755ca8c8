/** Compare-and-set product state in one namespace, with idempotent replay. */
module StateStore {
  import opened Base

  type Key = string

  /** Idempotency keys: those of durable transports, and all others. */
  datatype IdemKey = Writer(writer: nat, sequence: nat) | Caller(name: string)

  datatype Record = Record(key: Key, value: string, revision: nat)

  datatype Command = Command(key: Key, value: string, expected: nat)

  datatype Remembered = Remembered(command: Command, result: Record, expires: int)

  datatype Config = Config(maxRecords: nat, maxRemembered: nat, ttl: int)

  datatype Db = Db(records: map<Key, Record>, remembered: map<IdemKey, Remembered>)

  const EMPTY: Db := Db(map[], map[])

  datatype Write = Write(command: Command, idem: IdemKey, now: int)

  datatype Reply = Written(record: Record) | Replayed(record: Record) | IdempotencyConflict | RevisionConflict
      | AtCapacity

  datatype Outcome = Outcome(db: Db, reply: Reply)

  function RevisionOf(db: Db, key: Key): nat { if key in db.records then db.records[key].revision else 0 }

  function Live(m: map<IdemKey, Remembered>, now: int): map<IdemKey, Remembered> {
    map k | k in m && m[k].expires > now :: m[k]
  }

  /** An error rolls the transaction back, including the removal of expired replies. */
  function CompareAndSet(c: Config, db: Db, w: Write): Outcome {
    var cmd, live := w.command, Live(db.remembered, w.now);
    if w.idem in live then
      if live[w.idem].command != cmd then Outcome(db, IdempotencyConflict)
      else Outcome(db.(remembered := live), Replayed(live[w.idem].result))
    else if RevisionOf(db, cmd.key) != cmd.expected then Outcome(db, RevisionConflict)
    else if cmd.key !in db.records && |db.records| >= c.maxRecords then Outcome(db, AtCapacity)
    else if |live| >= c.maxRemembered then Outcome(db, AtCapacity)
    else
      var r := Record(cmd.key, cmd.value, cmd.expected + 1);
      Outcome(Db(db.records[cmd.key := r], live[w.idem := Remembered(cmd, r, w.now + c.ttl)]), Written(r))
  }

  function Run(c: Config, db: Db, ws: seq<Write>): Db
    decreases |ws|
  {
    if ws == [] then db else Run(c, CompareAndSet(c, db, ws[0]).db, ws[1..])
  }

  // ----- Revisions count writes -----

  function Writes(c: Config, db: Db, ws: seq<Write>, key: Key): nat
    decreases |ws|
  {
    if ws == [] then 0
    else
      var o := CompareAndSet(c, db, ws[0]);
      (if o.reply.Written? && ws[0].command.key == key then 1 else 0) + Writes(c, o.db, ws[1..], key)
  }

  /** A key's revision is the number of its successful writes that were not replays. */
  lemma {:induction false} RevisionCountsWrites(c: Config, db: Db, ws: seq<Write>, key: Key)
    ensures RevisionOf(Run(c, db, ws), key) == RevisionOf(db, key) + Writes(c, db, ws, key)
    decreases |ws|
  {
    if ws != [] {
      RevisionCountsWrites(c, CompareAndSet(c, db, ws[0]).db, ws[1..], key);
    }
  }

  /** Only a write that is neither replayed nor refused changes any record. */
  lemma {:induction false} OnlyWritesChange(c: Config, db: Db, w: Write)
    ensures var o := CompareAndSet(c, db, w);
            && (!o.reply.Written? ==> o.db.records == db.records)
            && (o.reply.Written? ==> o.db.records == db.records[w.command.key := o.reply.record]
                                     && o.reply.record.value == w.command.value
                                     && o.reply.record.revision == RevisionOf(db, w.command.key) + 1)
  {
  }

  // ----- Replay -----

  predicate Before(ws: seq<Write>, t: int) {
    forall i :: 0 <= i < |ws| ==> ws[i].now < t
  }

  lemma {:induction false} RememberedStays(c: Config, db: Db, ws: seq<Write>, k: IdemKey, m: Remembered)
    requires k in db.remembered && db.remembered[k] == m && Before(ws, m.expires)
    ensures k in Run(c, db, ws).remembered && Run(c, db, ws).remembered[k] == m
    decreases |ws|
  {
    if ws != [] {
      assert forall i :: 0 <= i < |ws[1..]| ==> ws[1..][i] == ws[i + 1];
      RememberedStepStays(c, db, ws[0], k, m);
      RememberedStays(c, CompareAndSet(c, db, ws[0]).db, ws[1..], k, m);
    }
  }

  lemma {:induction false} RememberedStepStays(c: Config, db: Db, w: Write, k: IdemKey, m: Remembered)
    requires k in db.remembered && db.remembered[k] == m && w.now < m.expires
    ensures k in CompareAndSet(c, db, w).db.remembered && CompareAndSet(c, db, w).db.remembered[k] == m
  {
    assert k in Live(db.remembered, w.now);
  }

  /** Every remembered result is the record its command asked for. */
  ghost predicate Faithful(db: Db) {
    forall k :: k in db.remembered ==>
      var m := db.remembered[k];
      m.result == Record(m.command.key, m.command.value, m.command.expected + 1)
  }

  lemma {:induction false} RunKeepsFaithful(c: Config, db: Db, ws: seq<Write>)
    requires Faithful(db)
    ensures Faithful(Run(c, db, ws))
    decreases |ws|
  {
    if ws != [] {
      RunKeepsFaithful(c, CompareAndSet(c, db, ws[0]).db, ws[1..]);
    }
  }

  /** A command that was once applied is never applied again: not later, not after its retention, not
      under another key, whatever was written in between. */
  lemma {:induction false} AppliedAtMostOnce(c: Config, db: Db, w: Write, ws: seq<Write>, again: Write)
    requires CompareAndSet(c, db, w).reply.Written? && again.command == w.command
    ensures var after := Run(c, CompareAndSet(c, db, w).db, ws);
            var o := CompareAndSet(c, after, again);
            !o.reply.Written? && o.db.records == after.records
  {
    RevisionCountsWrites(c, CompareAndSet(c, db, w).db, ws, w.command.key);
  }

  lemma {:induction false} ReplayIsOriginal(c: Config, db: Db, w: Write)
    requires Faithful(db) && CompareAndSet(c, db, w).reply.Replayed?
    ensures CompareAndSet(c, db, w).reply.record == Record(w.command.key, w.command.value, w.command.expected + 1)
  {
  }

  /** A retry, however late, is answered with the original record or a conflict. */
  lemma {:induction false} RetryAnswers(c: Config, db: Db, w: Write, ws: seq<Write>, retry: Write)
    requires Faithful(db)
    requires CompareAndSet(c, db, w).reply.Written? && retry.command == w.command && retry.idem == w.idem
    ensures var (first, after) := (CompareAndSet(c, db, w), Run(c, CompareAndSet(c, db, w).db, ws));
            var reply := CompareAndSet(c, after, retry).reply;
            reply == Replayed(first.reply.record) || reply.RevisionConflict? || reply.IdempotencyConflict?
  {
    var first := CompareAndSet(c, db, w);
    var after := Run(c, first.db, ws);
    RunKeepsFaithful(c, first.db, ws);
    RevisionCountsWrites(c, first.db, ws, w.command.key);
    if CompareAndSet(c, after, retry).reply.Replayed? {
      ReplayIsOriginal(c, after, retry);
    }
  }

  /** If no later write came after the retention of the first, a retry returns the original result as
      long as it is itself in time, however far the state has moved on, and a conflict after that. */
  lemma {:induction false} RetryIsExact(c: Config, db: Db, w: Write, ws: seq<Write>, retry: Write)
    requires CompareAndSet(c, db, w).reply.Written? && retry.command == w.command && retry.idem == w.idem
    requires Before(ws, w.now + c.ttl)
    ensures var after := Run(c, CompareAndSet(c, db, w).db, ws);
            CompareAndSet(c, after, retry).reply ==
            if retry.now < w.now + c.ttl then Replayed(CompareAndSet(c, db, w).reply.record) else RevisionConflict
  {
    var first := CompareAndSet(c, db, w);
    var after := Run(c, first.db, ws);
    RememberedStays(c, first.db, ws, w.idem, first.db.remembered[w.idem]);
    RevisionCountsWrites(c, first.db, ws, w.command.key);
    assert RevisionOf(after, w.command.key) > w.command.expected;
    assert w.idem in Live(after.remembered, retry.now) <==> retry.now < w.now + c.ttl;
  }

  class Store {
    const config: Config
    var records: map<Key, Record>
    var remembered: map<IdemKey, Remembered>

    function Model(): Db
      reads this
    {
      Db(records, remembered)
    }

    constructor (c: Config)
      ensures config == c && Model() == EMPTY
    {
      config := c;
      records, remembered := map[], map[];
    }

    method Set(w: Write) returns (reply: Reply)
      modifies this
      ensures Outcome(Model(), reply) == CompareAndSet(config, old(Model()), w)
      ensures forall k :: RevisionOf(Model(), k) ==
                          old(RevisionOf(Model(), k)) + if reply.Written? && k == w.command.key then 1 else 0
    {
      var live := Live(remembered, w.now);
      if w.idem in live {
        if live[w.idem].command != w.command { return IdempotencyConflict; }
        remembered := live;
        return Replayed(live[w.idem].result);
      }
      var key := w.command.key;
      var actual := if key in records then records[key].revision else 0;
      if actual != w.command.expected { return RevisionConflict; }
      if key !in records && |records| >= config.maxRecords { return AtCapacity; }
      if |live| >= config.maxRemembered { return AtCapacity; }
      var record := Record(key, w.command.value, actual + 1);
      records := records[key := record];
      remembered := live[w.idem := Remembered(w.command, record, w.now + config.ttl)];
      return Written(record);
    }
  }

  // ----- What a write does, on the records -----

  /** A reply is remembered under this key and not expired. */
  ghost predicate Remembers(db: Db, k: IdemKey, now: int) { k in db.remembered && now < db.remembered[k].expires }

  ghost function Retained(db: Db, now: int): nat { |set k | k in db.remembered && now < db.remembered[k].expires| }

  /** There is room for the record and for its reply. */
  ghost predicate HasRoom(c: Config, db: Db, key: Key, now: int) {
    (key in db.records || |db.records| < c.maxRecords) && Retained(db, now) < c.maxRemembered
  }

  lemma {:induction false} LiveIsRetained(db: Db, now: int)
    ensures |Live(db.remembered, now)| == Retained(db, now)
  {
    assert Live(db.remembered, now).Keys == set k | k in db.remembered && now < db.remembered[k].expires;
  }

  /** A write is applied exactly when its key has no retained reply, its expected revision is the current
      one and there is room; every refusal has its own cause and changes nothing. */
  lemma {:induction false} SetsExactly(c: Config, db: Db, w: Write)
    ensures var (o, cmd) := (CompareAndSet(c, db, w), w.command);
            var current := if cmd.key in db.records then db.records[cmd.key].revision else 0;
            && (o.reply.Written? <==>
                  !Remembers(db, w.idem, w.now) && cmd.expected == current && HasRoom(c, db, cmd.key, w.now))
            && (o.reply.Replayed? <==> Remembers(db, w.idem, w.now) && db.remembered[w.idem].command == cmd)
            && (o.reply.IdempotencyConflict? <==> Remembers(db, w.idem, w.now) && db.remembered[w.idem].command != cmd)
            && (o.reply.RevisionConflict? <==> !Remembers(db, w.idem, w.now) && cmd.expected != current)
            && (o.reply.IdempotencyConflict? || o.reply.RevisionConflict? || o.reply.AtCapacity? ==> o.db == db)
            && (o.reply.Replayed? ==> o.reply.record == db.remembered[w.idem].result && o.db.records == db.records)
            && (o.reply.Written? ==>
                  && o.reply.record == Record(cmd.key, cmd.value, current + 1)
                  && o.db.records == db.records[cmd.key := o.reply.record])
  {
    LiveIsRetained(db, w.now);
  }

  /** What is remembered afterwards: a write's own reply for the retention time, and, once anything was
      answered, exactly the other replies that had not expired. */
  lemma {:induction false} RemembersExactly(c: Config, db: Db, w: Write, k: IdemKey)
    requires CompareAndSet(c, db, w).reply.Written? || CompareAndSet(c, db, w).reply.Replayed?
    ensures var o := CompareAndSet(c, db, w);
            if o.reply.Written? && k == w.idem
            then k in o.db.remembered && o.db.remembered[k] == Remembered(w.command, o.reply.record, w.now + c.ttl)
            else && (k in o.db.remembered <==> Remembers(db, k, w.now))
                 && (k in o.db.remembered ==> o.db.remembered[k] == db.remembered[k])
  {
  }
}
