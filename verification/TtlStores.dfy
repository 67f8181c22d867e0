/** The in-process session stores: a dict of (expiry, value) expired lazily on access. */
module TtlStores {
  import opened Collections

  type Entries<V> = map<string, (real, V)>

  /** What a read of sid at time now returns. */
  function LiveAt<V>(entries: Entries<V>, sid: string, now: real): Option<V> {
    if sid in entries && now < entries[sid].0 then Some(entries[sid].1) else None
  }

  /** What that read leaves behind: an expired entry is removed on access. */
  function AfterGet<V>(entries: Entries<V>, sid: string, now: real): Entries<V> {
    if sid in entries && !(now < entries[sid].0) then entries - {sid} else entries
  }

  /** One store object; instantiated with session objects and with briefing states. */
  class TtlStore<V> {
    const ttl: real
    var entries: Entries<V>

    constructor (ttl: real)
      ensures this.ttl == ttl && entries == map[]
    {
      this.ttl := ttl;
      entries := map[];
    }

    method Get(sid: string, now: real) returns (r: Option<V>)
      modifies this`entries
      ensures r == LiveAt(old(entries), sid, now)
      ensures entries == AfterGet(old(entries), sid, now)
      ensures sid in entries ==> now < entries[sid].0
      ensures entries == old(entries) || (r == None && entries == old(entries) - {sid})
    {
      if sid !in entries {
        return None;
      }
      var (expiresAt, value) := entries[sid];
      if now >= expiresAt {
        entries := entries - {sid};
        return None;
      }
      return Some(value);
    }

    method Set(sid: string, value: V, now: real)
      modifies this`entries
      ensures entries == old(entries)[sid := (now + ttl, value)]
    {
      entries := entries[sid := (now + ttl, value)];
    }

    method Delete(sid: string)
      modifies this`entries
      ensures entries == old(entries) - {sid}
    {
      entries := entries - {sid};
    }
  }

  // ----- The store as a function of its history

  datatype Op<V> =
    | OpGet(sid: string, at: real)
    | OpSet(sid: string, value: V, at: real)
    | OpDelete(sid: string, at: real)

  function Apply<V>(entries: Entries<V>, op: Op<V>, ttl: real): Entries<V> {
    match op
    case OpGet(sid, at) => AfterGet(entries, sid, at)
    case OpSet(sid, value, at) => entries[sid := (at + ttl, value)]
    case OpDelete(sid, _) => entries - {sid}
  }

  /** The dict after the operations ops on an empty store. */
  function Run<V>(ops: seq<Op<V>>, ttl: real): Entries<V> {
    if ops == [] then map[] else Apply(Run(ops[..|ops| - 1], ttl), ops[|ops| - 1], ttl)
  }

  /** The last operation in ops that wrote (set or deleted) sid. */
  function LastWrite<V>(ops: seq<Op<V>>, sid: string): Option<Op<V>> {
    if ops == [] then None
    else
      var op := ops[|ops| - 1];
      if op.sid == sid && !op.OpGet? then Some(op) else LastWrite(ops[..|ops| - 1], sid)
  }

  ghost predicate Monotone<V>(ops: seq<Op<V>>) {
    forall i, j :: 0 <= i < j < |ops| ==> ops[i].at <= ops[j].at
  }

  /** The intended meaning of the store: the last set of sid, if it is younger than the ttl. */
  ghost predicate Remembered<V>(ops: seq<Op<V>>, sid: string, now: real, ttl: real, value: V) {
    match LastWrite(ops, sid)
    case Some(OpSet(_, v, at)) => v == value && now < at + ttl
    case _ => false
  }

  /** With a monotone clock a read returns value exactly when the history says it is remembered. */
  lemma {:induction false} GetRefinesHistory<V>(ops: seq<Op<V>>, sid: string, now: real, ttl: real, value: V)
    requires Monotone(ops)
    requires forall i :: 0 <= i < |ops| ==> ops[i].at <= now
    ensures LiveAt(Run(ops, ttl), sid, now) == Some(value) <==> Remembered(ops, sid, now, ttl, value)
  {
    if ops != [] {
      var init := ops[..|ops| - 1];
      assert ops[|ops| - 1].at <= now;
      GetRefinesHistory(init, sid, now, ttl, value);
    }
  }

  /** The operations without the reads. */
  function WritesOnly<V>(ops: seq<Op<V>>): seq<Op<V>> {
    if ops == [] then []
    else
      var rest := WritesOnly(ops[..|ops| - 1]);
      if ops[|ops| - 1].OpGet? then rest else rest + [ops[|ops| - 1]]
  }

  /** Lazy deletion is unobservable: removing every earlier read changes no later read. */
  lemma {:induction false} LazyDeletionUnobservable<V(!new)>(ops: seq<Op<V>>, sid: string, now: real, ttl: real)
    requires Monotone(ops)
    requires forall i :: 0 <= i < |ops| ==> ops[i].at <= now
    ensures LiveAt(Run(ops, ttl), sid, now) == LiveAt(Run(WritesOnly(ops), ttl), sid, now)
  {
    if ops != [] {
      var init, last := ops[..|ops| - 1], ops[|ops| - 1];
      assert last.at <= now;
      LazyDeletionUnobservable(init, sid, now, ttl);
      if !last.OpGet? {
        var w := WritesOnly(ops);
        assert w[..|w| - 1] == WritesOnly(init) && w[|w| - 1] == last;
      }
    }
  }

  /** The clock assumption is needed: after a read at a later time, an earlier read misses. */
  lemma {:induction false} ClockMustNotGoBack(ttl: real)
    requires ttl > 0.0
    ensures var ops := [OpSet("s", 1, 0.0), OpGet("s", ttl)];
      LiveAt(Run(ops, ttl), "s", 0.0) == None && Remembered(ops, "s", 0.0, ttl, 1)
  {
    var ops := [OpSet("s", 1, 0.0), OpGet("s", ttl)];
    assert ops[..1] == [OpSet("s", 1, 0.0)];
    assert ops[..1][..0] == [];
    assert Run(ops[..1], ttl) == map["s" := (ttl, 1)];
    assert LastWrite(ops, "s") == LastWrite(ops[..1], "s");
  }
}
