/**
 * The job store. `initKV` hands out the Vercel KV client when its module loads
 * and otherwise an in-memory fallback over a `Map`; the simple variants keep a
 * `Map` in `global.taskStorage`. All of them offer `set(key, value)` and
 * `get(key)`, and `get` answers `null` for a missing (or falsy) value.
 */
module Store {
  import opened JsValue
  import opened Job

  /** `memoryStore.get(key) || null` keeps only truthy values; records are objects, hence truthy. */
  predicate Present(v: Stored) {
    v.Object? || v.text != ""
  }

  /** What `get(key)` answers for a map of entries. */
  function Answer(entries: map<string, Stored>, key: string): Option<Stored> {
    if key in entries && Present(entries[key]) then Some(entries[key]) else None
  }

  /** The first answer the backend will give to a write: `Some(message)` when that write throws. */
  function NextFault(faults: seq<Option<JsError>>): Option<JsError> {
    if faults == [] then None else faults[0]
  }

  function LaterFaults(faults: seq<Option<JsError>>): (r: seq<Option<JsError>>)
    ensures Healthy(faults) ==> Healthy(r)
  {
    if faults == [] then [] else faults[1..]
  }

  /** A backend that will accept every write it is sent. */
  predicate Healthy(faults: seq<Option<JsError>>) {
    forall i :: 0 <= i < |faults| ==> faults[i].None?
  }

  /** How the backend answers the `n`-th coming write, counting from 0. */
  function FaultAt(faults: seq<Option<JsError>>, n: nat): Option<JsError> {
    if n < |faults| then faults[n] else None
  }

  /** The answers left after `n` writes. */
  function Drop(faults: seq<Option<JsError>>, n: nat): seq<Option<JsError>> {
    if n <= |faults| then faults[n..] else []
  }

  /** Answering writes one at a time walks down the list of answers. */
  lemma DropStep(faults: seq<Option<JsError>>, n: nat)
    ensures NextFault(Drop(faults, n)) == FaultAt(faults, n)
    ensures LaterFaults(Drop(faults, n)) == Drop(faults, n + 1)
    ensures Drop(faults, 0) == faults
  {
  }

  /** The entries after applying a log of whole-value writes to `base`, oldest first. */
  ghost function Replay(base: map<string, Stored>, log: seq<(string, Stored)>): map<string, Stored> {
    if log == [] then base
    else Replay(base, log[..|log| - 1])[log[|log| - 1].0 := log[|log| - 1].1]
  }

  /** Writes of records under one key. */
  function Tagged(key: string, rs: seq<Record>): (log: seq<(string, Stored)>)
    ensures |log| == |rs|
  {
    if rs == [] then [] else Tagged(key, rs[..|rs| - 1]) + [(key, Object(rs[|rs| - 1]))]
  }

  /** Every entry of `Tagged(key, rs)` is the write of the record at the same position. */
  lemma {:induction false} TaggedAt(key: string, rs: seq<Record>)
    ensures forall i :: 0 <= i < |rs| ==> Tagged(key, rs)[i] == (key, Object(rs[i]))
  {
    if rs != [] {
      TaggedAt(key, rs[..|rs| - 1]);
    }
  }

  lemma TaggedSingle(key: string, r: Record)
    ensures Tagged(key, [r]) == [(key, Object(r))]
  {
    assert [r][..0] == [];
  }

  lemma {:induction false} TaggedAppend(key: string, a: seq<Record>, b: seq<Record>)
    ensures Tagged(key, a + b) == Tagged(key, a) + Tagged(key, b)
  {
    if b == [] {
      assert a + b == a;
    } else {
      var front := b[..|b| - 1];
      assert (a + b)[..|a + b| - 1] == a + front;
      TaggedAppend(key, a, front);
    }
  }

  /** Two runs of writes under one key, one after the other, are one run. */
  lemma LogAppend(log: seq<(string, Stored)>, key: string, a: seq<Record>, b: seq<Record>)
    ensures log + Tagged(key, a) + Tagged(key, b) == log + Tagged(key, a + b)
  {
    TaggedAppend(key, a, b);
  }

  /**
   * After a run of writes under one key, that key holds the last record written
   * and every other key is as it was: the last write wins.
   */
  lemma {:induction false} ReplayLastWins(base: map<string, Stored>, log: seq<(string, Stored)>, key: string, rs: seq<Record>)
    ensures rs == [] ==> Replay(base, log + Tagged(key, rs)) == Replay(base, log)
    ensures rs != [] ==> Replay(base, log + Tagged(key, rs)) == Replay(base, log)[key := Object(rs[|rs| - 1])]
  {
    if rs == [] {
      assert log + Tagged(key, rs) == log;
    } else {
      var front := rs[..|rs| - 1];
      assert rs == front + [rs[|rs| - 1]];
      TaggedAppend(key, front, [rs[|rs| - 1]]);
      var all := log + Tagged(key, rs);
      assert all[..|all| - 1] == log + Tagged(key, front);
      ReplayLastWins(base, log, key, front);
    }
  }

  /**
   * A key-value store. `entries` is its content; `faults` is how the backend
   * will answer the coming writes (the in-memory fallback never fails);
   * `log` records the writes it accepted, oldest first, on top of `initial`.
   */
  class JobStore {
    var entries: map<string, Stored>
    var faults: seq<Option<JsError>>
    ghost var initial: map<string, Stored>
    ghost var log: seq<(string, Stored)>

    ghost predicate Valid()
      reads this
    {
      entries == Replay(initial, log)
    }

    /** `new Map()` behind the fallback `{ set, get }` object. */
    constructor Memory()
      ensures Valid() && entries == map[] && faults == [] && log == [] && initial == map[]
    {
      entries := map[];
      faults := [];
      initial := map[];
      log := [];
    }

    /** A client of a remote store (Vercel KV or Upstash Redis) over its current content. */
    constructor Remote(content: map<string, Stored>, answers: seq<Option<JsError>>)
      ensures Valid() && entries == content && faults == answers && log == [] && initial == content
    {
      entries := content;
      faults := answers;
      initial := content;
      log := [];
    }

    /** `set(key, value)`: replaces the whole value under `key` and answers 'OK', or throws. */
    method Set(key: string, value: Stored) returns (r: Result<string, JsError>)
      requires Valid()
      modifies this
      ensures Valid() && initial == old(initial)
      ensures faults == LaterFaults(old(faults))
      ensures NextFault(old(faults)).Some? ==>
        r == Failure(NextFault(old(faults)).value) && entries == old(entries) && log == old(log)
      ensures NextFault(old(faults)).None? ==>
        r == Success("OK") && entries == old(entries)[key := value] && log == old(log) + [(key, value)]
    {
      var answer := NextFault(faults);
      faults := LaterFaults(faults);
      if answer.Some? {
        return Failure(answer.value);
      }
      entries := entries[key := value];
      log := log + [(key, value)];
      assert log[..|log| - 1] == old(log);
      return Success("OK");
    }

    /** `get(key)`: the value last set under `key`, or `null` when there is none. */
    method Get(key: string) returns (r: Option<Stored>)
      ensures r == Answer(entries, key)
      ensures key in entries && Present(entries[key]) ==> r == Some(entries[key])
      ensures key !in entries ==> r == None
      ensures r.Some? ==> Present(r.value)
    {
      r := Answer(entries, key);
    }
  }

  /** Writing a present value and reading it back gives that value; a key never written reads as null. */
  lemma SetThenGet(entries: map<string, Stored>, key: string, other: string, v: Stored)
    requires Present(v)
    ensures Answer(entries[key := v], key) == Some(v)
    ensures other != key ==> Answer(entries[key := v], other) == Answer(entries, other)
    ensures Answer(map[], key) == None
  {
  }

  /** The module-level `kv` and `kvInitialized` variables behind `initKV`. */
  class KvModule {
    var kv: JobStore?
    var initialized: bool

    ghost predicate Valid()
      reads this
    {
      initialized ==> kv != null
    }

    constructor ()
      ensures Valid() && !initialized && kv == null
    {
      kv := null;
      initialized := false;
    }

    /**
     * `initKV()`: the first call settles the store, the Vercel KV client when
     * `@vercel/kv` loads (`vercelKv`), a fresh in-memory store when it does not;
     * every later call returns that same store object.
     */
    method InitKV(vercelKv: Option<JobStore>) returns (s: JobStore)
      requires Valid()
      modifies this
      ensures Valid() && initialized && kv == s
      ensures old(initialized) ==> s == old(kv)
      ensures !old(initialized) && vercelKv.Some? ==> s == vercelKv.value
      ensures !old(initialized) && vercelKv.None? ==>
        fresh(s) && s.Valid() && s.entries == map[] && s.faults == [] && s.log == []
    {
      if initialized {
        return kv;
      }
      if vercelKv.Some? {
        s := vercelKv.value;
      } else {
        s := new JobStore.Memory();
      }
      kv := s;
      initialized := true;
    }
  }

  /** `global.taskStorage`, shared by api/start-simple.js and api/process-simple.js. */
  class Globals {
    var taskStorage: JobStore?

    /** Once there, the global store is a `Map`, which accepts every write. */
    ghost predicate Valid()
      reads this, taskStorage
    {
      taskStorage != null ==> taskStorage.Valid() && Healthy(taskStorage.faults)
    }

    constructor ()
      ensures Valid() && taskStorage == null
    {
      taskStorage := null;
    }

    /** `global.taskStorage = global.taskStorage || new Map()`: created on first use, reused after. */
    method TaskStorage() returns (s: JobStore)
      requires Valid()
      modifies this
      ensures Valid() && taskStorage == s
      ensures old(taskStorage) != null ==> s == old(taskStorage)
      ensures old(taskStorage) == null ==>
        fresh(s) && s.Valid() && s.entries == map[] && s.faults == [] && s.log == []
    {
      if taskStorage == null {
        taskStorage := new JobStore.Memory();
      }
      s := taskStorage;
    }
  }

  /** The final `completed` write of a run whose earlier writes climbed to at most 90. */
  method CompleteWrite(store: JobStore, key: string, last: Record, ghost prior: seq<Record>, ghost ceiling: int)
    returns (failure: Option<JsError>, ghost w: seq<Record>)
    requires store.Valid() && Climbing(prior, ceiling) && ceiling <= 90
    requires last.status == Completed && Overwrite(last) && WellFormed(last)
    modifies store
    ensures store.Valid() && store.initial == old(store.initial)
    ensures store.log == old(store.log) + Tagged(key, w)
    ensures failure.Some? ==> w == [] && Climbing(prior, 90)
    ensures failure.None? ==> w == [last] && Lifecycle(prior + [last])
    ensures Healthy(old(store.faults)) ==> failure.None? && Healthy(store.faults)
  {
    w := [];
    var done := store.Set(key, Object(last));
    if done.Failure? {
      ClimbLower(prior, ceiling, 90);
      return Some(done.error), w;
    }
    TaggedSingle(key, last);
    ClimbEnd(prior, ceiling, last);
    w := [last];
    failure := None;
  }

  /**
   * The writes of `rs`, attempted one after another with every failure
   * swallowed, that the backend accepts when it answers as `faults` says.
   */
  function Kept(rs: seq<Record>, faults: seq<Option<JsError>>): (w: seq<Record>)
    ensures |w| <= |rs|
  {
    if rs == [] then []
    else (if NextFault(faults).None? then [rs[0]] else []) + Kept(rs[1..], LaterFaults(faults))
  }

  /** A backend that accepts every write keeps them all. */
  lemma {:induction false} KeptHealthy(rs: seq<Record>, faults: seq<Option<JsError>>)
    requires Healthy(faults)
    ensures Kept(rs, faults) == rs
  {
    if rs != [] {
      KeptHealthy(rs[1..], LaterFaults(faults));
      assert Kept(rs, faults) == [rs[0]] + rs[1..];
    }
  }

  /** Attempting one write and then the others: the first is kept or not on its own. */
  lemma KeptCons(r: Record, rs: seq<Record>, faults: seq<Option<JsError>>)
    ensures Kept([r] + rs, faults) == Kept([r], faults) + Kept(rs, LaterFaults(faults))
  {
    assert ([r] + rs)[1..] == rs;
  }

  /** What is kept is taken from the attempted writes, in order. */
  lemma {:induction false} KeptFrom(rs: seq<Record>, faults: seq<Option<JsError>>)
    ensures forall k :: 0 <= k < |Kept(rs, faults)| ==> Kept(rs, faults)[k] in rs
  {
    if rs != [] {
      KeptFrom(rs[1..], LaterFaults(faults));
      var tail := Kept(rs[1..], LaterFaults(faults));
      forall k | 0 <= k < |Kept(rs, faults)|
        ensures Kept(rs, faults)[k] in rs
      {
        if NextFault(faults).None? && k > 0 {
          assert Kept(rs, faults)[k] == tail[k - 1];
        } else if NextFault(faults).Some? {
          assert Kept(rs, faults)[k] == tail[k];
        }
      }
    }
  }

  /** A write in front of a lifecycle extends it when it is a `processing` step no higher than what follows. */
  lemma LifecycleCons(r: Record, w: seq<Record>)
    requires Lifecycle(w) && Overwrite(r) && WellFormed(r)
    requires w != [] ==> r.status == Processing
    requires w != [] && w[0].status != Failed ==> r.progress.value <= w[0].progress.value
    ensures Lifecycle([r] + w)
  {
    var v := [r] + w;
    forall i | 0 < i < |v| && v[i].status != Failed
      ensures v[i - 1].progress.value <= v[i].progress.value
    {
      assert v[i] == w[i - 1];
    }
  }

  /**
   * Dropping writes keeps a lifecycle a lifecycle: a run whose failed writes
   * are swallowed still leaves a forward sequence of records.
   */
  lemma {:induction false} KeptLifecycle(rs: seq<Record>, faults: seq<Option<JsError>>)
    requires Lifecycle(rs)
    ensures Lifecycle(Kept(rs, faults))
  {
    if rs != [] {
      assert Lifecycle(rs[1..]);
      KeptLifecycle(rs[1..], LaterFaults(faults));
      var tail := Kept(rs[1..], LaterFaults(faults));
      if NextFault(faults).None? {
        if tail != [] {
          KeptFrom(rs[1..], LaterFaults(faults));
          assert tail[0] in rs[1..];
          var j :| 0 <= j < |rs[1..]| && rs[1..][j] == tail[0];
          assert rs[j + 1] == tail[0];
          LifecycleMonotone(rs);
          assert 0 < |rs| - 1;
        }
        LifecycleCons(rs[0], tail);
        assert Kept(rs, faults) == [rs[0]] + tail;
      } else {
        assert Kept(rs, faults) == tail;
      }
    }
  }

  /** A write inside a `try` whose `catch` only logs: `w` is what was written. */
  method Attempt(store: JobStore, key: string, r: Record) returns (ghost w: seq<Record>)
    requires store.Valid()
    modifies store
    ensures store.Valid() && store.initial == old(store.initial)
    ensures store.log == old(store.log) + Tagged(key, w)
    ensures store.faults == LaterFaults(old(store.faults))
    ensures NextFault(old(store.faults)).None? <==> w == [r]
    ensures NextFault(old(store.faults)).Some? <==> w == []
    ensures w == Kept([r], old(store.faults))
  {
    var written := store.Set(key, Object(r));
    TaggedSingle(key, r);
    w := if written.Success? then [r] else [];
  }

  /** Two `initKV` calls in a row yield one store, so a record written through the first is read through the second. */
  method InitTwiceSameStore(m: KvModule, vercelKv: Option<JobStore>, key: string, r: Record)
    returns (got: Option<Stored>)
    requires m.Valid()
    requires m.initialized ==> m.kv.Valid() && m.kv.faults == []
    requires vercelKv.Some? ==> vercelKv.value.Valid() && vercelKv.value.faults == []
    modifies m, m.kv, if vercelKv.Some? then {vercelKv.value} else {}
    ensures m.Valid() && m.initialized
    ensures got == Some(Object(r))
  {
    var a := m.InitKV(vercelKv);
    var b := m.InitKV(vercelKv);
    var _ := a.Set(key, Object(r));
    got := b.Get(key);
  }
}
