// The unit of work of Domain/worker.py together with the repository it wraps.
// The repository is the uuid-keyed store of the in-memory test fake; the
// `_commit` and `rollback` hooks are the fake's (commit raises a flag, rollback
// does nothing to the data). A ghost log records, in order, every scope event
// and every repository call, so that the handlers' ordering can be stated.

module UnitOfWork {
  import opened Records
  import opened Users

  datatype Step =
    | Entered
    | Read(key: string)
    | Created(key: string)
    | Updated(key: string)
    | Deleted(key: string)
    | Committed
    | RolledBack

  /** Every entry is filed under its own key, as the fake's `read(uuid)`
      finds the object whose `uuid` equals the one asked for. */
  predicate WellKeyed(store: map<string, Entity>)
  {
    forall k :: k in store ==> store[k].Key() == k
  }

  /** The events of one handler run: entering the scope, the repository
      calls `body`, the commit if it was reached, and the rollback that
      leaving the scope always performs. */
  function Scope(body: seq<Step>, committed: bool): (t: seq<Step>)
    ensures |t| == |body| + (if committed then 3 else 2)
    ensures t[0] == Entered && t[|t| - 1] == RolledBack
    ensures t[1..|body| + 1] == body
    ensures committed ==> t[|t| - 2] == Committed
  {
    [Entered] + body + (if committed then [Committed] else []) + [RolledBack]
  }

  /** Committing only happens in a scope that reached its last statement:
      a committed scope's commit is the step just before the rollback, and
      no other step of a scope is a commit. */
  lemma {:induction false} CommitIsLastInScope(body: seq<Step>, committed: bool)
    requires Committed !in body
    ensures Committed in Scope(body, committed) <==> committed
    ensures forall i :: 0 <= i < |Scope(body, committed)| - 2 ==> Scope(body, committed)[i] != Committed
  {
    var t := Scope(body, committed);
    forall i | 0 <= i < |t| - 2 ensures t[i] != Committed {
      if 1 <= i <= |body| { assert t[i] == body[i - 1]; }
    }
    if committed {
      assert t[|t| - 2] == Committed;
    } else {
      forall i | 0 <= i < |t| ensures t[i] != Committed {
        if 1 <= i <= |body| { assert t[i] == body[i - 1]; }
      }
    }
  }

  // A scope's trace spelled one appended step at a time, the way the
  // worker's operations extend the log, for bodies of one to three steps.

  lemma ScopeOf1(log0: seq<Step>, s1: Step)
    ensures log0 + Scope([s1], true) == log0 + [Entered] + [s1] + [Committed] + [RolledBack]
    ensures log0 + Scope([s1], false) == log0 + [Entered] + [s1] + [RolledBack]
  {
  }

  lemma ScopeOf2(log0: seq<Step>, s1: Step, s2: Step)
    ensures log0 + Scope([s1, s2], true) == log0 + [Entered] + [s1] + [s2] + [Committed] + [RolledBack]
    ensures log0 + Scope([s1, s2], false) == log0 + [Entered] + [s1] + [s2] + [RolledBack]
  {
  }

  lemma ScopeOf3(log0: seq<Step>, s1: Step, s2: Step, s3: Step)
    ensures log0 + Scope([s1, s2, s3], true) == log0 + [Entered] + [s1] + [s2] + [s3] + [Committed] + [RolledBack]
    ensures log0 + Scope([s1, s2, s3], false) == log0 + [Entered] + [s1] + [s2] + [s3] + [RolledBack]
  {
  }

  class Worker {
    var store: map<string, Entity>
    var committed: bool
    ghost var log: seq<Step>

    ghost predicate Valid()
      reads this
    {
      WellKeyed(store)
    }

    /** A fresh fake worker: an empty repository, nothing committed. */
    constructor ()
      ensures Valid() && store == map[] && !committed && log == []
    {
      store := map[];
      committed := false;
      log := [];
    }

    /** `__enter__`: opens the scope and hands back this very worker. */
    method Enter() returns (me: Worker)
      modifies this`log
      ensures me == this
      ensures log == old(log) + [Entered]
    {
      log := log + [Entered];
      me := this;
    }

    /** `__exit__`: always rolls back, after a commit too, and returns
        nothing, so an exception leaving the scope is not swallowed. */
    method Exit()
      modifies this`log
      ensures log == old(log) + [RolledBack]
    {
      Rollback();
    }

    /** `commit`: delegates to the `_commit` hook exactly once. */
    method Commit()
      modifies this`committed, this`log
      ensures committed
      ensures log == old(log) + [Committed]
    {
      CommitHook();
    }

    /** The fake's `_commit` hook. */
    method CommitHook()
      modifies this`committed, this`log
      ensures committed
      ensures log == old(log) + [Committed]
    {
      committed := true;
      log := log + [Committed];
    }

    /** The fake's `rollback` hook: it leaves the data as it is. */
    method Rollback()
      modifies this`log
      ensures log == old(log) + [RolledBack]
    {
      log := log + [RolledBack];
    }

    /** `db.read`: the entity filed under `key`, `None` when there is none. */
    method Read(key: string) returns (e: Option<Entity>)
      modifies this`log
      ensures e == if key in store then Some(store[key]) else None
      ensures e.Some? && Valid() ==> e.value.Key() == key
      ensures log == old(log) + [Step.Read(key)]
    {
      e := if key in store then Some(store[key]) else None;
      log := log + [Step.Read(key)];
    }

    /** `db.create`: files `e` under its key. */
    method Create(e: Entity)
      modifies this`store, this`log
      ensures store == old(store)[e.Key() := e]
      ensures old(Valid()) ==> Valid()
      ensures log == old(log) + [Created(e.Key())]
    {
      store := store[e.Key() := e];
      log := log + [Created(e.Key())];
    }

    /** `db.update`: files `e` under its key, replacing what was there. */
    method Update(e: Entity)
      modifies this`store, this`log
      ensures store == old(store)[e.Key() := e]
      ensures old(Valid()) ==> Valid()
      ensures log == old(log) + [Updated(e.Key())]
    {
      store := store[e.Key() := e];
      log := log + [Updated(e.Key())];
    }

    /** `db.delete`: removes the entry under `key`; the fake raises when
        there is none. */
    method Delete(key: string) returns (r: Outcome)
      modifies this`store, this`log
      ensures r.Pass? <==> key in old(store)
      ensures r.Fail? ==> r.error == KeyError
      ensures store == old(store) - {key}
      ensures old(Valid()) ==> Valid()
      ensures log == old(log) + [Deleted(key)]
    {
      r := if key in store then Pass else Fail(KeyError);
      store := store - {key};
      log := log + [Deleted(key)];
    }
  }
}
