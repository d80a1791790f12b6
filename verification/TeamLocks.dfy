/**
 Team operation locks (flowgency/jobs/store.py, flowgency/fs/locks.py). A caller
 takes the locks of all its teams in one canonical order; every lock is a lock of
 the caller's process, found by key, followed by a lock on the file. Neither is
 ever waited for by blocking: a failed attempt is repeated, and the process lock
 is given back while the file is busy.
 */
module TeamLocks {
  import opened Sorting

  // How the file system names things: `resolve` makes a path absolute and follows
  // links, `normcase` is the form in which paths are compared, `lockPath` is the
  // lock below a team's root.
  datatype Names<!P, !K> = Names(resolve: P -> P, normcase: P -> K, lockPath: P -> P)

  /** The key under which the lock table files a path. */
  function TableKey<P, K>(names: Names<P, K>, path: P): K {
    names.normcase(names.resolve(path))
  }

  ghost predicate Resolves<P(!new), K>(names: Names<P, K>) {
    forall p :: names.resolve(names.resolve(p)) == names.resolve(p)
  }

  ghost predicate Linear<K(!new)>(le: (K, K) -> bool) {
    TotalOrder(le) && forall a, b :: le(a, b) && le(b, a) ==> a == b
  }

  ghost predicate Increasing<K>(le: (K, K) -> bool, keys: seq<K>) {
    forall i, j :: 0 <= i < j < |keys| ==> le(keys[i], keys[j]) && keys[i] != keys[j]
  }

  // ---- The canonical lock paths ------------------------------------------

  method SortedKeys<K(!new, ==)>(le: (K, K) -> bool, keys: set<K>) returns (sorted: seq<K>)
    requires Linear(le)
    ensures Increasing(le, sorted) && forall k :: k in sorted <==> k in keys
  {
    var rest, found := keys, [];
    while rest != {}
      invariant forall k :: k in keys <==> k in rest || k in found
      invariant forall k :: k in found ==> k !in rest
      invariant forall i, j :: 0 <= i < j < |found| ==> found[i] != found[j]
      decreases rest
    {
      var k :| k in rest;
      found, rest := found + [k], rest - {k};
    }
    SortOrders(le, found);
    sorted := Sort(le, found);
    DistinctAfterSort(found, sorted);
  }

  function LockPath<P, K>(names: Names<P, K>, root: P): P {
    names.resolve(names.lockPath(root))
  }

  /** `path` is the lock path of the last of the roots that share its key. */
  ghost predicate LastRoot<P(!new), K>(names: Names<P, K>, roots: seq<P>, key: K, path: P) {
    exists i :: 0 <= i < |roots| && path == LockPath(names, roots[i]) && names.normcase(path) == key
      && forall j :: i < j < |roots| ==> names.normcase(LockPath(names, roots[j])) != key
  }

  /** One path per distinct lock, in strictly increasing order of the very keys
      the lock table uses. */
  method CanonicalTeamOperationLockPaths<P(!new), K(!new, ==)>(names: Names<P, K>, le: (K, K) -> bool, roots: seq<P>)
    returns (paths: seq<P>)
    requires Linear(le) && Resolves(names)
    ensures Increasing(le, seq(|paths|, i requires 0 <= i < |paths| => TableKey(names, paths[i])))
    ensures forall p :: p in paths ==> LastRoot(names, roots, TableKey(names, p), p)
    ensures forall r :: r in roots ==> exists p :: p in paths && TableKey(names, p) == TableKey(names, names.lockPath(r))
  {
    var unique: map<K, P> := map[];
    for i := 0 to |roots|
      invariant forall k :: k in unique ==> LastRoot(names, roots[..i], k, unique[k])
      invariant forall r :: r in roots[..i] ==> names.normcase(LockPath(names, r)) in unique
    {
      var lockPath := LockPath(names, roots[i]);
      ghost var before := unique;
      unique := unique[names.normcase(lockPath) := lockPath];
      assert roots[..i + 1] == roots[..i] + [roots[i]];
      forall k | k in unique
        ensures LastRoot(names, roots[..i + 1], k, unique[k])
      {
        LastRootStays(names, roots[..i], roots[i], k, unique[k]);
      }
    }
    assert roots[..|roots|] == roots;
    var keys := SortedKeys(le, unique.Keys);
    paths := seq(|keys|, i requires 0 <= i < |keys| && keys[i] in unique => unique[keys[i]]);
    forall i | 0 <= i < |paths|
      ensures TableKey(names, paths[i]) == keys[i] && LastRoot(names, roots, keys[i], paths[i])
    {
      assert keys[i] in keys;
    }
    forall r | r in roots
      ensures exists p :: p in paths && TableKey(names, p) == TableKey(names, names.lockPath(r))
    {
      var k := names.normcase(LockPath(names, r));
      assert k in keys;
      var i :| 0 <= i < |keys| && keys[i] == k;
      assert paths[i] in paths;
    }
  }

  lemma LastRootStays<P(!new), K>(names: Names<P, K>, roots: seq<P>, root: P, key: K, path: P)
    ensures names.normcase(LockPath(names, root)) == key && path == LockPath(names, root) ==>
      LastRoot(names, roots + [root], key, path)
    ensures names.normcase(LockPath(names, root)) != key && LastRoot(names, roots, key, path) ==>
      LastRoot(names, roots + [root], key, path)
  {
    var more := roots + [root];
    assert more[|roots|] == root;
    if LastRoot(names, roots, key, path) && names.normcase(LockPath(names, root)) != key {
      var i :| 0 <= i < |roots| && path == LockPath(names, roots[i]) && names.normcase(path) == key
        && forall j :: i < j < |roots| ==> names.normcase(LockPath(names, roots[j])) != key;
      assert more[i] == roots[i];
      forall j | i < j < |more|
        ensures names.normcase(LockPath(names, more[j])) != key
      {
        if j < |roots| {
          assert more[j] == roots[j];
        }
      }
    }
  }

  // ---- Callers taking their locks ----------------------------------------

  // A caller holds the first `held` of the locks it wants. While `attempting` it
  // also has the process lock of the next one; when `closing` it gives them back.
  datatype Caller<K> = Caller(process: nat, wants: seq<K>, held: nat, attempting: bool, closing: bool)

  type CallerId = nat

  datatype State<K> = State(callers: map<CallerId, Caller<K>>)

  datatype Step<K> =
    | Enter(c: CallerId, process: nat, wants: seq<K>)
    | TakeProcessLock(c: CallerId)
    | TakeFileLock(c: CallerId)
    | GiveUp(c: CallerId)
    | Close(c: CallerId)
    | Release(c: CallerId)
    | Leave(c: CallerId)

  predicate NextLock<K>(c: Caller<K>) {
    !c.closing && c.held < |c.wants|
  }

  predicate HoldsProcessLock<K(==)>(c: Caller<K>, process: nat, k: K)
    requires c.held <= |c.wants|
  {
    c.process == process && (k in c.wants[..c.held] || (c.attempting && NextLock(c) && c.wants[c.held] == k))
  }

  ghost predicate HoldsFile<K, F>(file: K -> F, c: Caller<K>, f: F)
    requires c.held <= |c.wants|
  {
    exists k :: k in c.wants[..c.held] && file(k) == f
  }

  ghost predicate WellFormed<K>(le: (K, K) -> bool, c: Caller<K>) {
    && c.held <= |c.wants| && Increasing(le, c.wants)
    && (c.attempting ==> NextLock(c))
  }

  ghost predicate AllWellFormed<K>(le: (K, K) -> bool, s: State<K>) {
    forall c :: c in s.callers ==> WellFormed(le, s.callers[c])
  }

  /** What keeps `c` from its next step is something `d` has. */
  ghost predicate Waits<K(!new), F>(le: (K, K) -> bool, file: K -> F, s: State<K>, c: CallerId, d: CallerId)
    requires AllWellFormed(le, s)
  {
    && c in s.callers && d in s.callers && NextLock(s.callers[c])
    && var k := s.callers[c].wants[s.callers[c].held];
       if s.callers[c].attempting then HoldsFile(file, s.callers[d], file(k))
       else HoldsProcessLock(s.callers[d], s.callers[c].process, k)
  }

  ghost predicate Waiting<K(!new), F>(le: (K, K) -> bool, file: K -> F, s: State<K>, c: CallerId)
    requires AllWellFormed(le, s)
  {
    exists d :: Waits(le, file, s, c, d)
  }

  ghost predicate Enabled<K(!new), F>(le: (K, K) -> bool, file: K -> F, s: State<K>, step: Step<K>)
    requires AllWellFormed(le, s)
  {
    match step
    case Enter(c, _, wants) => c !in s.callers && Increasing(le, wants)
    case TakeProcessLock(c) =>
      c in s.callers && NextLock(s.callers[c]) && !s.callers[c].attempting && !Waiting(le, file, s, c)
    case TakeFileLock(c) => c in s.callers && s.callers[c].attempting && !Waiting(le, file, s, c)
    case GiveUp(c) => c in s.callers && s.callers[c].attempting && Waiting(le, file, s, c)
    case Close(c) => c in s.callers && !s.callers[c].attempting
    case Release(c) => c in s.callers && s.callers[c].closing && s.callers[c].held > 0
    case Leave(c) => c in s.callers && s.callers[c].closing && s.callers[c].held == 0
  }

  ghost function Next<K(!new), F>(le: (K, K) -> bool, file: K -> F, s: State<K>, step: Step<K>): State<K>
    requires AllWellFormed(le, s) && Enabled(le, file, s, step)
  {
    match step
    case Enter(c, process, wants) => State(s.callers[c := Caller(process, wants, 0, false, false)])
    case TakeProcessLock(c) => State(s.callers[c := s.callers[c].(attempting := true)])
    case TakeFileLock(c) =>
      State(s.callers[c := s.callers[c].(attempting := false, held := s.callers[c].held + 1)])
    case GiveUp(c) => State(s.callers[c := s.callers[c].(attempting := false)])
    case Close(c) => State(s.callers[c := s.callers[c].(closing := true)])
    case Release(c) => State(s.callers[c := s.callers[c].(held := s.callers[c].held - 1)])
    case Leave(c) => State(s.callers - {c})
  }

  lemma StepKeepsForm<K(!new), F>(le: (K, K) -> bool, file: K -> F, s: State<K>, step: Step<K>)
    requires AllWellFormed(le, s) && Enabled(le, file, s, step)
    ensures AllWellFormed(le, Next(le, file, s, step))
  {
  }

  ghost predicate Runs<K(!new), F>(le: (K, K) -> bool, file: K -> F, s: State<K>, steps: seq<Step<K>>)
    requires AllWellFormed(le, s)
    decreases |steps|
  {
    steps == []
    || (Enabled(le, file, s, steps[0])
        && (StepKeepsForm(le, file, s, steps[0]); Runs(le, file, Next(le, file, s, steps[0]), steps[1..])))
  }

  ghost function Exec<K(!new), F>(le: (K, K) -> bool, file: K -> F, s: State<K>, steps: seq<Step<K>>): (t: State<K>)
    requires AllWellFormed(le, s) && Runs(le, file, s, steps)
    ensures AllWellFormed(le, t)
    decreases |steps|
  {
    if steps == [] then s
    else (StepKeepsForm(le, file, s, steps[0]); Exec(le, file, Next(le, file, s, steps[0]), steps[1..]))
  }

  // ---- Nobody waits in a circle ------------------------------------------

  /** Keys stand for the files they name. */
  ghost predicate Injective<K(!new), F>(file: K -> F) {
    forall a, b :: file(a) == file(b) ==> a == b
  }

  /** `c` is behind `d`: its next lock comes earlier, or is the one `d` attempts. */
  ghost predicate Behind<K>(le: (K, K) -> bool, c: Caller<K>, d: Caller<K>)
    requires NextLock(c) && NextLock(d)
  {
    var j, k := c.wants[c.held], d.wants[d.held];
    (le(j, k) && j != k) || (j == k && !c.attempting && d.attempting)
  }

  lemma WaiterIsBehind<K(!new), F>(le: (K, K) -> bool, file: K -> F, s: State<K>, c: CallerId, d: CallerId)
    requires Linear(le) && Injective(file) && AllWellFormed(le, s)
    requires Waits(le, file, s, c, d) && NextLock(s.callers[d])
    ensures Behind(le, s.callers[c], s.callers[d])
  {
    var k, u := s.callers[c].wants[s.callers[c].held], s.callers[d];
    assert WellFormed(le, u);
    if k in u.wants[..u.held] {
      var i :| 0 <= i < u.held && u.wants[i] == k;
      assert le(u.wants[i], u.wants[u.held]);
    }
  }

  ghost predicate Chain<K(!new), F>(le: (K, K) -> bool, file: K -> F, s: State<K>, ids: seq<CallerId>)
    requires AllWellFormed(le, s)
  {
    forall i :: 0 <= i < |ids| - 1 ==> Waits(le, file, s, ids[i], ids[i + 1])
  }

  lemma {:induction false} ChainIsBehind<K(!new), F>(le: (K, K) -> bool, file: K -> F, s: State<K>, ids: seq<CallerId>)
    requires Linear(le) && Injective(file) && AllWellFormed(le, s)
    requires |ids| > 1 && Chain(le, file, s, ids)
    requires ids[|ids| - 1] in s.callers && NextLock(s.callers[ids[|ids| - 1]])
    ensures Waits(le, file, s, ids[0], ids[1])
    ensures Behind(le, s.callers[ids[0]], s.callers[ids[|ids| - 1]])
    decreases |ids|
  {
    assert Waits(le, file, s, ids[0], ids[0 + 1]);
    if |ids| == 2 {
      WaiterIsBehind(le, file, s, ids[0], ids[1]);
    } else {
      var rest := ids[1..];
      forall i | 0 <= i < |rest| - 1
        ensures Waits(le, file, s, rest[i], rest[i + 1])
      {
        assert Waits(le, file, s, ids[i + 1], ids[i + 1 + 1]);
      }
      ChainIsBehind(le, file, s, rest);
      WaiterIsBehind(le, file, s, ids[0], ids[1]);
    }
  }

  /** In every run no callers wait in a cycle of any length; a cycle of one would
      be a caller waiting for a lock it holds. */
  lemma NoWaitCycle<K(!new), F>(le: (K, K) -> bool, file: K -> F, steps: seq<Step<K>>, ids: seq<CallerId>)
    requires Linear(le) && Injective(file)
    requires Runs(le, file, State(map[]), steps) && ids != []
    ensures var s := Exec(le, file, State(map[]), steps);
      !(Chain(le, file, s, ids) && Waits(le, file, s, ids[|ids| - 1], ids[0]))
  {
    var s := Exec(le, file, State(map[]), steps);
    if Chain(le, file, s, ids) && Waits(le, file, s, ids[|ids| - 1], ids[0]) {
      if |ids| > 1 {
        ChainIsBehind(le, file, s, ids);
      }
      WaiterIsBehind(le, file, s, ids[|ids| - 1], ids[0]);
      assert false;
    }
  }

  /** Of any callers that all have a next lock, one is behind no other. */
  lemma {:induction false} Foremost<K(!new)>(le: (K, K) -> bool, s: State<K>, ids: set<CallerId>) returns (m: CallerId)
    requires Linear(le) && ids != {}
    requires forall c :: c in ids ==> c in s.callers && NextLock(s.callers[c])
    ensures m in ids && forall c :: c in ids ==> !Behind(le, s.callers[m], s.callers[c])
    decreases ids
  {
    m :| m in ids;
    if ids - {m} == {} {
      assert ids == {m};
      BehindOrders(le, s.callers[m], s.callers[m], s.callers[m]);
    } else {
      var best := Foremost(le, s, ids - {m});
      var first := m;
      if Behind(le, s.callers[first], s.callers[best]) {
        m := best;
      }
      forall c | c in ids
        ensures !Behind(le, s.callers[m], s.callers[c])
      {
        assert c == first || c in ids - {first};
        BehindOrders(le, s.callers[first], s.callers[best], s.callers[c]);
      }
    }
  }

  lemma BehindOrders<K(!new)>(le: (K, K) -> bool, a: Caller<K>, b: Caller<K>, c: Caller<K>)
    requires Linear(le) && NextLock(a) && NextLock(b) && NextLock(c)
    ensures !Behind(le, a, a)
    ensures Behind(le, a, b) ==> !Behind(le, b, a)
    ensures !Behind(le, a, b) && !Behind(le, b, c) ==> !Behind(le, a, c)
  {
  }

  /** While anyone is inside, someone is not waiting: taking team locks cannot
      bring everything to a halt. */
  lemma SomeoneCanGoOn<K(!new), F>(le: (K, K) -> bool, file: K -> F, steps: seq<Step<K>>)
    requires Linear(le) && Injective(file) && Runs(le, file, State(map[]), steps)
    ensures var s := Exec(le, file, State(map[]), steps);
      s.callers != map[] ==> exists c :: c in s.callers && !Waiting(le, file, s, c)
  {
    var s := Exec(le, file, State(map[]), steps);
    if s.callers != map[] && forall c :: c in s.callers ==> Waiting(le, file, s, c) {
      assert s.callers.Keys != {};
      var m := Foremost(le, s, s.callers.Keys);
      var d :| Waits(le, file, s, m, d);
      WaiterIsBehind(le, file, s, m, d);
      assert false;
    }
  }

  // ---- Mutual exclusion --------------------------------------------------

  ghost predicate Exclusive<K(!new), F(!new)>(le: (K, K) -> bool, file: K -> F, s: State<K>)
    requires AllWellFormed(le, s)
  {
    forall c, d, f :: c in s.callers && d in s.callers && c != d ==>
      !(HoldsFile(file, s.callers[c], f) && HoldsFile(file, s.callers[d], f))
  }

  lemma StepKeepsExclusive<K(!new), F(!new)>(le: (K, K) -> bool, file: K -> F, s: State<K>, step: Step<K>)
    requires AllWellFormed(le, s) && Exclusive(le, file, s) && Enabled(le, file, s, step)
    ensures AllWellFormed(le, Next(le, file, s, step)) && Exclusive(le, file, Next(le, file, s, step))
  {
    StepKeepsForm(le, file, s, step);
    var t := Next(le, file, s, step);
    forall c, f | c in t.callers && HoldsFile(file, t.callers[c], f)
      ensures c in s.callers
      ensures HoldsFile(file, s.callers[c], f) || (step.TakeFileLock? && step.c == c
                && f == file(s.callers[c].wants[s.callers[c].held]))
    {
      var k :| k in t.callers[c].wants[..t.callers[c].held] && file(k) == f;
      if c in s.callers && k !in s.callers[c].wants[..s.callers[c].held] {
        assert t.callers[c].wants[..s.callers[c].held + 1]
          == s.callers[c].wants[..s.callers[c].held] + [s.callers[c].wants[s.callers[c].held]];
      }
    }
    forall c, d, f | c in t.callers && d in t.callers && c != d
      ensures !(HoldsFile(file, t.callers[c], f) && HoldsFile(file, t.callers[d], f))
    {
      if HoldsFile(file, t.callers[c], f) && HoldsFile(file, t.callers[d], f) {
        if HoldsFile(file, s.callers[c], f) {
          assert Waits(le, file, s, d, c);
        } else {
          assert Waits(le, file, s, c, d);
        }
        assert false;
      }
    }
  }

  lemma {:induction false} RunKeepsExclusive<K(!new), F(!new)>(le: (K, K) -> bool, file: K -> F, s: State<K>, steps: seq<Step<K>>)
    requires AllWellFormed(le, s) && Exclusive(le, file, s) && Runs(le, file, s, steps)
    ensures Exclusive(le, file, Exec(le, file, s, steps))
    decreases |steps|
  {
    if steps != [] {
      StepKeepsExclusive(le, file, s, steps[0]);
      RunKeepsExclusive(le, file, Next(le, file, s, steps[0]), steps[1..]);
    }
  }

  /** In every run, no two callers hold the lock of one team at the same time. */
  lemma LocksExclude<K(!new), F(!new)>(le: (K, K) -> bool, file: K -> F, steps: seq<Step<K>>, c: CallerId, d: CallerId, f: F)
    requires Runs(le, file, State(map[]), steps) && c != d
    ensures var s := Exec(le, file, State(map[]), steps);
      c in s.callers && d in s.callers ==> !(HoldsFile(file, s.callers[c], f) && HoldsFile(file, s.callers[d], f))
  {
    RunKeepsExclusive(le, file, State(map[]), steps);
  }

  // ---- Keys that alias one file ------------------------------------------

  /** Distinct keys that name one file, as on a file system that ignores case
      while `normcase` does not, make a caller wait for itself: it holds the
      first lock and attempts the second. */
  lemma AliasWaitsForItself<K(!new), F(!new)>(le: (K, K) -> bool, file: K -> F, a: K, b: K)
    requires Linear(le) && le(a, b) && a != b && file(a) == file(b)
    ensures exists steps ::
      && Runs(le, file, State(map[]), steps)
      && Waits(le, file, Exec(le, file, State(map[]), steps), 0, 0)
  {
    var s0: State<K> := State(map[]);
    var s1 := At(a, b, 0, false);
    var s2 := At(a, b, 0, true);
    var s3 := At(a, b, 1, false);
    var s4 := At(a, b, 1, true);
    assert Next(le, file, s0, Enter(0, 0, [a, b])) == s1;
    assert Next(le, file, s1, TakeProcessLock(0)) == s2;
    assert [a, b][..1] == [a];
    assert Next(le, file, s2, TakeFileLock(0)) == s3;
    assert Next(le, file, s3, TakeProcessLock(0)) == s4;
    assert a in s4.callers[0].wants[..1] && file(a) == file(b);
    assert Waits(le, file, s4, 0, 0);
    assert Runs(le, file, s4, []);
    var r3 := Prepend(le, file, s3, TakeProcessLock(0), [], s4);
    var r2 := Prepend(le, file, s2, TakeFileLock(0), r3, s4);
    var r1 := Prepend(le, file, s1, TakeProcessLock(0), r2, s4);
    var r0 := Prepend(le, file, s0, Enter(0, 0, [a, b]), r1, s4);
  }

  function At<K>(a: K, b: K, held: nat, attempting: bool): State<K> {
    State(map[0 := Caller(0, [a, b], held, attempting, false)])
  }

  lemma Prepend<K(!new), F>(le: (K, K) -> bool, file: K -> F, s: State<K>, step: Step<K>, rest: seq<Step<K>>, t: State<K>)
    returns (steps: seq<Step<K>>)
    requires AllWellFormed(le, s) && Enabled(le, file, s, step) && AllWellFormed(le, Next(le, file, s, step))
    requires Runs(le, file, Next(le, file, s, step), rest) && Exec(le, file, Next(le, file, s, step), rest) == t
    ensures Runs(le, file, s, steps) && Exec(le, file, s, steps) == t
  {
    steps := [step] + rest;
    assert steps[1..] == rest;
  }
}
