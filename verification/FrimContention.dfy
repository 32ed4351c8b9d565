/** A FrimMap under contention. Every modification loads the vector, computes a new one from it
    and swaps it in if nobody else has in the meantime; otherwise it starts over from what it
    found there. The version stands for the address of the vector. */
module Frim {
  import opened Wrappers
  import opened FrimVector

  type Key = nat
  type Val = nat
  type Tid = nat

  datatype Op =
    | Insert(key: Key, value: Val)
    | Remove(key: Key)
    | Retain(keep: (Key, Val) -> bool)
    | Replace(vec: seq<(Key, Val)>)

  datatype Cell = Cell(version: nat, vec: seq<(Key, Val)>)

  /** `before` is what `remove` had found when it loaded the vector it works on now. */
  datatype Attempt = Attempt(op: Op, loaded: Cell, before: Option<Val>)

  /** The operations that took effect are remembered in order. */
  datatype State = State(cell: Cell, next: nat, attempts: map<Tid, Attempt>, committed: seq<Op>)

  function Computed(op: Op, vec: seq<(Key, Val)>): seq<(Key, Val)> {
    match op
    case Insert(k, v) => Inserted(vec, k, v)
    case Remove(k) => Removed(vec, k)
    case Retain(keep) => Retained(vec, keep)
    case Replace(new') => new'
  }

  /** What `found` holds once the closure has run: it is not reset before a retry. */
  function Found(a: Attempt): Option<Val> {
    if a.op.Remove? then Lookup(a.loaded.vec, a.op.key).Else(a.before) else None
  }

  datatype Action = Begin(t: Tid, op: Op) | Swap(t: Tid)

  predicate CanBegin(s: State, t: Tid, op: Op) {
    t !in s.attempts && (op.Replace? ==> Unique(op.vec))
  }

  function Begun(s: State, t: Tid, op: Op): State {
    s.(attempts := s.attempts[t := Attempt(op, s.cell, None)])
  }

  /** A replacement is stored unconditionally. */
  predicate Succeeds(s: State, t: Tid) {
    t in s.attempts && (s.attempts[t].loaded.version == s.cell.version || s.attempts[t].op.Replace?)
  }

  function Swapped(s: State, t: Tid): State
    requires t in s.attempts
  {
    var a := s.attempts[t];
    if Succeeds(s, t) then
      State(Cell(s.next, Computed(a.op, a.loaded.vec)), s.next + 1, s.attempts - {t}, s.committed + [a.op])
    else
      s.(attempts := s.attempts[t := Attempt(a.op, s.cell, Found(a))])
  }

  ghost predicate Step(s: State, a: Action, s': State) {
    match a
    case Begin(t, op) => CanBegin(s, t, op) && s' == Begun(s, t, op)
    case Swap(t) => t in s.attempts && s' == Swapped(s, t)
  }

  // ---- What a finite map would do ----

  ghost function Applied(op: Op, m: map<Key, Val>): map<Key, Val> {
    match op
    case Insert(k, v) => m[k := v]
    case Remove(k) => m - {k}
    case Retain(keep) => Kept(m, keep)
    case Replace(vec) => Contents(vec)
  }

  ghost function AppliedAll(ops: seq<Op>): map<Key, Val> {
    if ops == [] then map[] else Applied(ops[|ops| - 1], AppliedAll(ops[..|ops| - 1]))
  }

  lemma ComputedContents(op: Op, vec: seq<(Key, Val)>)
    requires Unique(vec) && (op.Replace? ==> Unique(op.vec))
    ensures Unique(Computed(op, vec))
    ensures Contents(Computed(op, vec)) == Applied(op, Contents(vec))
  {
    match op
    case Insert(k, v) => InsertedContents(vec, k, v);
    case Remove(k) => RemovedContents(vec, k);
    case Retain(keep) => RetainedContents(vec, keep);
    case Replace(_) =>
  }

  ghost predicate Inv(s: State) {
    && s.cell.version < s.next
    && Unique(s.cell.vec)
    && Contents(s.cell.vec) == AppliedAll(s.committed)
    && forall t :: t in s.attempts ==>
         && s.attempts[t].loaded.version < s.next
         && Unique(s.attempts[t].loaded.vec)
         && (s.attempts[t].loaded.version == s.cell.version ==> s.attempts[t].loaded == s.cell)
         && (s.attempts[t].op.Replace? ==> Unique(s.attempts[t].op.vec))
  }

  lemma BeginKept(s: State, t: Tid, op: Op)
    requires Inv(s) && CanBegin(s, t, op)
    ensures Inv(Begun(s, t, op))
  {
  }

  lemma RetryKept(s: State, t: Tid)
    requires Inv(s) && t in s.attempts && !Succeeds(s, t)
    ensures Inv(Swapped(s, t))
  {
  }

  lemma AppliedSnoc(ops: seq<Op>, op: Op)
    ensures AppliedAll(ops + [op]) == Applied(op, AppliedAll(ops))
  {
    assert (ops + [op])[..|ops|] == ops;
  }

  /** A swap that succeeds puts in place what the operation makes of the current contents. */
  lemma CommitKept(s: State, t: Tid)
    requires Inv(s) && Succeeds(s, t)
    ensures Inv(Swapped(s, t))
  {
    var a := s.attempts[t];
    ComputedContents(a.op, a.loaded.vec);
    AppliedSnoc(s.committed, a.op);
  }

  lemma StepKept(s: State, a: Action, s': State)
    requires Inv(s) && Step(s, a, s')
    ensures Inv(s')
  {
    match a
    case Begin(t, op) => BeginKept(s, t, op);
    case Swap(t) => if Succeeds(s, t) { CommitKept(s, t); } else { RetryKept(s, t); }
  }

  ghost predicate Run(run: seq<State>, actions: seq<Action>) {
    && |run| == |actions| + 1
    && run[0] == State(Cell(0, []), 1, map[], [])
    && forall k :: 0 <= k < |actions| ==> Step(run[k], actions[k], run[k + 1])
  }

  lemma {:induction false} RunKept(run: seq<State>, actions: seq<Action>, k: nat)
    requires Run(run, actions) && k < |run|
    ensures Inv(run[k])
  {
    if k > 0 {
      RunKept(run, actions, k - 1);
      StepKept(run[k - 1], actions[k - 1], run[k]);
    }
  }

  /** At every point of every run the vector is the finite map that the committed operations
      make when applied one by one, and no key occurs twice. */
  lemma Linearizable(run: seq<State>, actions: seq<Action>, k: nat)
    requires Run(run, actions) && k < |run|
    ensures Contents(run[k].cell.vec) == AppliedAll(run[k].committed)
    ensures Unique(run[k].cell.vec)
  {
    RunKept(run, actions, k);
  }

  /** What `remove` returns when it commits: the value it took out, if the key was there; if the
      key was not there, whatever an earlier attempt of the same call had seen. So None means the
      key was absent, and the result is the value taken out exactly when the key was there or
      no earlier attempt had seen it. */
  lemma RemoveResult(run: seq<State>, actions: seq<Action>, k: nat, t: Tid)
    requires Run(run, actions) && k < |actions| && actions[k] == Swap(t)
    requires Succeeds(run[k], t) && run[k].attempts[t].op.Remove?
    ensures var a, m := run[k].attempts[t], Contents(run[k].cell.vec);
            && Found(a) == (if a.op.key in m then Some(m[a.op.key]) else a.before)
            && (Found(a).None? ==> a.op.key !in m)
            && (Found(a) == (if a.op.key in m then Some(m[a.op.key]) else None) <==>
                  a.op.key in m || a.before.None?)
  {
    RunKept(run, actions, k);
    ContentsLookup(run[k].cell.vec, run[k].attempts[t].op.key);
  }

  /** What an earlier attempt had seen: in the vector it had loaded the key had that value, and when
      it tried to swap, another operation had been committed since. */
  lemma {:induction false} SeenBefore(run: seq<State>, actions: seq<Action>, k: nat, t: Tid, v: Val) returns (j: nat)
    requires Run(run, actions) && k < |run| && t in run[k].attempts && run[k].attempts[t].before == Some(v)
    ensures run[k].attempts[t].op.Remove?
    ensures j < k && actions[j] == Swap(t) && t in run[j].attempts && run[j].attempts[t].op == run[k].attempts[t].op
    ensures !Succeeds(run[j], t) && run[j].attempts[t].loaded.version != run[j].cell.version
    ensures var m, key := Contents(run[j].attempts[t].loaded.vec), run[k].attempts[t].op.key;
            key in m && m[key] == v
  {
    assert k > 0;
    assert Step(run[k - 1], actions[k - 1], run[k]);
    var s := run[k - 1];
    if actions[k - 1] == Swap(t) && Lookup(s.attempts[t].loaded.vec, s.attempts[t].op.key).Some? {
      ContentsLookup(s.attempts[t].loaded.vec, s.attempts[t].op.key);
      j := k - 1;
    } else {
      j := SeenBefore(run, actions, k - 1, t, v);
    }
  }

  /** Two calls can both return the same value for one removal: the second saw the key, lost the
      race, and found it gone. */
  lemma SomeIsNoProofOfRemoval() returns (run: seq<State>, actions: seq<Action>)
    ensures Run(run, actions) && |actions| == 7
    ensures actions[4] == Swap(1) && Succeeds(run[4], 1) && Found(run[4].attempts[1]) == Some(7)
    ensures actions[6] == Swap(2) && Succeeds(run[6], 2) && Found(run[6].attempts[2]) == Some(7)
    ensures run[6].attempts[2].op == Remove(5) && 5 !in Contents(run[6].cell.vec)
  {
    actions := [Begin(0, Insert(5, 7)), Swap(0), Begin(1, Remove(5)), Begin(2, Remove(5)), Swap(1), Swap(2), Swap(2)];
    var s0 := State(Cell(0, []), 1, map[], []);
    var s1 := Begun(s0, 0, Insert(5, 7));
    var s2 := Swapped(s1, 0);
    assert s2.cell.vec == [(5, 7)];
    var s3 := Begun(s2, 1, Remove(5));
    var s4 := Begun(s3, 2, Remove(5));
    var s5 := Swapped(s4, 1);
    assert s5.cell.vec == [];
    var s6 := Swapped(s5, 2);
    run := [s0, s1, s2, s3, s4, s5, s6, Swapped(s6, 2)];
  }
}
