/**
 * The mutation journal: entries in memory and on disk, their states, and the reverse rollback. The
 * system that is mutated is any state with mutations that return an undo.
 */
module Journal {
  import opened Bytes

  type Id = string

  datatype EntryState = Pending | Applied | RolledBack

  datatype Entry<U> = Entry(id: Id, undo: U, state: EntryState)

  /** `mutate` fails or gives the new state and how to undo it; `run` executes an undo, which may fail half-way. */
  datatype Env<!S, !Q, !U> = Env(mutate: (S, Q) -> Option<(S, U)>, run: (S, U) -> (S, bool))

  /** Run right after its mutation, an undo succeeds and gives the old state back. */
  ghost predicate UndoInverts<S(!new), Q(!new), U(!new)>(env: Env<S, Q, U>) {
    forall s: S, q: Q :: env.mutate(s, q).Some? ==> env.run(env.mutate(s, q).value.0, env.mutate(s, q).value.1) == (s, true)
  }

  // ----- The log -----

  /** The journal object and the file it persists to. */
  datatype Log<U> = Log(entries: seq<Entry<U>>, file: seq<Entry<U>>)

  predicate Mutates(st: EntryState) {
    st == Pending || st == Applied
  }

  function Outstanding<U>(es: seq<Entry<U>>): (out: seq<Entry<U>>)
    ensures forall i :: 0 <= i < |out| ==> Mutates(out[i].state)
  {
    if es == [] then []
    else (if Mutates(es[0].state) then [es[0]] else []) + Outstanding(es[1..])
  }

  /** The first entry with the id gets the state; none if there is no such entry. */
  function Marked<U>(es: seq<Entry<U>>, id: Id, st: EntryState): (r: Option<seq<Entry<U>>>)
    ensures r.Some? ==> |r.value| == |es| && forall i :: 0 <= i < |es| ==> r.value[i].id == es[i].id
  {
    if es == [] then None
    else if es[0].id == id then Some([es[0].(state := st)] + es[1..])
    else
      match Marked(es[1..], id, st)
      case None => None
      case Some(t) => Some([es[0]] + t)
  }

  function Persist<U>(l: Log<U>, disk: bool): Log<U> {
    if disk then l.(file := l.entries) else l
  }

  /** The entry is in memory even if it could not be persisted; the answer says whether it was. */
  function AddEntry<U>(l: Log<U>, id: Id, undo: U, disk: bool): (Log<U>, bool) {
    (Persist(l.(entries := l.entries + [Entry(id, undo, Pending)]), disk), disk)
  }

  function MarkEntry<U>(l: Log<U>, id: Id, st: EntryState, disk: bool): (Log<U>, bool) {
    match Marked(l.entries, id, st)
    case None => (l, false)
    case Some(es) => (Persist(l.(entries := es), disk), disk)
  }

  /** A new process reads what was persisted. */
  function Restart<U>(l: Log<U>): Log<U> {
    Log(l.file, l.file)
  }

  predicate Distinct<U>(es: seq<Entry<U>>) {
    forall i, j :: 0 <= i < j < |es| ==> es[i].id != es[j].id
  }

  // ----- Rollback -----

  /** `runs` is a history: every undo that was executed, in order. */
  datatype Rolled<S, U> = Rolled(log: Log<U>, sys: S, count: nat, err: bool, runs: seq<U>)

  /** Goes through `out[..k]` from its end. Only the first failed undo is skipped; later ones are marked all the same. */
  function RollFrom<S, Q, U>(env: Env<S, Q, U>, out: seq<Entry<U>>, k: nat, r: Rolled<S, U>, disk: bool): Rolled<S, U>
    requires k <= |out|
    decreases k
  {
    if k == 0 then r
    else
      var e := out[k - 1];
      var (s, ok) := env.run(r.sys, e.undo);
      var ran := r.(sys := s, runs := r.runs + [e.undo]);
      if !ok && !r.err then RollFrom(env, out, k - 1, ran.(err := true), disk)
      else
        var (l, marked) := MarkEntry(r.log, e.id, RolledBack, disk);
        RollFrom(env, out, k - 1, ran.(log := l, count := r.count + 1, err := r.err || !marked), disk)
  }

  function RollbackAll<S, Q, U>(env: Env<S, Q, U>, l: Log<U>, s: S, disk: bool): Rolled<S, U> {
    var out := Outstanding(l.entries);
    RollFrom(env, out, |out|, Rolled(l, s, 0, false, []), disk)
  }

  // ----- Marking one entry -----

  lemma {:induction false} OutstandingIds<U>(es: seq<Entry<U>>, k: nat)
    requires k < |Outstanding(es)|
    ensures exists i :: 0 <= i < |es| && es[i] == Outstanding(es)[k]
  {
    if Mutates(es[0].state) && k == 0 {
      assert es[0] == Outstanding(es)[0];
    } else {
      var d := if Mutates(es[0].state) then 1 else 0;
      OutstandingIds(es[1..], k - d);
      var i :| 0 <= i < |es[1..]| && es[1..][i] == Outstanding(es[1..])[k - d];
      assert es[i + 1] == Outstanding(es)[k];
    }
  }

  lemma CutShifts<T>(x: T, rest: seq<T>, k: nat)
    requires k < |rest|
    ensures var all := [x] + rest; all[..k + 1] + all[k + 2..] == [x] + (rest[..k] + rest[k + 1..])
  {
  }

  lemma MarkHead<U>(es: seq<Entry<U>>)
    requires es != [] && Mutates(es[0].state)
    ensures Outstanding(es) == [es[0]] + Outstanding(es[1..])
    ensures var m := Marked(es, es[0].id, RolledBack); m.Some? && Outstanding(m.value) == Outstanding(es[1..])
  {
    assert ([es[0].(state := RolledBack)] + es[1..])[1..] == es[1..];
  }

  lemma MarkTail<U>(es: seq<Entry<U>>, id: Id)
    requires es != [] && es[0].id != id && Marked(es[1..], id, RolledBack).Some?
    ensures var d := if Mutates(es[0].state) then [es[0]] else []; var t := Marked(es[1..], id, RolledBack).value;
            && Outstanding(es) == d + Outstanding(es[1..])
            && Marked(es, id, RolledBack).Some? && Outstanding(Marked(es, id, RolledBack).value) == d + Outstanding(t)
  {
    var t := Marked(es[1..], id, RolledBack).value;
    assert ([es[0]] + t)[1..] == t;
  }

  lemma OutstandingCons<U>(es: seq<Entry<U>>)
    ensures es == [] ==> Outstanding(es) == []
    ensures es != [] ==> Outstanding(es) == (if Mutates(es[0].state) then [es[0]] else []) + Outstanding(es[1..])
  {
  }

  lemma DistinctTail<U>(es: seq<Entry<U>>, k: nat)
    requires Distinct(es) && es != [] && k < |Outstanding(es[1..])|
    ensures Distinct(es[1..]) && es[0].id != Outstanding(es[1..])[k].id
  {
    OutstandingIds(es[1..], k);
  }

  /** Marking the k-th outstanding entry takes exactly that one out. */
  lemma {:induction false} MarkTakesOut<U>(es: seq<Entry<U>>, k: nat)
    requires Distinct(es) && k < |Outstanding(es)|
    ensures var out := Outstanding(es); var m := Marked(es, out[k].id, RolledBack);
            m.Some? && Outstanding(m.value) == out[..k] + out[k + 1..]
    decreases |es|
  {
    OutstandingCons(es);
    hide Outstanding, Marked, Distinct;
    var out, rest := Outstanding(es), Outstanding(es[1..]);
    if Mutates(es[0].state) && k == 0 {
      MarkHead(es);
      assert out[1..] == rest && out[..0] + rest == rest;
    } else if Mutates(es[0].state) {
      assert out[k] == rest[k - 1];
      DistinctTail(es, k - 1);
      MarkTakesOut(es[1..], k - 1);
      MarkTail(es, out[k].id);
      CutShifts(es[0], rest, k - 1);
    } else {
      assert out == rest;
      DistinctTail(es, k);
      MarkTakesOut(es[1..], k);
      MarkTail(es, out[k].id);
      assert [] + (rest[..k] + rest[k + 1..]) == rest[..k] + rest[k + 1..];
    }
  }

  lemma MarkKeepsDistinct<U>(es: seq<Entry<U>>, id: Id, st: EntryState)
    requires Distinct(es) && Marked(es, id, st).Some?
    ensures Distinct(Marked(es, id, st).value)
  {
  }

  // ----- What a rollback leaves -----

  /** The undos of `out[..k]` in the order they are run. */
  function Backwards<U>(out: seq<Entry<U>>, k: nat): (us: seq<U>)
    requires k <= |out|
    ensures |us| == k && forall i :: 0 <= i < k ==> us[i] == out[k - 1 - i].undo
  {
    if k == 0 then [] else [out[k - 1].undo] + Backwards(out, k - 1)
  }

  /** The entry whose undo is the first to fail, going backwards. */
  function FirstFailure<S, Q, U>(env: Env<S, Q, U>, out: seq<Entry<U>>, k: nat, s: S): (r: Option<nat>)
    requires k <= |out|
    ensures r.Some? ==> r.value < k
    decreases k
  {
    if k == 0 then None
    else
      var (t, ok) := env.run(s, out[k - 1].undo);
      if !ok then Some(k - 1) else FirstFailure(env, out, k - 1, t)
  }

  /** The outstanding entries before the turn for `out[..k]`: those, and the one that was skipped. */
  ghost predicate Rolling<U>(es: seq<Entry<U>>, out: seq<Entry<U>>, k: nat, kept: seq<Entry<U>>) {
    Distinct(es) && k <= |out| && Outstanding(es) == out[..k] + kept
  }

  lemma MarkRolls<U>(es: seq<Entry<U>>, out: seq<Entry<U>>, k: nat, kept: seq<Entry<U>>)
    requires Rolling(es, out, k, kept) && 0 < k
    ensures var m := Marked(es, out[k - 1].id, RolledBack); m.Some? && Rolling(m.value, out, k - 1, kept)
  {
    assert Outstanding(es)[k - 1] == out[k - 1];
    MarkTakesOut(es, k - 1);
    MarkKeepsDistinct(es, out[k - 1].id, RolledBack);
    hide Outstanding, Marked, Distinct;
    assert (out[..k] + kept)[..k - 1] == out[..k - 1] && (out[..k] + kept)[k..] == kept;
  }

  /** What the rest of a rollback does, from any point on. */
  lemma {:induction false} RollExact<S, Q, U>(env: Env<S, Q, U>, out: seq<Entry<U>>, k: nat, r: Rolled<S, U>, kept: seq<Entry<U>>)
    requires Rolling(r.log.entries, out, k, kept) && r.err == (kept != [])
    ensures var f := RollFrom(env, out, k, r, true); var first := FirstFailure(env, out, k, r.sys);
            && Distinct(f.log.entries)
            && Outstanding(f.log.entries) == (if r.err || first.None? then kept else [out[first.value]])
            && f.err == (r.err || first.Some?)
            && f.count == r.count + k - (if !r.err && first.Some? then 1 else 0)
            && f.runs == r.runs + Backwards(out, k)
            && (r.log.file == r.log.entries ==> f.log.file == f.log.entries)
    decreases k
  {
    hide Distinct, Outstanding, Marked;
    if k == 0 {
      assert out[..0] + kept == kept && r.runs + [] == r.runs;
    } else {
      var e := out[k - 1];
      var (s, ok) := env.run(r.sys, e.undo);
      var ran := r.(sys := s, runs := r.runs + [e.undo]);
      assert r.runs + [e.undo] + Backwards(out, k - 1) == r.runs + ([e.undo] + Backwards(out, k - 1));
      if !ok && !r.err {
        assert out[..k] + kept == out[..k - 1] + [e];
        RollExact(env, out, k - 1, ran.(err := true), [e]);
      } else {
        MarkRolls(r.log.entries, out, k, kept);
        var l := MarkEntry(r.log, e.id, RolledBack, true).0;
        RollExact(env, out, k - 1, ran.(log := l, count := r.count + 1), kept);
      }
    }
  }

  /**
   * A rollback runs every outstanding undo once, in reverse order. Afterwards nothing is outstanding
   * but the entry whose undo was the first to fail; entries whose undos failed after that one are
   * marked rolled back like the others.
   */
  lemma RollbackIsExact<S, Q, U>(env: Env<S, Q, U>, l: Log<U>, s: S)
    requires Distinct(l.entries)
    ensures var out := Outstanding(l.entries); var r := RollbackAll(env, l, s, true);
            var first := FirstFailure(env, out, |out|, s);
            && r.runs == Backwards(out, |out|)
            && Outstanding(r.log.entries) == (if first.None? then [] else [out[first.value]])
            && r.err == first.Some? && r.count == |out| - (if first.Some? then 1 else 0)
            && (l.file == l.entries ==> r.log.file == r.log.entries)
  {
    var out := Outstanding(l.entries);
    assert out[..|out|] + [] == out;
    RollExact(env, out, |out|, Rolled(l, s, 0, false, []), []);
    hide RollFrom, FirstFailure, Backwards;
    assert [] + Backwards(out, |out|) == Backwards(out, |out|);
  }

  // ----- Which failed undos are remembered -----

  /** The entries whose undo fails, in the order of the rollback. */
  function FailedUndos<S, Q, U>(env: Env<S, Q, U>, out: seq<Entry<U>>, k: nat, s: S): (fs: seq<nat>)
    requires k <= |out|
    ensures forall i :: 0 <= i < |fs| ==> fs[i] < k
    decreases k
  {
    if k == 0 then []
    else
      var (t, ok) := env.run(s, out[k - 1].undo);
      (if ok then [] else [k - 1]) + FailedUndos(env, out, k - 1, t)
  }

  lemma {:induction false} FirstOfFailed<S, Q, U>(env: Env<S, Q, U>, out: seq<Entry<U>>, k: nat, s: S)
    requires k <= |out|
    ensures var fs := FailedUndos(env, out, k, s);
            && FirstFailure(env, out, k, s) == (if fs == [] then None else Some(fs[0]))
            && (|fs| > 1 ==> fs[1] < fs[0])
    decreases k
  {
    if k > 0 {
      FirstOfFailed(env, out, k - 1, env.run(s, out[k - 1].undo).0);
    }
  }

  lemma {:induction false} OutstandingDistinct<U>(es: seq<Entry<U>>)
    requires Distinct(es)
    ensures Distinct(Outstanding(es))
  {
    if es != [] {
      OutstandingDistinct(es[1..]);
      OutstandingCons(es);
      var rest := Outstanding(es[1..]);
      forall k | 0 <= k < |rest| ensures rest[k].id != es[0].id {
        DistinctTail(es, k);
      }
      hide Outstanding;
    }
  }

  /** A rollback remembers every failed undo exactly if fewer than two fail. */
  lemma FailedStayExactly<S, Q, U>(env: Env<S, Q, U>, l: Log<U>, s: S)
    requires Distinct(l.entries)
    ensures var out := Outstanding(l.entries); var fs := FailedUndos(env, out, |out|, s);
            var left := Outstanding(RollbackAll(env, l, s, true).log.entries);
            (forall i :: 0 <= i < |fs| ==> out[fs[i]] in left) <==> |fs| < 2
  {
    var out := Outstanding(l.entries);
    RollbackIsExact(env, l, s);
    FirstOfFailed(env, out, |out|, s);
    OutstandingDistinct(l.entries);
    hide RollbackAll, FirstFailure, Outstanding;
    var fs := FailedUndos(env, out, |out|, s);
    if |fs| > 1 {
      assert out[fs[1]].id != out[fs[0]].id;
    }
  }

  /** A system on which no undo works. */
  function Stuck<S, Q, U>(): Env<S, Q, U> {
    Env((s: S, q: Q) => None, (s: S, u: U) => (s, false))
  }

  /** Two entries whose undos both fail: the later one stays outstanding, the earlier one is marked rolled back. */
  lemma SecondFailureIsForgotten<S, Q, U>(a: Id, b: Id, u: U, v: U, s: S)
    requires a != b
    ensures var es := [Entry(a, u, Applied), Entry(b, v, Applied)]; var r := RollbackAll(Stuck<S, Q, U>(), Log(es, es), s, true);
            && r.runs == [v, u] && r.err && r.sys == s
            && r.log.entries == r.log.file == [Entry(a, u, RolledBack), Entry(b, v, Applied)]
  {
    var env, x, y := Stuck<S, Q, U>(), Entry(a, u, Applied), Entry(b, v, Applied);
    var es := [x, y];
    assert es[1..] == [y] && [y][1..] == [] && Outstanding([y]) == [y] && Outstanding(es) == es;
    var r0 := Rolled(Log(es, es), s, 0, false, []);
    var r1 := r0.(runs := [] + [v], err := true);
    assert RollFrom(env, es, 2, r0, true) == RollFrom(env, es, 1, r1, true);
    var marked := [x.(state := RolledBack)] + es[1..];
    assert MarkEntry(r1.log, a, RolledBack, true) == (Log(marked, marked), true);
    var r2 := r1.(runs := [v] + [u], log := Log(marked, marked), count := 1);
    assert RollFrom(env, es, 1, r1, true) == RollFrom(env, es, 0, r2, true) == r2;
  }

  // ----- The start state comes back -----

  /** Mutations one after the other: the state they lead to, and their undos in order. */
  function Mutated<S, Q, U>(env: Env<S, Q, U>, s: S, qs: seq<Q>): Option<(S, seq<U>)> {
    if qs == [] then Some((s, []))
    else
      match Mutated(env, s, qs[..|qs| - 1])
      case None => None
      case Some((t, us)) =>
        match env.mutate(t, qs[|qs| - 1])
        case None => None
        case Some((t', u)) => Some((t', us + [u]))
  }

  ghost predicate Undoes<U>(out: seq<Entry<U>>, us: seq<U>) {
    |out| == |us| && forall i :: 0 <= i < |us| ==> out[i].undo == us[i]
  }

  /** Undone in reverse order, mutations lead back to where they began, and no undo fails. */
  lemma {:induction false} BackToStartFrom<S(!new), Q(!new), U(!new)>(env: Env<S, Q, U>, s0: S, qs: seq<Q>, out: seq<Entry<U>>, k: nat, r: Rolled<S, U>)
    requires UndoInverts(env) && Mutated(env, s0, qs).Some? && k <= |out| && Undoes(out[..k], Mutated(env, s0, qs).value.1)
    requires r.sys == Mutated(env, s0, qs).value.0
    ensures FirstFailure(env, out, k, r.sys).None? && RollFrom(env, out, k, r, true).sys == s0
    decreases |qs|
  {
    if qs != [] {
      var pre := qs[..|qs| - 1];
      var (t, us) := Mutated(env, s0, pre).value;
      var u := env.mutate(t, qs[|qs| - 1]).value.1;
      var e := out[k - 1];
      assert out[..k][k - 1] == e && e.undo == u;
      assert env.run(r.sys, u) == (t, true);
      assert forall i :: 0 <= i < k - 1 ==> out[..k - 1][i] == out[..k][i];
      var (l, marked) := MarkEntry(r.log, e.id, RolledBack, true);
      hide Marked, UndoInverts;
      BackToStartFrom(env, s0, pre, out, k - 1,
                      r.(sys := t, runs := r.runs + [e.undo], log := l, count := r.count + 1, err := r.err || !marked));
    }
  }

  /**
   * If each undo inverts its mutation, a rollback from any journal whose outstanding entries are the
   * undos of the mutations made brings the system back to its state before the first of them, and
   * leaves nothing outstanding.
   */
  lemma RollbackRestoresStart<S(!new), Q(!new), U(!new)>(env: Env<S, Q, U>, l: Log<U>, s0: S, qs: seq<Q>)
    requires UndoInverts(env) && Distinct(l.entries)
    requires Mutated(env, s0, qs).Some? && Undoes(Outstanding(l.entries), Mutated(env, s0, qs).value.1)
    ensures var r := RollbackAll(env, l, Mutated(env, s0, qs).value.0, true);
            && r.sys == s0 && !r.err && r.count == |qs|
            && Outstanding(r.log.entries) == [] && (l.file == l.entries ==> r.log.file == r.log.entries)
  {
    var (s, us) := Mutated(env, s0, qs).value;
    var out := Outstanding(l.entries);
    assert out[..|out|] == out;
    BackToStartFrom(env, s0, qs, out, |out|, Rolled(l, s, 0, false, []));
    RollbackIsExact(env, l, s);
    MutatedCount(env, s0, qs);
  }

  lemma {:induction false} MutatedCount<S, Q, U>(env: Env<S, Q, U>, s: S, qs: seq<Q>)
    requires Mutated(env, s, qs).Some?
    ensures |Mutated(env, s, qs).value.1| == |qs|
    decreases |qs|
  {
    if qs != [] {
      MutatedCount(env, s, qs[..|qs| - 1]);
    }
  }
}
