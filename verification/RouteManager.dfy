/**
 * The journal object, and the manager that mutates the network configuration and journals each
 * mutation. The manager mutates first and journals second.
 */
module RouteManager {
  import opened Bytes
  import opened J = Journal

  // ----- The journal object -----

  /** The first entry with the id is the one that is marked. */
  lemma {:induction false} MarkedAt<U>(es: seq<Entry<U>>, i: nat, id: Id, st: EntryState)
    requires i <= |es| && forall k :: 0 <= k < i ==> es[k].id != id
    ensures i == |es| ==> Marked(es, id, st).None?
    ensures i < |es| && es[i].id == id ==> Marked(es, id, st) == Some(es[i := es[i].(state := st)])
    decreases i
  {
    if i == 0 {
      assert es != [] ==> [es[0].(state := st)] + es[1..] == es[0 := es[0].(state := st)];
    } else {
      MarkedAt(es[1..], i - 1, id, st);
      assert i < |es| ==> [es[0]] + es[1..][i - 1 := es[i].(state := st)] == es[i := es[i].(state := st)];
    }
  }

  class JournalFile<!U> {
    var entries: seq<Entry<U>>
    var file: seq<Entry<U>>

    ghost function View(): Log<U>
      reads this
    {
      Log(entries, file)
    }

    /** Opens what an earlier process persisted; a new journal is an empty file. */
    constructor (file: seq<Entry<U>>)
      ensures View() == Log(file, file)
    {
      this.entries, this.file := file, file;
    }

    method Save(disk: bool) returns (ok: bool)
      modifies this`file
      ensures ok == disk && View() == Persist(old(View()), disk)
    {
      if disk {
        file := entries;
      }
      return disk;
    }

    method Add(id: Id, undo: U, disk: bool) returns (ok: bool)
      modifies this
      ensures (View(), ok) == AddEntry(old(View()), id, undo, disk)
    {
      entries := entries + [Entry(id, undo, Pending)];
      ok := Save(disk);
    }

    method MarkState(id: Id, st: EntryState, disk: bool) returns (ok: bool)
      modifies this
      ensures (View(), ok) == MarkEntry(old(View()), id, st, disk)
    {
      var i := 0;
      while i < |entries|
        invariant 0 <= i <= |entries| && forall k :: 0 <= k < i ==> entries[k].id != id
      {
        if entries[i].id == id {
          MarkedAt(entries, i, id, st);
          entries := entries[i := entries[i].(state := st)];
          ok := Save(disk);
          return;
        }
        i := i + 1;
      }
      MarkedAt(entries, i, id, st);
      return false;
    }

    method OutstandingEntries() returns (out: seq<Entry<U>>)
      ensures out == Outstanding(entries)
    {
      out := [];
      assert entries[0..] == entries;
      for i := 0 to |entries|
        invariant Outstanding(entries) == out + Outstanding(entries[i..])
      {
        assert entries[i..][1..] == entries[i + 1..];
        var e := entries[i];
        if Mutates(e.state) {
          out := out + [e];
        }
      }
    }

    /** The reverse loop over the outstanding entries does what `J.RollbackAll` says. */
    method RollbackAll<S, Q>(host: Host<S, Q, U>, disk: bool) returns (rolled: nat, failed: bool)
      modifies this, host`sys, host`runs
      ensures var r := J.RollbackAll(host.env, old(View()), old(host.sys), disk);
              && View() == r.log && host.sys == r.sys && rolled == r.count && failed == r.err
              && host.runs == old(host.runs) + r.runs
    {
      var out := OutstandingEntries();
      rolled, failed := 0, false;
      var i := |out|;
      ghost var runs: seq<U> := [];
      assert host.runs + runs == host.runs;
      while i > 0
        invariant 0 <= i <= |out| && host.runs == old(host.runs) + runs
        invariant J.RollbackAll(host.env, old(View()), old(host.sys), disk)
                  == RollFrom(host.env, out, i, Rolled(View(), host.sys, rolled, failed, runs), disk)
      {
        i := i - 1;
        var e := out[i];
        var ok := host.Run(e.undo);
        runs := runs + [e.undo];
        if !ok && !failed {
          failed := true;
          continue;
        }
        var marked := MarkState(e.id, RolledBack, disk);
        if !marked && !failed {
          failed := true;
        }
        rolled := rolled + 1;
      }
    }
  }

  /** The system under the manager. */
  class Host<!S, !Q, !U> {
    const env: Env<S, Q, U>
    var sys: S
    ghost var made: seq<Q>   // history: the mutations that were made
    ghost var runs: seq<U>   // history: the undos that were run

    constructor (env: Env<S, Q, U>, sys: S)
      ensures this.env == env && this.sys == sys && made == [] && runs == []
    {
      this.env, this.sys, made, runs := env, sys, [], [];
    }

    method Mutate(q: Q) returns (undo: Option<U>)
      modifies this`sys, this`made
      ensures made == if undo.None? then old(made) else old(made) + [q]
      ensures env.mutate(old(sys), q) == (if undo.None? then None else Some((sys, undo.value)))
      ensures undo.None? ==> sys == old(sys)
    {
      match env.mutate(sys, q)
      case None =>
        undo := None;
      case Some((t, u)) =>
        sys := t;
        made := made + [q];
        undo := Some(u);
    }

    method Run(u: U) returns (ok: bool)
      modifies this`sys, this`runs
      ensures (sys, ok) == env.run(old(sys), u) && runs == old(runs) + [u]
    {
      var (t, b) := env.run(sys, u);
      sys, ok := t, b;
      runs := runs + [u];
    }
  }

  // ----- Applying a desired state -----

  type Ip = seq<byte>

  /** A default route is one to all addresses of IPv4 or of IPv6. */
  datatype Request =
    | SetIp(adapter: string, ip: Ip, prefixLen: int)
    | AddRoute(v6: bool, adapter: string, metric: int)
    | SetDns(name: string, servers: seq<Ip>)

  datatype Desired = Desired(adapter: string, ip: Ip, prefixLen: int, metric: int, dns: seq<Ip>, rewritePhysical: bool)

  /** The mutations before the interfaces are listed. */
  function TunnelRequests(d: Desired): seq<Request> {
    [SetIp(d.adapter, d.ip, d.prefixLen), AddRoute(false, d.adapter, d.metric), AddRoute(true, d.adapter, d.metric)]
    + (if d.dns != [] then [SetDns(d.adapter, d.dns)] else [])
  }

  /** One DNS rewrite for every other interface. */
  function PhysicalRequests(d: Desired, ifaces: seq<string>): seq<Request> {
    if ifaces == [] then []
    else (if ifaces[0] == d.adapter then [] else [SetDns(ifaces[0], d.dns)]) + PhysicalRequests(d, ifaces[1..])
  }

  function Requests(d: Desired, ifaces: Option<seq<string>>): seq<Request> {
    TunnelRequests(d) + (if d.rewritePhysical && ifaces.Some? then PhysicalRequests(d, ifaces.value) else [])
  }

  /** `rs` sets the servers once for each interface that is not the adapter, in order, and does nothing else. */
  ghost predicate DnsOfOthers(d: Desired, ifaces: seq<string>, rs: seq<Request>) {
    exists at: seq<nat> :: Picks(d, ifaces, rs, at)
  }

  /** `at` says which interface each request is for. */
  predicate Picks(d: Desired, ifaces: seq<string>, rs: seq<Request>, at: seq<nat>) {
    Rising(at) && ForOthers(d, ifaces, at) && Sets(d, ifaces, rs, at)
  }

  predicate Rising(at: seq<nat>) {
    forall i, j :: 0 <= i < j < |at| ==> at[i] < at[j]
  }

  predicate ForOthers(d: Desired, ifaces: seq<string>, at: seq<nat>) {
    forall k :: 0 <= k < |ifaces| ==> (k in at <==> ifaces[k] != d.adapter)
  }

  predicate Sets(d: Desired, ifaces: seq<string>, rs: seq<Request>, at: seq<nat>) {
    |at| == |rs| && forall i :: 0 <= i < |at| ==> at[i] < |ifaces| && rs[i] == SetDns(ifaces[at[i]], d.dns)
  }

  /**
   * What a successful `Apply` has done, in order: the adapter's address, the default routes of IPv4 and of
   * IPv6, the tunnel's DNS servers if there are any, and with the physical rewrite those servers once on
   * each other interface.
   */
  ghost predicate AsDesired(d: Desired, ifaces: Option<seq<string>>, rs: seq<Request>) {
    var n := if d.dns != [] then 4 else 3;
    && n <= |rs|
    && rs[0] == SetIp(d.adapter, d.ip, d.prefixLen)
    && rs[1] == AddRoute(false, d.adapter, d.metric) && rs[2] == AddRoute(true, d.adapter, d.metric)
    && (d.dns != [] ==> rs[3] == SetDns(d.adapter, d.dns))
    && (if d.rewritePhysical then ifaces.Some? && DnsOfOthers(d, ifaces.value, rs[n..]) else |rs| == n)
  }

  /** The same places in a list with one more element in front. */
  function Shifted(at: seq<nat>): (r: seq<nat>)
    ensures |r| == |at| && forall i :: 0 <= i < |at| ==> r[i] == at[i] + 1
  {
    seq(|at|, i requires 0 <= i < |at| => at[i] + 1)
  }

  lemma ShiftedHas(at: seq<nat>, k: nat)
    ensures k in Shifted(at) <==> 0 < k && k - 1 in at
  {
    if 0 < k && k - 1 in at {
      var i :| 0 <= i < |at| && at[i] == k - 1;
      assert Shifted(at)[i] == k;
    }
  }

  lemma OthersShift(d: Desired, ifaces: seq<string>, at: seq<nat>)
    requires ifaces != [] && ForOthers(d, ifaces[1..], at)
    ensures ForOthers(d, ifaces, (if ifaces[0] == d.adapter then [] else [0]) + Shifted(at))
  {
    forall k | 0 <= k < |ifaces| ensures k in (if ifaces[0] == d.adapter then [] else [0]) + Shifted(at) <==> ifaces[k] != d.adapter {
      ShiftedHas(at, k);
      if k > 0 {
        assert ifaces[1..][k - 1] == ifaces[k];
      }
    }
  }

  lemma SetsShift(d: Desired, ifaces: seq<string>, rs: seq<Request>, at: seq<nat>)
    requires ifaces != [] && Sets(d, ifaces[1..], rs, at)
    ensures Sets(d, ifaces, rs, Shifted(at))
    ensures Sets(d, ifaces, [SetDns(ifaces[0], d.dns)] + rs, [0] + Shifted(at))
  {
    forall i | 0 <= i < |at| ensures Shifted(at)[i] < |ifaces| && rs[i] == SetDns(ifaces[Shifted(at)[i]], d.dns) {
      assert rs[i] == SetDns(ifaces[1..][at[i]], d.dns);
    }
  }

  lemma RisingShift(at: seq<nat>)
    requires Rising(at)
    ensures Rising(Shifted(at)) && Rising([0] + Shifted(at))
  {
    var s := Shifted(at);
    assert Rising(s);
    assert forall i :: 0 <= i < |s| ==> 0 < s[i];
    hide Shifted;
    var more := [0] + s;
    forall i, j | 0 <= i < j < |more| ensures more[i] < more[j] {
      assert more[j] == s[j - 1];
      assert i > 0 ==> more[i] == s[i - 1];
    }
  }

  lemma PickMore(d: Desired, ifaces: seq<string>, rs: seq<Request>, at: seq<nat>)
    requires ifaces != [] && Picks(d, ifaces[1..], rs, at)
    ensures ifaces[0] == d.adapter ==> Picks(d, ifaces, rs, Shifted(at))
    ensures ifaces[0] != d.adapter ==> Picks(d, ifaces, [SetDns(ifaces[0], d.dns)] + rs, [0] + Shifted(at))
  {
    OthersShift(d, ifaces, at);
    SetsShift(d, ifaces, rs, at);
    RisingShift(at);
    hide ForOthers, Sets, Rising, Shifted;
    assert [] + Shifted(at) == Shifted(at);
  }

  lemma {:induction false} PhysicalIsRight(d: Desired, ifaces: seq<string>)
    ensures DnsOfOthers(d, ifaces, PhysicalRequests(d, ifaces))
  {
    if ifaces == [] {
      assert Picks(d, ifaces, [], []);
    } else {
      PhysicalIsRight(d, ifaces[1..]);
      var rest := PhysicalRequests(d, ifaces[1..]);
      var at :| Picks(d, ifaces[1..], rest, at);
      PickMore(d, ifaces, rest, at);
      hide Picks;
      assert [] + rest == rest;
    }
  }

  lemma RequestsAreRight(d: Desired, ifaces: Option<seq<string>>)
    requires d.rewritePhysical ==> ifaces.Some?
    ensures AsDesired(d, ifaces, Requests(d, ifaces))
  {
    var n := if d.dns != [] then 4 else 3;
    if d.rewritePhysical {
      PhysicalIsRight(d, ifaces.value);
      assert Requests(d, ifaces)[n..] == PhysicalRequests(d, ifaces.value);
    }
    hide DnsOfOthers, PhysicalRequests;
  }

  /** Where `Apply` stands: `hand` is an undo not yet journaled; `made` counts the mutations. */
  datatype Progress<S, U> = Progress(sys: S, log: Log<U>, hand: Option<U>, done: nat, made: nat, stopped: bool)

  /** The next small step: a mutation, or the journal entry for it. */
  function Small<S, Q, U>(env: Env<S, Q, U>, qs: seq<Q>, ids: seq<Id>, disks: seq<bool>, p: Progress<S, U>): Progress<S, U>
    requires |ids| == |disks| == |qs|
  {
    if p.stopped || p.done >= |qs| then p
    else
      match p.hand
      case None =>
        (match env.mutate(p.sys, qs[p.done])
         case None => p.(stopped := true)
         case Some((t, u)) => p.(sys := t, hand := Some(u), made := p.made + 1))
      case Some(u) =>
        var (l, ok) := AddEntry(p.log, ids[p.done], u, disks[p.done]);
        if ok then p.(log := l, hand := None, done := p.done + 1) else p.(log := l, hand := None, stopped := true)
  }

  function SmallSteps<S, Q, U>(env: Env<S, Q, U>, qs: seq<Q>, ids: seq<Id>, disks: seq<bool>, p: Progress<S, U>, n: nat): Progress<S, U>
    requires |ids| == |disks| == |qs|
  {
    if n == 0 then p else Small(env, qs, ids, disks, SmallSteps(env, qs, ids, disks, p, n - 1))
  }

  function Begin<S, U>(s: S, l: Log<U>): Progress<S, U> {
    Progress(s, l, None, 0, 0, false)
  }

  // ----- What a crash leaves uncovered -----

  /** Outstanding is what is not rolled back, in the order of the journal. */
  lemma {:induction false} OutstandingSnoc<U>(es: seq<Entry<U>>, e: Entry<U>)
    ensures Outstanding(es + [e]) == Outstanding(es) + (if e.state != RolledBack then [e] else [])
  {
    if es == [] {
      assert es + [e] == [e] && [e][1..] == [];
    } else {
      assert (es + [e])[0] == es[0] && (es + [e])[1..] == es[1..] + [e];
      OutstandingSnoc(es[1..], e);
    }
  }

  /** New ids, different from each other and from those in the journal. */
  predicate NewIds<U>(ids: seq<Id>, es: seq<Entry<U>>) {
    && (forall i, j :: 0 <= i < j < |ids| ==> ids[i] != ids[j])
    && (forall i, j :: 0 <= i < |ids| && 0 <= j < |es| ==> ids[i] != es[j].id)
  }

  /**
   * At every moment of an `Apply`: the mutations made are the first `made` requests; all of them but
   * one in hand are in the journal in memory, all of them but at most one are in the file.
   */
  ghost predicate Covered<S, Q, U>(env: Env<S, Q, U>, s0: S, qs: seq<Q>, p: Progress<S, U>) {
    && p.done <= p.made <= |qs| && p.made <= p.done + 1
    && Mutated(env, s0, qs[..p.made]).Some?
    && var (s, us) := Mutated(env, s0, qs[..p.made]).value;
    && p.sys == s && |us| == p.made
    && (p.hand.Some? ==> p.made == p.done + 1 && p.hand.value == us[p.done] && !p.stopped)
    && (p.hand.None? && !p.stopped ==> p.made == p.done)
    && Undoes(Outstanding(p.log.entries), if p.hand.Some? then us[..p.done] else us)
    && Undoes(Outstanding(p.log.file), us[..p.done])
  }

  /** Ids stay distinct: those still to come are not in the journal. */
  ghost predicate IdsLeft<S, U>(ids: seq<Id>, p: Progress<S, U>) {
    && Distinct(p.log.entries) && Distinct(p.log.file)
    && (!p.stopped ==> p.log.file == p.log.entries)
    && (forall i, j :: 0 <= i < j < |ids| ==> ids[i] != ids[j])
    && (!p.stopped ==> forall i, j :: p.done <= i < |ids| && 0 <= j < |p.log.entries| ==> ids[i] != p.log.entries[j].id)
  }

  lemma MutateKeepsCovered<S, Q, U>(env: Env<S, Q, U>, s0: S, qs: seq<Q>, ids: seq<Id>, disks: seq<bool>, p: Progress<S, U>)
    requires |ids| == |disks| == |qs| && Covered(env, s0, qs, p) && p.hand.None?
    ensures Covered(env, s0, qs, Small(env, qs, ids, disks, p))
  {
    hide Undoes, Outstanding;
    if !p.stopped && p.done < |qs| {
      var next := qs[..p.made + 1];
      assert next[..p.made] == qs[..p.made] && next[p.made] == qs[p.done];
      var us := Mutated(env, s0, qs[..p.made]).value.1;
      var m := env.mutate(p.sys, qs[p.done]);
      if m.Some? {
        assert us[..p.done] == us && (us + [m.value.1])[..p.done] == us;
      }
    }
  }

  lemma UndoesOneMore<U>(out: seq<Entry<U>>, us: seq<U>, e: Entry<U>)
    requires us != [] && Undoes(out, us[..|us| - 1]) && e.undo == us[|us| - 1]
    ensures Undoes(out + [e], us)
  {
  }

  lemma AddKeepsCovered<S, Q, U>(env: Env<S, Q, U>, s0: S, qs: seq<Q>, ids: seq<Id>, disks: seq<bool>, p: Progress<S, U>)
    requires |ids| == |disks| == |qs| && Covered(env, s0, qs, p) && p.hand.Some?
    requires p.log.file == p.log.entries
    ensures Covered(env, s0, qs, Small(env, qs, ids, disks, p))
  {
    var us := Mutated(env, s0, qs[..p.made]).value.1;
    var e := Entry(ids[p.done], p.hand.value, Pending);
    OutstandingSnoc(p.log.entries, e);
    hide Outstanding, Mutated;
    UndoesOneMore(Outstanding(p.log.entries), us, e);
    hide Undoes;
    assert us[..p.done + 1] == us;
  }

  lemma SmallKeepsIds<S, Q, U>(env: Env<S, Q, U>, qs: seq<Q>, ids: seq<Id>, disks: seq<bool>, p: Progress<S, U>)
    requires |ids| == |disks| == |qs| && IdsLeft(ids, p)
    ensures IdsLeft(ids, Small(env, qs, ids, disks, p))
  {
  }

  lemma SmallKeepsBoth<S, Q, U>(env: Env<S, Q, U>, s0: S, qs: seq<Q>, ids: seq<Id>, disks: seq<bool>, p: Progress<S, U>)
    requires |ids| == |disks| == |qs| && Covered(env, s0, qs, p) && IdsLeft(ids, p)
    ensures var t := Small(env, qs, ids, disks, p); Covered(env, s0, qs, t) && IdsLeft(ids, t)
  {
    SmallKeepsIds(env, qs, ids, disks, p);
    hide Small, Undoes, Outstanding, Mutated, Distinct;
    if p.hand.Some? {
      AddKeepsCovered(env, s0, qs, ids, disks, p);
    } else {
      MutateKeepsCovered(env, s0, qs, ids, disks, p);
    }
  }

  lemma OneMoreStep<S, Q, U>(env: Env<S, Q, U>, qs: seq<Q>, ids: seq<Id>, disks: seq<bool>, p: Progress<S, U>, n: nat)
    requires |ids| == |disks| == |qs| && 0 < n
    ensures SmallSteps(env, qs, ids, disks, p, n) == Small(env, qs, ids, disks, SmallSteps(env, qs, ids, disks, p, n - 1))
  {
    hide Small;
  }

  lemma CoveredAtFirst<S, Q, U>(env: Env<S, Q, U>, s0: S, l0: Log<U>, qs: seq<Q>, ids: seq<Id>)
    requires l0.file == l0.entries && Distinct(l0.entries) && Outstanding(l0.entries) == [] && NewIds(ids, l0.entries)
    ensures Covered(env, s0, qs, Begin(s0, l0)) && IdsLeft(ids, Begin(s0, l0))
  {
    assert qs[..0] == [];
  }

  lemma {:induction false} AlwaysCovered<S, Q, U>(env: Env<S, Q, U>, s0: S, l0: Log<U>, qs: seq<Q>, ids: seq<Id>, disks: seq<bool>, n: nat)
    requires |ids| == |disks| == |qs| && l0.file == l0.entries && Distinct(l0.entries) && Outstanding(l0.entries) == [] && NewIds(ids, l0.entries)
    ensures var p := SmallSteps(env, qs, ids, disks, Begin(s0, l0), n); Covered(env, s0, qs, p) && IdsLeft(ids, p)
  {
    hide Covered, IdsLeft, Small, Distinct, Outstanding, NewIds;
    if n == 0 {
      CoveredAtFirst(env, s0, l0, qs, ids);
    } else {
      OneMoreStep(env, qs, ids, disks, Begin(s0, l0), n);
      hide SmallSteps;
      AlwaysCovered(env, s0, l0, qs, ids, disks, n - 1);
      SmallKeepsBoth(env, s0, qs, ids, disks, SmallSteps(env, qs, ids, disks, Begin(s0, l0), n - 1));
    }
  }

  /**
   * A crash anywhere inside `Apply` leaves at most one mutation without a persisted undo: none unless
   * it falls between a mutation and its successful journal entry. If none is uncovered, reconciling
   * after the restart brings the start state back; and without a crash, a rollback by the same process
   * does so whether or not `Apply` failed on the way.
   */
  lemma CrashLeavesAtMostOne<S(!new), Q(!new), U(!new)>(env: Env<S, Q, U>, s0: S, l0: Log<U>, qs: seq<Q>, ids: seq<Id>, disks: seq<bool>, n: nat)
    requires UndoInverts(env)
    requires |ids| == |disks| == |qs| && l0.file == l0.entries && Distinct(l0.entries) && Outstanding(l0.entries) == [] && NewIds(ids, l0.entries)
    ensures var p := SmallSteps(env, qs, ids, disks, Begin(s0, l0), n); var covered := |Outstanding(Restart(p.log).entries)|;
            && p.made == covered + (if p.made == p.done then 0 else 1)
            && (p.made == p.done ==> J.RollbackAll(env, Restart(p.log), p.sys, true).sys == s0)
            && (p.hand.None? ==> J.RollbackAll(env, p.log, p.sys, true).sys == s0)
  {
    AlwaysCovered(env, s0, l0, qs, ids, disks, n);
    var p := SmallSteps(env, qs, ids, disks, Begin(s0, l0), n);
    var us := Mutated(env, s0, qs[..p.made]).value.1;
    hide SmallSteps, RollFrom, Outstanding, UndoInverts;
    if p.made == p.done {
      assert us[..p.done] == us;
      RollbackRestoresStart(env, Restart(p.log), s0, qs[..p.made]);
    }
    if p.hand.None? {
      RollbackRestoresStart(env, p.log, s0, qs[..p.made]);
    }
  }

  /** While the journal can be persisted, a mutation lacks its entry exactly between the two. */
  lemma {:induction false} UncoveredExactly<S, Q, U>(env: Env<S, Q, U>, s0: S, l0: Log<U>, qs: seq<Q>, ids: seq<Id>, disks: seq<bool>, n: nat)
    requires |ids| == |disks| == |qs| && forall i :: 0 <= i < |disks| ==> disks[i]
    ensures var p := SmallSteps(env, qs, ids, disks, Begin(s0, l0), n);
            && (p.made == p.done <==> p.hand.None?) && p.done <= p.made <= p.done + 1
            && (p.hand.Some? ==> p.done < |qs|)
  {
    if n > 0 {
      UncoveredExactly(env, s0, l0, qs, ids, disks, n - 1);
      OneMoreStep(env, qs, ids, disks, Begin(s0, l0), n);
      hide SmallSteps;
    }
  }

  /** A crash right after the first mutation: nothing of it is on disk, and reconciling leaves it in place. */
  lemma CrashUncoversFirst<S, Q, U>(env: Env<S, Q, U>, s0: S, l0: Log<U>, qs: seq<Q>, ids: seq<Id>, disks: seq<bool>)
    requires |ids| == |disks| == |qs| && qs != [] && env.mutate(s0, qs[0]).Some? && Outstanding(l0.file) == []
    ensures var p := SmallSteps(env, qs, ids, disks, Begin(s0, l0), 1);
            && p.made == 1 && p.done == 0 && p.sys == env.mutate(s0, qs[0]).value.0
            && Outstanding(Restart(p.log).entries) == [] && J.RollbackAll(env, Restart(p.log), p.sys, true).sys == p.sys
  {
    assert SmallSteps(env, qs, ids, disks, Begin(s0, l0), 0) == Begin(s0, l0);
  }

  // ----- The manager object -----

  class Manager<!S, !U> {
    const host: Host<S, Request, U>
    const journal: JournalFile<U>

    constructor (host: Host<S, Request, U>, journal: JournalFile<U>)
      ensures this.host == host && this.journal == journal
    {
      this.host, this.journal := host, journal;
    }

    /** Mutates and journals the requests one by one, until one fails. */
    method ApplyAll(qs: seq<Request>, ids: seq<Id>, disks: seq<bool>) returns (ok: bool)
      requires |ids| == |disks| == |qs|
      modifies host, journal
      ensures var p := SmallSteps(host.env, qs, ids, disks, Begin(old(host.sys), old(journal.View())), 2 * |qs|);
              && host.sys == p.sys && journal.View() == p.log && p.hand.None? && ok == !p.stopped && (ok ==> p.made == |qs|)
              && p.made <= |qs| && host.made == old(host.made) + qs[..p.made]
    {
      ghost var p0 := Begin(host.sys, journal.View());
      for i := 0 to |qs|
        invariant SmallSteps(host.env, qs, ids, disks, p0, 2 * i) == Progress(host.sys, journal.View(), None, i, i, false)
        invariant host.made == old(host.made) + qs[..i]
      {
        ghost var p := SmallSteps(host.env, qs, ids, disks, p0, 2 * i);
        var undo := host.Mutate(qs[i]);
        if undo.None? {
          Stays(host.env, qs, ids, disks, p0, 2 * i + 1, 2 * |qs|);
          return false;
        }
        assert qs[..i + 1] == qs[..i] + [qs[i]];
        ok := journal.Add(ids[i], undo.value, disks[i]);
        assert SmallSteps(host.env, qs, ids, disks, p0, 2 * i + 2)
            == Small(host.env, qs, ids, disks, Small(host.env, qs, ids, disks, p));
        if !ok {
          Stays(host.env, qs, ids, disks, p0, 2 * i + 2, 2 * |qs|);
          return false;
        }
      }
      return true;
    }

    /** Applies a desired state; `ifaces` is what listing the interfaces gives, if asked for and successful. */
    method Apply(d: Desired, ifaces: Option<seq<string>>, ids: seq<Id>, disks: seq<bool>) returns (ok: bool)
      requires |ids| == |disks| == |Requests(d, ifaces)|
      modifies host, journal
      ensures var p := SmallSteps(host.env, Requests(d, ifaces), ids, disks, Begin(old(host.sys), old(journal.View())), 2 * |ids|);
              host.sys == p.sys && journal.View() == p.log && p.hand.None?
              && ok == (!p.stopped && (d.rewritePhysical ==> ifaces.Some?))
      ensures old(host.made) <= host.made
      ensures ok ==> AsDesired(d, ifaces, host.made[|old(host.made)|..])
    {
      ok := ApplyAll(Requests(d, ifaces), ids, disks);
      if d.rewritePhysical && ifaces.None? {
        ok := false;
      }
      if ok {
        RequestsAreRight(d, ifaces);
        assert Requests(d, ifaces)[..|ids|] == Requests(d, ifaces);
        assert host.made[|old(host.made)|..] == Requests(d, ifaces);
        hide AsDesired;
      }
    }

    /** Rolls back what this process, or a crashed one before it, left. */
    method Rollback(disk: bool) returns (rolled: nat, failed: bool)
      modifies journal, host
      ensures var r := J.RollbackAll(host.env, old(journal.View()), old(host.sys), disk);
              && journal.View() == r.log && host.sys == r.sys && rolled == r.count && failed == r.err
              && host.runs == old(host.runs) + r.runs
    {
      rolled, failed := journal.RollbackAll(host, disk);
    }
  }

  /** Nothing moves any more once `Apply` has stopped. */
  lemma {:induction false} Stays<S, Q, U>(env: Env<S, Q, U>, qs: seq<Q>, ids: seq<Id>, disks: seq<bool>, p: Progress<S, U>, n: nat, m: nat)
    requires |ids| == |disks| == |qs| && n <= m && SmallSteps(env, qs, ids, disks, p, n).stopped
    ensures SmallSteps(env, qs, ids, disks, p, m) == SmallSteps(env, qs, ids, disks, p, n)
    decreases m - n
  {
    if n < m {
      Stays(env, qs, ids, disks, p, n, m - 1);
    }
  }
}
