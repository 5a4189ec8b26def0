/** Startup FIB recovery (crates/babel-rs/src/linux/recovery.rs, netlink.rs:100-135).

    Routes left in the kernel by a previous process are kept for a bounded time.
    The deadlines are journalled, so restarting in a loop must not extend them. */
module Recovery {
  import opened Model

  datatype RouteIdentity = RouteIdentity(
    table: u32, destination: IpNet, priority: u32, outputInterface: u32, gateway: Option<IpAddr>, unreachable: bool)

  datatype RuleIdentity = RuleIdentity(table: u32, priority: u32, source: IpNet)

  datatype PendingRoute = PendingRoute(route: RouteIdentity, deadlineMs: u64)

  /** Boot and network namespace the journal belongs to, and the owning protocol. */
  datatype Scope = Scope(boot: string, namespace: string, protocol: u8)

  datatype Journal = Journal(version: u8, scope: Scope, exportScope: string, pending: seq<PendingRoute>)

  datatype Settings = Settings(scope: Scope, exportScope: string, scoped: bool, windowSeconds: nat)

  type Confirmed = set<(u32, IpNet)>

  // ----- loading

  /** `HashMap::collect` over the journal: the last entry for a route wins. */
  function Recorded(pending: seq<PendingRoute>, route: RouteIdentity): Option<u64> {
    if pending == [] then None
    else if pending[|pending| - 1].route == route then Some(pending[|pending| - 1].deadlineMs)
    else Recorded(pending[..|pending| - 1], route)
  }

  predicate ScopeChanged(previous: Journal, settings: Settings) {
    if previous.exportScope == "" then settings.scoped else previous.exportScope != settings.exportScope
  }

  /** The deadline a startup gives a route: never later than the one on record,
      and already expired when the admission scope changed. */
  function LoadedDeadline(previous: Journal, settings: Settings, route: RouteIdentity, now: u64): u64 {
    var deadline :=
      if ScopeChanged(previous, settings) then 0 else SatAdd(now, settings.windowSeconds * 1000);
    var onRecord :=
      if previous.version == 1 && previous.scope == settings.scope then Recorded(previous.pending, route) else None;
    if onRecord.Some? then Min(onRecord.value, deadline) else deadline
  }

  function LoadedJournal(previous: Journal, settings: Settings, routes: seq<RouteIdentity>, now: u64): Journal {
    Journal(1, settings.scope, settings.exportScope,
      seq(|routes|, i requires 0 <= i < |routes| =>
        PendingRoute(routes[i], LoadedDeadline(previous, settings, routes[i], now))))
  }

  // ----- reconciling

  predicate Live(revoked: bool, p: PendingRoute, now: u64) { !revoked && now < p.deadlineMs }

  /** Whether reconciliation spares a kernel route it does not want. */
  predicate Kept(pending: seq<PendingRoute>, revoked: bool, route: RouteIdentity, confirmed: Confirmed, now: u64) {
    && (route.table, route.destination) !in confirmed
    && exists i :: 0 <= i < |pending| && pending[i].route == route && Live(revoked, pending[i], now)
  }

  predicate StaysPending(p: PendingRoute, revoked: bool, current: set<RouteIdentity>, confirmed: Confirmed, now: u64) {
    && Live(revoked, p, now)
    && p.route in current
    && (p.route.table, p.route.destination) !in confirmed
  }

  function Retain(pending: seq<PendingRoute>, revoked: bool, current: set<RouteIdentity>, confirmed: Confirmed,
                  now: u64): (kept: seq<PendingRoute>)
    ensures |kept| <= |pending|
    ensures forall p :: p in kept <==> p in pending && StaysPending(p, revoked, current, confirmed, now)
  {
    if pending == [] then []
    else
      var rest := Retain(pending[..|pending| - 1], revoked, current, confirmed, now);
      var last := pending[|pending| - 1];
      if StaysPending(last, revoked, current, confirmed, now) then rest + [last] else rest
  }

  function Zeroed(pending: seq<PendingRoute>, scopeChanged: bool, interfaces: set<u32>): seq<PendingRoute> {
    seq(|pending|, i requires 0 <= i < |pending| =>
      if scopeChanged || pending[i].route.outputInterface !in interfaces
      then pending[i].(deadlineMs := 0) else pending[i])
  }

  lemma RetainMore(pending: seq<PendingRoute>, revoked: bool, current: set<RouteIdentity>, confirmed: Confirmed,
                   now: u64, i: nat)
    requires i < |pending|
    ensures var kept := Retain(pending[..i], revoked, current, confirmed, now);
            Retain(pending[..i + 1], revoked, current, confirmed, now)
            == if StaysPending(pending[i], revoked, current, confirmed, now) then kept + [pending[i]] else kept
  {
    hide StaysPending;
    assert pending[..i + 1][..i] == pending[..i];
  }

  /** Nothing was dropped exactly when the length is the same. */
  lemma {:induction false} RetainsAll(pending: seq<PendingRoute>, revoked: bool, current: set<RouteIdentity>,
                                      confirmed: Confirmed, now: u64)
    requires |Retain(pending, revoked, current, confirmed, now)| == |pending|
    ensures Retain(pending, revoked, current, confirmed, now) == pending
  {
    hide StaysPending;
    if pending != [] {
      RetainsAll(pending[..|pending| - 1], revoked, current, confirmed, now);
    }
  }

  class Recovery {
    var journal: Journal
    var rules: seq<RuleIdentity>
    var revoked: bool
    var dirty: bool
    /** The journal on disk. */
    ghost var disk: Journal

    /** Whenever no write is owed, the disk holds the journal in memory. */
    ghost predicate Valid()
      reads this
    {
      !dirty ==> disk == journal
    }

    /** Startup: the journal is persisted before anything else happens. */
    constructor Load(previous: Journal, settings: Settings, routes: seq<RouteIdentity>,
                     kernelRules: seq<RuleIdentity>, now: u64)
      ensures Valid() && !dirty
      ensures journal == LoadedJournal(previous, settings, routes, now)
      ensures rules == if ScopeChanged(previous, settings) then [] else kernelRules
      ensures !revoked
    {
      journal := LoadedJournal(previous, settings, routes, now);
      rules := if ScopeChanged(previous, settings) then [] else kernelRules;
      revoked, dirty := false, false;
      disk := journal;
    }

    method Revoke()
      requires Valid()
      modifies this`revoked
      ensures Valid() && revoked
    {
      revoked := true;
    }

    method Keep(route: RouteIdentity, confirmed: Confirmed, now: u64) returns (keep: bool)
      ensures keep == Kept(journal.pending, revoked, route, confirmed, now)
    {
      keep := false;
      if (route.table, route.destination) in confirmed { return; }
      for i := 0 to |journal.pending|
        invariant !keep
        invariant forall k :: 0 <= k < i ==>
                    !(journal.pending[k].route == route && Live(revoked, journal.pending[k], now))
      {
        if journal.pending[i].route == route && Live(revoked, journal.pending[i], now) { return true; }
      }
    }

    /** Drop settled entries once the kernel has been reconciled; `write` asks for a save. */
    method Applied(current: set<RouteIdentity>, confirmed: Confirmed, now: u64) returns (write: bool)
      requires Valid()
      modifies this`journal, this`dirty
      ensures Valid()
      ensures journal == old(journal).(pending := Retain(old(journal).pending, revoked, current, confirmed, now))
      ensures write == dirty == (old(dirty) || |journal.pending| != |old(journal).pending|)
      ensures !write ==> disk == journal
    {
      hide Retain, StaysPending;
      var pending := journal.pending;
      var kept: seq<PendingRoute> := [];
      assert kept == Retain([], revoked, current, confirmed, now) by { RetainNone(revoked, current, confirmed, now); }
      assert pending[..0] == [];
      for i := 0 to |pending|
        invariant journal == old(journal) && dirty == old(dirty)
        invariant kept == Retain(pending[..i], revoked, current, confirmed, now)
      {
        RetainMore(pending, revoked, current, confirmed, now, i);
        if StaysPending(pending[i], revoked, current, confirmed, now) { kept := kept + [pending[i]]; }
      }
      assert pending[..|pending|] == pending;
      if |kept| == |pending| { RetainsAll(pending, revoked, current, confirmed, now); }
      journal := journal.(pending := kept);
      dirty := dirty || |pending| != |kept|;
      write := dirty;
    }

    /** The write that was asked for has reached the disk. */
    method Saved()
      modifies this`dirty, this`disk
      ensures Valid() && !dirty
    {
      disk := journal;
      dirty := false;
    }

    /** Live reload: expire what the new interfaces or scope reject, keep it journalled. */
    method RecoveryInterfaces(settings: Settings, interfaces: set<u32>)
      modifies this`journal, this`dirty
      ensures Valid() && dirty
      ensures journal == old(journal).(pending :=
                Zeroed(old(journal).pending, old(journal).exportScope != settings.exportScope, interfaces))
    {
      var changed := journal.exportScope != settings.exportScope;
      journal := journal.(pending := Zeroed(journal.pending, changed, interfaces));
      dirty := true;
    }

    /** Source tables that stay reserved for routes still pending. */
    method Sources(automatic: bool, explicit: set<IpNet>, now: u64) returns (held: map<IpNet, u32>)
      ensures held == if automatic then HeldSources(rules, journal.pending, revoked, explicit, now) else map[]
    {
      held := map[];
      if !automatic { return; }
      for i := 0 to |rules|
        invariant held == HeldSources(rules[..i], journal.pending, revoked, explicit, now)
      {
        assert rules[..i + 1][..i] == rules[..i];
        if RuleHeld(rules[i], journal.pending, revoked, explicit, now) {
          held := held[rules[i].source := rules[i].table];
        }
      }
      assert rules[..|rules|] == rules;
    }
  }

  lemma RetainNone(revoked: bool, current: set<RouteIdentity>, confirmed: Confirmed, now: u64)
    ensures Retain([], revoked, current, confirmed, now) == []
  {
  }

  // ----- what is spared

  /** After a startup a route is spared exactly when it was found eligible under an
      unchanged scope, its window is open, and so is the deadline on record. */
  lemma LoadedSpares(previous: Journal, settings: Settings, routes: seq<RouteIdentity>, now: u64, r: RouteIdentity,
                     confirmed: Confirmed, at: u64)
    ensures var compatible := previous.version == 1 && previous.scope == settings.scope;
            var onRecord := if compatible then Recorded(previous.pending, r) else None;
            Kept(LoadedJournal(previous, settings, routes, now).pending, false, r, confirmed, at) <==>
              && r in routes && (r.table, r.destination) !in confirmed
              && !ScopeChanged(previous, settings)
              && at < SatAdd(now, settings.windowSeconds * 1000)
              && (onRecord.Some? ==> at < onRecord.value)
  {
    hide Recorded, ScopeChanged;
    var pending := LoadedJournal(previous, settings, routes, now).pending;
    if r in routes {
      var i :| 0 <= i < |routes| && routes[i] == r;
      assert pending[i] == PendingRoute(r, LoadedDeadline(previous, settings, r, now));
      assert forall k :: 0 <= k < |pending| && pending[k].route == r ==> pending[k] == pending[i];
    } else {
      forall k | 0 <= k < |pending| ensures pending[k].route != r {
        assert routes[k] == pending[k].route;
      }
    }
  }

  /** A reload takes away exactly the routes it rejects. */
  lemma ReloadSpares(pending: seq<PendingRoute>, changed: bool, interfaces: set<u32>, revoked: bool, r: RouteIdentity,
                     confirmed: Confirmed, at: u64)
    ensures Kept(Zeroed(pending, changed, interfaces), revoked, r, confirmed, at) <==>
              Kept(pending, revoked, r, confirmed, at) && !changed && r.outputInterface in interfaces
  {
    var z := Zeroed(pending, changed, interfaces);
    if Kept(z, revoked, r, confirmed, at) {
      var i :| 0 <= i < |z| && z[i].route == r && Live(revoked, z[i], at);
      assert z[i] == pending[i];
    }
    if Kept(pending, revoked, r, confirmed, at) && !changed && r.outputInterface in interfaces {
      var i :| 0 <= i < |pending| && pending[i].route == r && Live(revoked, pending[i], at);
      assert z[i] == pending[i];
    }
  }

  // ----- held tables only ever expire

  predicate RuleHeld(rule: RuleIdentity, pending: seq<PendingRoute>, revoked: bool, explicit: set<IpNet>, now: u64) {
    && rule.source !in explicit
    && exists i :: 0 <= i < |pending| && pending[i].route.table == rule.table && Live(revoked, pending[i], now)
  }

  function HeldSources(rules: seq<RuleIdentity>, pending: seq<PendingRoute>, revoked: bool, explicit: set<IpNet>,
                       now: u64): map<IpNet, u32> {
    if rules == [] then map[]
    else
      var rest := HeldSources(rules[..|rules| - 1], pending, revoked, explicit, now);
      var last := rules[|rules| - 1];
      if RuleHeld(last, pending, revoked, explicit, now) then rest[last.source := last.table] else rest
  }

  /** Rule `i` is the last held rule of source `s`. */
  ghost predicate LastHeld(rules: seq<RuleIdentity>, pending: seq<PendingRoute>, revoked: bool, explicit: set<IpNet>,
                           now: u64, s: IpNet, i: nat) {
    && i < |rules| && rules[i].source == s && RuleHeld(rules[i], pending, revoked, explicit, now)
    && forall k :: i < k < |rules| && rules[k].source == s ==> !RuleHeld(rules[k], pending, revoked, explicit, now)
  }

  /** A source is reserved exactly if some rule of it is held, at the last such rule's table. */
  lemma {:induction false} HeldIffRule(rules: seq<RuleIdentity>, pending: seq<PendingRoute>, revoked: bool,
                                       explicit: set<IpNet>, now: u64, s: IpNet)
    ensures var held := HeldSources(rules, pending, revoked, explicit, now);
      && (s in held <==> exists r :: r in rules && r.source == s && RuleHeld(r, pending, revoked, explicit, now))
      && (s in held ==>
            exists i: nat :: LastHeld(rules, pending, revoked, explicit, now, s, i) && held[s] == rules[i].table)
  {
    hide RuleHeld;
    if rules != [] {
      var n := |rules| - 1;
      var front := rules[..n];
      HeldIffRule(front, pending, revoked, explicit, now, s);
      assert rules[n] in rules;
      forall r | r in rules ensures r in front || r == rules[n] {
        var k :| 0 <= k < |rules| && rules[k] == r;
        if k < n { assert front[k] == r; }
      }
      if rules[n].source == s && RuleHeld(rules[n], pending, revoked, explicit, now) {
        assert LastHeld(rules, pending, revoked, explicit, now, s, n);
      } else if s in HeldSources(front, pending, revoked, explicit, now) {
        var i: nat :| LastHeld(front, pending, revoked, explicit, now, s, i)
                 && HeldSources(front, pending, revoked, explicit, now)[s] == front[i].table;
        assert forall k :: 0 <= k < n ==> front[k] == rules[k];
        assert LastHeld(rules, pending, revoked, explicit, now, s, i);
      }
    }
  }

  /** All rules of the source name one table. */
  ghost predicate OneTable(rules: seq<RuleIdentity>, s: IpNet) {
    forall r, q :: r in rules && q in rules && r.source == s && q.source == s ==> r.table == q.table
  }

  /** As time passes and entries settle the held sources only get fewer, and a source whose
      rules name one table keeps that table. */
  lemma HeldOnlyExpires(rules: seq<RuleIdentity>, pending: seq<PendingRoute>, revoked: bool, now: u64,
                        pending': seq<PendingRoute>, revoked': bool, now': u64, explicit: set<IpNet>, s: IpNet)
    requires now <= now' && (revoked ==> revoked')
    requires forall p :: p in pending' ==> p in pending
    ensures var held, held' := HeldSources(rules, pending, revoked, explicit, now),
                               HeldSources(rules, pending', revoked', explicit, now');
            s in held' ==> s in held && (OneTable(rules, s) ==> held[s] == held'[s])
  {
    HeldIffRule(rules, pending, revoked, explicit, now, s);
    HeldIffRule(rules, pending', revoked', explicit, now', s);
    if s in HeldSources(rules, pending', revoked', explicit, now') {
      var r :| r in rules && r.source == s && RuleHeld(r, pending', revoked', explicit, now');
      var i :| 0 <= i < |pending'| && pending'[i].route.table == r.table && Live(revoked', pending'[i], now');
      assert pending'[i] in pending;
      var k :| 0 <= k < |pending| && pending[k] == pending'[i];
      assert RuleHeld(r, pending, revoked, explicit, now);
    }
  }

  /** Two routes, one in each table; the first expires at 50, the second at 100. */
  function TwoTables(route: RouteIdentity, early: u32, late: u32): seq<PendingRoute> {
    [PendingRoute(route.(table := early), 50), PendingRoute(route.(table := late), 100)]
  }

  lemma HeldOfTwo(rule: RuleIdentity, route: RouteIdentity, early: u32, late: u32, explicit: set<IpNet>, now: u64)
    requires rule.source !in explicit && now < 100
    ensures RuleHeld(rule, TwoTables(route, early, late), false, explicit, now)
            <==> rule.table == late || (rule.table == early && now < 50)
  {
    var pending := TwoTables(route, early, late);
    assert pending[0].route.table == early && pending[1].route.table == late;
  }

  /** Where a source has rules with two tables, time alone can move it from one to the other. */
  lemma DoubledRulesMove(rules: seq<RuleIdentity>, explicit: set<IpNet>, s: IpNet, route: RouteIdentity)
    returns (pending: seq<PendingRoute>)
    requires s !in explicit && !OneTable(rules, s)
    ensures var early, late := HeldSources(rules, pending, false, explicit, 10),
                               HeldSources(rules, pending, false, explicit, 60);
            s in early && s in late && early[s] != late[s]
  {
    hide RuleHeld, TwoTables;
    var r, q :| r in rules && q in rules && r.source == s && q.source == s && r.table != q.table;
    var i := LastAmong(rules, s, r.table, q.table);
    var a := rules[i].table;
    var b := if a == r.table then q.table else r.table;
    pending := TwoTables(route, a, b);
    forall k | 0 <= k < |rules| && rules[k].source == s
      ensures RuleHeld(rules[k], pending, false, explicit, 10) <==> rules[k].table in {a, b}
      ensures RuleHeld(rules[k], pending, false, explicit, 60) <==> rules[k].table == b
    {
      HeldOfTwo(rules[k], route, a, b, explicit, 10);
      HeldOfTwo(rules[k], route, a, b, explicit, 60);
    }
    HeldIffRule(rules, pending, false, explicit, 10, s);
    HeldIffRule(rules, pending, false, explicit, 60, s);
    assert rules[i] in rules;
  }

  lemma {:induction false} LastAmong(rules: seq<RuleIdentity>, s: IpNet, a: u32, b: u32) returns (i: nat)
    requires exists r :: r in rules && r.source == s && r.table in {a, b}
    ensures i < |rules| && rules[i].source == s && rules[i].table in {a, b}
    ensures forall k :: i < k < |rules| && rules[k].source == s ==> rules[k].table !in {a, b}
  {
    i := |rules| - 1;
    while !(rules[i].source == s && rules[i].table in {a, b})
      invariant 0 <= i < |rules|
      invariant forall k :: i < k < |rules| && rules[k].source == s ==> rules[k].table !in {a, b}
      decreases i
    {
      i := i - 1;
    }
  }

  // ----- whole runs: crashes, failed writes and partial kernel updates

  /** One process: its journal in memory and whether recovery was revoked. */
  datatype Process = Process(journal: Journal, revoked: bool)

  datatype World = World(disk: Journal, kernel: set<RouteIdentity>, process: Option<Process>)

  datatype Step =
    | Startup(settings: Settings, routes: seq<RouteIdentity>, now: u64, saved: bool)
    | Reconcile(desired: set<RouteIdentity>, now: u64, saved: bool)
    | FailedReconcile(desired: set<RouteIdentity>, now: u64)
    | Reload(settings: Settings, interfaces: set<u32>, saved: bool)
    | Revoke
    | Crash

  /** Finite routes the new generation installs. */
  function ConfirmedBy(desired: set<RouteIdentity>): Confirmed {
    set d | d in desired && !d.unreachable :: (d.table, d.destination)
  }

  /** Kernel routes a reconciliation spares or installs. */
  ghost predicate Reconciled(p: Process, before: set<RouteIdentity>, desired: set<RouteIdentity>, now: u64,
                             after: set<RouteIdentity>) {
    forall r :: r in after ==>
      r in desired || (r in before && Kept(p.journal.pending, p.revoked, r, ConfirmedBy(desired), now))
  }

  /** Every way the system can move; a failed reconciliation may have changed
      the kernel arbitrarily and touches no journal. */
  ghost predicate Next(w: World, s: Step, w': World) {
    match s
    case Startup(settings, routes, now, saved) =>
      && w.process.None? && w'.kernel == w.kernel
      && (if saved then
            var j := LoadedJournal(w.disk, settings, routes, now);
            w'.disk == j && w'.process == Some(Process(j, false))
          else w'.disk == w.disk && w'.process.None?)
    case Reconcile(desired, now, saved) =>
      && w.process.Some? && w'.process.Some?
      && Reconciled(w.process.value, w.kernel, desired, now, w'.kernel)
      && (var p := w.process.value;
          var j := p.journal.(pending := Retain(p.journal.pending, p.revoked, w.kernel, ConfirmedBy(desired), now));
          w'.process == Some(p.(journal := j)) && w'.disk == if saved then j else w.disk)
    case FailedReconcile(desired, now) =>
      w.process.Some? && w'.process == w.process && w'.disk == w.disk
    case Reload(settings, interfaces, saved) =>
      && w.process.Some? && w'.kernel == w.kernel
      && (var p := w.process.value;
          var j := p.journal.(pending :=
            Zeroed(p.journal.pending, p.journal.exportScope != settings.exportScope, interfaces));
          w'.process == Some(p.(journal := j)) && w'.disk == if saved then j else w.disk)
    case Revoke =>
      w.process.Some? && w' == w.(process := Some(w.process.value.(revoked := true)))
    case Crash =>
      w' == w.(process := None)
  }

  /** Every journalled deadline of `r` is at most `bound`, and there is one. */
  ghost predicate Bounded(j: Journal, r: RouteIdentity, bound: u64) {
    && (exists p :: p in j.pending && p.route == r)
    && (forall p :: p in j.pending && p.route == r ==> p.deadlineMs <= bound)
  }

  ghost predicate DeadlineHolds(w: World, scope: Scope, r: RouteIdentity, bound: u64) {
    && w.disk.version == 1 && w.disk.scope == scope && Bounded(w.disk, r, bound)
    && (w.process.Some? ==>
          && w.process.value.journal.version == 1
          && w.process.value.journal.scope == scope
          && Bounded(w.process.value.journal, r, bound))
  }

  /** The route is in the kernel throughout, no generation confirms it, and
      every startup of the same scope finds it eligible. */
  ghost predicate Undisturbed(s: Step, scope: Scope, r: RouteIdentity, w': World) {
    && r in w'.kernel
    && (s.Reconcile? ==> r !in s.desired && (r.table, r.destination) !in ConfirmedBy(s.desired))
    && (s.Startup? ==> s.settings.scope == scope && r in s.routes)
  }

  lemma {:induction false} RecordedIsBounded(pending: seq<PendingRoute>, r: RouteIdentity, bound: u64)
    requires exists p :: p in pending && p.route == r
    requires forall p :: p in pending && p.route == r ==> p.deadlineMs <= bound
    ensures Recorded(pending, r).Some? && Recorded(pending, r).value <= bound
  {
    var n := |pending| - 1;
    assert pending[n] in pending;
    if pending[n].route != r {
      var p :| p in pending && p.route == r;
      var k :| 0 <= k < |pending| && pending[k] == p;
      assert pending[..n][k] == p;
      RecordedIsBounded(pending[..n], r, bound);
    }
  }

  /** A startup keeps the bound exactly for the routes it finds eligible. */
  lemma StartupKeepsDeadline(previous: Journal, settings: Settings, routes: seq<RouteIdentity>, now: u64,
                             r: RouteIdentity, bound: u64)
    requires previous.version == 1 && previous.scope == settings.scope && Bounded(previous, r, bound)
    ensures Bounded(LoadedJournal(previous, settings, routes, now), r, bound) <==> r in routes
  {
    RecordedIsBounded(previous.pending, r, bound);
    var j := LoadedJournal(previous, settings, routes, now);
    if r in routes {
      var i :| 0 <= i < |routes| && routes[i] == r;
      assert j.pending[i] in j.pending;
      forall p | p in j.pending && p.route == r ensures p.deadlineMs <= bound {
        var k :| 0 <= k < |j.pending| && j.pending[k] == p;
      }
    } else {
      forall p | p in j.pending ensures p.route in routes {
        var k :| 0 <= k < |j.pending| && j.pending[k] == p;
        assert routes[k] == p.route;
      }
    }
  }

  lemma ReconcileKeepsDeadline(w: World, s: Step, w': World, scope: Scope, r: RouteIdentity, bound: u64)
    requires s.Reconcile? && Next(w, s, w') && DeadlineHolds(w, scope, r, bound)
    requires Undisturbed(s, scope, r, w')
    ensures DeadlineHolds(w', scope, r, bound)
  {
    var p := w.process.value;
    var confirmed := ConfirmedBy(s.desired);
    assert Kept(p.journal.pending, p.revoked, r, confirmed, s.now);
    var i :| 0 <= i < |p.journal.pending| && p.journal.pending[i].route == r
             && Live(p.revoked, p.journal.pending[i], s.now);
    assert StaysPending(p.journal.pending[i], p.revoked, w.kernel, confirmed, s.now);
    assert p.journal.pending[i] in Retain(p.journal.pending, p.revoked, w.kernel, confirmed, s.now);
  }

  lemma ReloadKeepsDeadline(pending: seq<PendingRoute>, changed: bool, interfaces: set<u32>, r: RouteIdentity,
                            bound: u64)
    requires exists p :: p in pending && p.route == r
    requires forall p :: p in pending && p.route == r ==> p.deadlineMs <= bound
    ensures var z := Zeroed(pending, changed, interfaces);
            && (exists p :: p in z && p.route == r)
            && (forall p :: p in z && p.route == r ==> p.deadlineMs <= bound)
  {
    var z := Zeroed(pending, changed, interfaces);
    var p :| p in pending && p.route == r;
    var k :| 0 <= k < |pending| && pending[k] == p;
    assert z[k] in z && z[k].route == r;
    forall q | q in z && q.route == r ensures q.deadlineMs <= bound {
      var i :| 0 <= i < |z| && z[i] == q;
      assert pending[i] in pending;
    }
  }

  lemma StepKeepsDeadline(w: World, s: Step, w': World, scope: Scope, r: RouteIdentity, bound: u64)
    requires Next(w, s, w') && DeadlineHolds(w, scope, r, bound) && Undisturbed(s, scope, r, w')
    ensures DeadlineHolds(w', scope, r, bound)
  {
    match s
    case Startup(settings, routes, now, saved) =>
      StartupKeepsDeadline(w.disk, settings, routes, now, r, bound);
    case Reconcile(_, _, _) =>
      ReconcileKeepsDeadline(w, s, w', scope, r, bound);
    case Reload(settings, interfaces, saved) =>
      var j := w.process.value.journal;
      ReloadKeepsDeadline(j.pending, j.exportScope != settings.exportScope, interfaces, r, bound);
    case _ =>
  }

  ghost predicate Run(states: seq<World>, steps: seq<Step>) {
    |states| == |steps| + 1 && forall i :: 0 <= i < |steps| ==> Next(states[i], steps[i], states[i + 1])
  }

  /** Over any interleaving of startups, reconciliations, failed writes, reloads,
      revocations and crashes, a route that stays in the kernel unconfirmed
      keeps its first journalled deadline as an upper bound, and from that
      deadline on no process spares it. */
  lemma {:induction false} CrashLoopsNeverRenew(states: seq<World>, steps: seq<Step>, scope: Scope, r: RouteIdentity,
                                                bound: u64, n: nat)
    requires Run(states, steps) && n < |states|
    requires DeadlineHolds(states[0], scope, r, bound)
    requires forall i :: 0 <= i < |steps| ==> Undisturbed(steps[i], scope, r, states[i + 1])
    ensures DeadlineHolds(states[n], scope, r, bound)
    ensures states[n].process.Some? ==> forall confirmed: Confirmed, now: u64 :: bound <= now ==>
      !Kept(states[n].process.value.journal.pending, states[n].process.value.revoked, r, confirmed, now)
  {
    if n > 0 {
      CrashLoopsNeverRenew(states, steps, scope, r, bound, n - 1);
      StepKeepsDeadline(states[n - 1], steps[n - 1], states[n], scope, r, bound);
    }
    if states[n].process.Some? {
      var pending := states[n].process.value.journal.pending;
      assert forall i :: 0 <= i < |pending| ==> pending[i] in pending;
    }
  }

  /** A startup under a changed scope expires every route it journals, so a
      rejected route is never revived while it stays in the kernel. */
  lemma RejectedStaysRejected(states: seq<World>, steps: seq<Step>, settings: Settings, routes: seq<RouteIdentity>,
                              now: u64, r: RouteIdentity, n: nat, later: u64, confirmed: Confirmed)
    requires Run(states, steps) && 0 < n < |states|
    requires steps[0] == Startup(settings, routes, now, true)
    requires ScopeChanged(states[0].disk, settings) && r in routes
    requires forall i :: 0 <= i < |steps| ==> Undisturbed(steps[i], settings.scope, r, states[i + 1])
    ensures states[n].process.Some? ==>
      !Kept(states[n].process.value.journal.pending, states[n].process.value.revoked, r, confirmed, later)
  {
    assert Next(states[0], steps[0], states[1]);
    var j := LoadedJournal(states[0].disk, settings, routes, now);
    var i :| 0 <= i < |routes| && routes[i] == r;
    assert j.pending[i] in j.pending;
    forall p | p in j.pending ensures p.deadlineMs <= 0 {
      var k :| 0 <= k < |j.pending| && j.pending[k] == p;
    }
    assert Bounded(j, r, 0);
    assert forall k :: 0 <= k < |steps| - 1 ==> Next(states[1..][k], steps[1..][k], states[1..][k + 1]);
    assert forall k :: 0 <= k < |steps| - 1 ==> Undisturbed(steps[1..][k], settings.scope, r, states[1..][k + 1]);
    CrashLoopsNeverRenew(states[1..], steps[1..], settings.scope, r, 0, n - 1);
  }

  /** A reload that rejects a journalled route, once saved, keeps it rejected through every later
      restart while it stays in the kernel. */
  lemma ReloadedOutStaysOut(states: seq<World>, steps: seq<Step>, settings: Settings, interfaces: set<u32>,
                            r: RouteIdentity, n: nat, later: u64, confirmed: Confirmed)
    requires Run(states, steps) && 0 < n < |states|
    requires steps[0] == Reload(settings, interfaces, true) && states[0].process.Some?
    requires states[0].process.value.journal.version == 1
    requires exists p :: p in states[0].process.value.journal.pending && p.route == r
    requires var before := states[0].process.value.journal;
      before.exportScope != settings.exportScope || r.outputInterface !in interfaces
    requires forall i :: 0 <= i < |steps| ==>
      Undisturbed(steps[i], states[0].process.value.journal.scope, r, states[i + 1])
    ensures states[n].process.Some? ==>
      !Kept(states[n].process.value.journal.pending, states[n].process.value.revoked, r, confirmed, later)
  {
    assert Next(states[0], steps[0], states[1]);
    var before := states[0].process.value.journal;
    var changed := before.exportScope != settings.exportScope;
    var z := Zeroed(before.pending, changed, interfaces);
    var p :| p in before.pending && p.route == r;
    var i :| 0 <= i < |before.pending| && before.pending[i] == p;
    assert z[i] in z && z[i].route == r;
    forall q | q in z && q.route == r ensures q.deadlineMs <= 0 {
      var k :| 0 <= k < |z| && z[k] == q;
      assert before.pending[k].route == r;
    }
    var j := before.(pending := z);
    assert Bounded(j, r, 0);
    assert forall k :: 0 <= k < |steps| - 1 ==> Next(states[1..][k], steps[1..][k], states[1..][k + 1]);
    assert forall k :: 0 <= k < |steps| - 1 ==> Undisturbed(steps[1..][k], before.scope, r, states[1..][k + 1]);
    CrashLoopsNeverRenew(states[1..], steps[1..], before.scope, r, 0, n - 1);
  }

  lemma {:induction false} DeadHoldsNothing(pending: seq<PendingRoute>, rules: seq<RuleIdentity>, revoked: bool,
                                            current: set<RouteIdentity>, confirmed: Confirmed,
                                            explicit: set<IpNet>, now: u64)
    requires forall p :: p in pending ==> !Live(revoked, p, now)
    ensures Retain(pending, revoked, current, confirmed, now) == []
    ensures HeldSources(rules, pending, revoked, explicit, now) == map[]
    decreases |pending| + |rules|
  {
    if pending != [] {
      assert pending[|pending| - 1] in pending;
      DeadHoldsNothing(pending[..|pending| - 1], rules, revoked, current, confirmed, explicit, now);
    }
    if rules != [] {
      DeadHoldsNothing(pending, rules[..|rules| - 1], revoked, current, confirmed, explicit, now);
      assert forall i :: 0 <= i < |pending| ==> pending[i] in pending;
    }
  }

  /** A reload under another scope releases every reserved table for good. */
  lemma ChangedScopeReleasesSources(pending: seq<PendingRoute>, interfaces: set<u32>, rules: seq<RuleIdentity>,
                                    revoked: bool, explicit: set<IpNet>, now: u64)
    ensures HeldSources(rules, Zeroed(pending, true, interfaces), revoked, explicit, now) == map[]
  {
    var z := Zeroed(pending, true, interfaces);
    forall p | p in z ensures !Live(revoked, p, now) {
      var k :| 0 <= k < |z| && z[k] == p;
    }
    DeadHoldsNothing(z, rules, revoked, {}, {}, explicit, now);
  }

  /** A revocation lasts as long as its process. */
  lemma {:induction false} RevocationLasts(states: seq<World>, steps: seq<Step>, n: nat, m: nat)
    requires Run(states, steps) && n < m < |states| && steps[n] == Step.Revoke
    requires forall i :: n < i < m ==> !steps[i].Crash?
    ensures states[m].process.Some? && states[m].process.value.revoked
  {
    assert Next(states[m - 1], steps[m - 1], states[m]);
    if m > n + 1 {
      RevocationLasts(states, steps, n, m - 1);
    }
  }

  /** Once recovery is revoked, every later reconciliation of that process leaves only what it
      wants in the kernel and nothing in the journal. */
  lemma RevokedNeverSpares(states: seq<World>, steps: seq<Step>, n: nat, m: nat)
    requires Run(states, steps) && n < m < |steps| && steps[n] == Step.Revoke && steps[m].Reconcile?
    requires forall i :: n < i < m ==> !steps[i].Crash?
    ensures states[m + 1].kernel <= steps[m].desired
    ensures states[m + 1].process.Some? && states[m + 1].process.value.journal.pending == []
  {
    RevocationLasts(states, steps, n, m);
    assert Next(states[m], steps[m], states[m + 1]);
    var p := states[m].process.value;
    DeadHoldsNothing(p.journal.pending, [], true, states[m].kernel, ConfirmedBy(steps[m].desired), {}, steps[m].now);
  }

  /** One startup that finds the route ineligible forgets its deadline: the
      next one grants a full window again. */
  lemma ForgottenRouteIsRenewed(settings: Settings, r: RouteIdentity)
    requires settings.exportScope != "" && settings.windowSeconds == 10
    ensures var first := Journal(1, settings.scope, settings.exportScope, [PendingRoute(r, 11_000)]);
            var second := LoadedJournal(first, settings, [], 5_000);
            var third := LoadedJournal(second, settings, [r], 20_000);
            third.pending == [PendingRoute(r, 30_000)]
  {
  }
}
