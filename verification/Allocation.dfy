/** Table numbers for learned source prefixes
    (crates/babel-rs/src/linux/projection.rs:93-142). */
module Allocation {
  import opened Model
  import opened Projection

  datatype ExportConfig = ExportConfig(
    automaticSources: bool, sourceTableBase: u32, sourceRulePriority: u32, views: seq<ExportView>)

  type TableMap = map<IpNet, u32>

  ghost predicate Injective(m: TableMap) {
    forall s, t :: s in m && t in m && m[s] == m[t] ==> s == t
  }

  function ExplicitSources(cfg: ExportConfig): set<IpNet> {
    set i | 0 <= i < |cfg.views| && cfg.views[i].source.Some? :: cfg.views[i].source.value
  }

  function ExplicitTables(cfg: ExportConfig): set<u32> {
    set i | 0 <= i < |cfg.views| :: cfg.views[i].table
  }

  /** Sources that need a view of their own: learned or recovering, not explicit. */
  function Active(cfg: ExportConfig, items: seq<Entry>, held: TableMap): set<IpNet> {
    ((set e | e in items && e.key.source.Some? :: e.key.source.value) + held.Keys) - ExplicitSources(cfg)
  }

  /** Earlier numbers that survive: recovered ones override, inactive, low and
      explicitly pinned ones go. */
  function Kept(cfg: ExportConfig, tables: TableMap, held: TableMap, active: set<IpNet>): TableMap {
    var merged := tables + held;
    map s | s in merged && s in active && merged[s] >= cfg.sourceTableBase
            && merged[s] !in ExplicitTables(cfg) :: merged[s]
  }

  function AutomaticView(source: IpNet, table: u32): ExportView {
    ExportView(table, Some(source), None, _ => true)
  }

  /** One reconciliation, whether it succeeds or runs out of numbers: surviving numbers stay, the
      others are in range, collide with nothing, and tables are distinct exactly if the survivors are. */
  ghost predicate Reconciles(cfg: ExportConfig, items: seq<Entry>, held: TableMap, before: TableMap, after: TableMap) {
    var active := Active(cfg, items, held);
    var kept := Kept(cfg, before, held, active);
    if cfg.automaticSources then
      && kept.Keys <= after.Keys <= active
      && (forall s :: s in kept ==> after[s] == kept[s])
      && Fresh(after, kept, ExplicitTables(cfg), cfg.sourceTableBase)
      && (Injective(after) <==> Injective(kept))
    else after == map[]
  }

  /** Process-lifetime owner of the table numbers. */
  class SourceTables {
    var tables: TableMap

    constructor ()
      ensures tables == map[]
    {
      tables := map[];
    }

    /** Complete views: the explicit ones, then one per active source.
        Tables come out pairwise distinct exactly when the surviving numbers were. */
    method Views(cfg: ExportConfig, routes: seq<SelectedRoute>, unreachable: seq<RouteKey>, held: TableMap)
      returns (ok: bool, views: seq<ExportView>)
      modifies this
      ensures !cfg.automaticSources ==> ok && views == cfg.views && tables == map[]
      ensures Reconciles(cfg, Items(routes, unreachable), held, old(tables), tables)
      ensures ok ==> cfg.automaticSources ==>
        var active := Active(cfg, Items(routes, unreachable), held);
        tables.Keys == active && ViewsFor(views, cfg.views, active, tables)
      ensures !ok ==>
        forall t: u32 :: cfg.sourceTableBase <= t ==> t in ExplicitTables(cfg) || t in tables.Values
    {
      if !cfg.automaticSources {
        tables := map[];
        return true, cfg.views;
      }
      ghost var items := Items(routes, unreachable);
      var sources := LearnedSources(routes, unreachable);
      var active := (sources + held.Keys) - ExplicitSources(cfg);
      assert active == Active(cfg, items, held);
      tables := Kept(cfg, tables, held, active);
      ghost var kept := tables;
      ok, tables, views := AssignAll(cfg, active, tables);
      InjectiveIffKept(tables, kept, ExplicitTables(cfg), cfg.sourceTableBase);
    }
  }

  /** First number at or above `from` that is not in use. */
  method NextFree(used: set<u32>, base: u32, from: u32) returns (ok: bool, next: u32)
    requires base <= from && forall t: u32 :: base <= t < from ==> t in used
    ensures base <= next && forall t: u32 :: base <= t < next ==> t in used
    ensures ok <==> next !in used
    ensures !ok ==> forall t: u32 :: base <= t ==> t in used
  {
    next := from;
    while next in used
      invariant base <= next
      invariant forall t: u32 :: base <= t < next ==> t in used
      decreases U32_MAX - next
    {
      if next == U32_MAX { return false, next; }
      next := next + 1;
    }
    ok := true;
  }

  /** What the allocation loop knows about the numbers handed out so far. */
  ghost predicate Progress(cfg: ExportConfig, kept: TableMap, tables: TableMap, used: set<u32>, next: u32) {
    && kept.Keys <= tables.Keys
    && (forall s :: s in kept ==> tables[s] == kept[s])
    && used == ExplicitTables(cfg) + tables.Values
    && cfg.sourceTableBase <= next
    && (forall t: u32 :: cfg.sourceTableBase <= t < next ==> t in used)
    && Fresh(tables, kept, ExplicitTables(cfg), cfg.sourceTableBase)
  }

  method Assign(cfg: ExportConfig, ghost kept: TableMap, tables: TableMap, used: set<u32>, next: u32, source: IpNet)
    returns (ok: bool, tables': TableMap, used': set<u32>, next': u32)
    requires Progress(cfg, kept, tables, used, next)
    ensures Progress(cfg, kept, tables', used', next')
    ensures ok ==> tables'.Keys == tables.Keys + {source} && forall s :: s in tables ==> tables'[s] == tables[s]
    ensures !ok ==> tables' == tables && forall t: u32 :: cfg.sourceTableBase <= t ==> t in used
  {
    ok, tables', used', next' := true, tables, used, next;
    if source !in tables {
      ok, next' := NextFree(used, cfg.sourceTableBase, next);
      if !ok { return; }
      FreshStep(tables, kept, ExplicitTables(cfg), cfg.sourceTableBase, source, next');
      ValuesAfterInsert(tables, source, next');
      tables' := tables[source := next'];
      used' := used + {next'};
    }
  }

  /** The allocation loop over the active sources. */
  method AssignAll(cfg: ExportConfig, active: set<IpNet>, kept: TableMap)
    returns (ok: bool, tables: TableMap, views: seq<ExportView>)
    requires kept.Keys <= active
    requires forall s :: s in kept ==> kept[s] >= cfg.sourceTableBase && kept[s] !in ExplicitTables(cfg)
    ensures kept.Keys <= tables.Keys <= active && forall s :: s in kept ==> tables[s] == kept[s]
    ensures Fresh(tables, kept, ExplicitTables(cfg), cfg.sourceTableBase)
    ensures ok ==> tables.Keys == active && ViewsFor(views, cfg.views, active, tables)
    ensures !ok ==>
      forall t: u32 :: cfg.sourceTableBase <= t ==> t in ExplicitTables(cfg) || t in tables.Values
  {
    hide ViewsFor, Progress, Fresh, ExplicitTables;
    tables, views := kept, cfg.views;
    var used := ExplicitTables(cfg) + kept.Values;
    var next, todo := cfg.sourceTableBase, active;
    AllocationStart(cfg, active, kept);
    assert active - todo == {};
    while todo != {}
      invariant todo <= active
      invariant tables.Keys == kept.Keys + (active - todo)
      invariant ViewsFor(views, cfg.views, active - todo, tables)
      invariant Progress(cfg, kept, tables, used, next)
      decreases todo
    {
      var source :| source in todo;
      ghost var before, taken := tables, used;
      ProgressFacts(cfg, kept, tables, used, next);
      ok, tables, used, next := Assign(cfg, kept, tables, used, next, source);
      ProgressFacts(cfg, kept, tables, used, next);
      if !ok {
        NothingLeft(cfg, tables, taken);
        return;
      }
      ViewsForStep(views, cfg.views, active - todo, before, tables, source);
      MoveOne(active, todo, kept.Keys, source);
      views := views + [AutomaticView(source, tables[source])];
      todo := todo - {source};
    }
    ProgressFacts(cfg, kept, tables, used, next);
    assert active - todo == active;
    ok := true;
  }

  lemma AllocationStart(cfg: ExportConfig, active: set<IpNet>, kept: TableMap)
    requires forall s :: s in kept ==> kept[s] >= cfg.sourceTableBase && kept[s] !in ExplicitTables(cfg)
    ensures Progress(cfg, kept, kept, ExplicitTables(cfg) + kept.Values, cfg.sourceTableBase)
    ensures ViewsFor(cfg.views, cfg.views, {}, kept)
  {
  }

  lemma ProgressFacts(cfg: ExportConfig, kept: TableMap, tables: TableMap, used: set<u32>, next: u32)
    requires Progress(cfg, kept, tables, used, next)
    ensures kept.Keys <= tables.Keys && forall s :: s in kept ==> tables[s] == kept[s]
    ensures Fresh(tables, kept, ExplicitTables(cfg), cfg.sourceTableBase) && used == ExplicitTables(cfg) + tables.Values
  {
    hide Fresh, ExplicitTables;
  }

  lemma NothingLeft(cfg: ExportConfig, tables: TableMap, used: set<u32>)
    requires used == ExplicitTables(cfg) + tables.Values
    requires forall t: u32 :: cfg.sourceTableBase <= t ==> t in used
    ensures forall t: u32 :: cfg.sourceTableBase <= t ==> t in ExplicitTables(cfg) || t in tables.Values
  {
    hide ExplicitTables;
    forall t: u32 | cfg.sourceTableBase <= t ensures t in ExplicitTables(cfg) || t in tables.Values {
      assert t in used;
    }
  }

  method LearnedSources(routes: seq<SelectedRoute>, unreachable: seq<RouteKey>) returns (s: set<IpNet>)
    ensures s == set e | e in Items(routes, unreachable) && e.key.source.Some? :: e.key.source.value
  {
    var keys := (set r | r in routes :: r.key) + (set k | k in unreachable);
    s := set k | k in keys && k.source.Some? :: k.source.value;
    ghost var items := Items(routes, unreachable);
    forall k | k in keys ensures exists e :: e in items && e.key == k {
      if k in unreachable {
        var i :| 0 <= i < |unreachable| && unreachable[i] == k;
        assert items[|routes| + i].key == k;
      } else {
        var i :| 0 <= i < |routes| && routes[i].key == k;
        assert items[i].key == k;
      }
    }
    forall e | e in items ensures e.key in keys {
      var i :| 0 <= i < |items| && items[i] == e;
    }
  }

  /** The explicit views, then exactly one automatic view per source. */
  ghost predicate ViewsFor(views: seq<ExportView>, explicit: seq<ExportView>, sources: set<IpNet>, tables: TableMap)
    requires sources <= tables.Keys
  {
    && explicit <= views
    && (forall s :: s in sources ==> AutomaticView(s, tables[s]) in views[|explicit|..])
    && (forall i :: |explicit| <= i < |views| ==>
          views[i].source.Some? && views[i].source.value in sources
          && views[i] == AutomaticView(views[i].source.value, tables[views[i].source.value]))
    && (forall i, j :: |explicit| <= i < j < |views| ==> views[i].source != views[j].source)
  }

  lemma ViewsForStep(views: seq<ExportView>, explicit: seq<ExportView>, sources: set<IpNet>, before: TableMap,
                     tables: TableMap, source: IpNet)
    requires sources <= before.Keys && ViewsFor(views, explicit, sources, before)
    requires source !in sources && source in tables && before.Keys <= tables.Keys
    requires forall s :: s in before ==> tables[s] == before[s]
    ensures ViewsFor(views + [AutomaticView(source, tables[source])], explicit, sources + {source}, tables)
  {
    var n := |explicit|;
    var views' := views + [AutomaticView(source, tables[source])];
    assert views'[n..] == views[n..] + [AutomaticView(source, tables[source])];
    assert views'[|views|].source.value == source;
  }

  /** Numbers beyond the surviving ones are new, in range and collide with nothing. */
  ghost predicate Fresh(tables: TableMap, kept: TableMap, explicit: set<u32>, base: u32) {
    && (forall s :: s in tables ==> tables[s] >= base && tables[s] !in explicit)
    && (forall s, t :: s in tables && t in tables && s !in kept && tables[s] == tables[t] ==> s == t)
  }

  lemma FreshStep(tables: TableMap, kept: TableMap, explicit: set<u32>, base: u32, source: IpNet, table: u32)
    requires Fresh(tables, kept, explicit, base) && source !in tables && kept.Keys <= tables.Keys
    requires base <= table && table !in explicit && table !in tables.Values
    ensures Fresh(tables[source := table], kept, explicit, base)
  {
    assert forall s :: s in tables ==> tables[s] in tables.Values;
  }

  lemma MoveOne(active: set<IpNet>, todo: set<IpNet>, kept: set<IpNet>, x: IpNet)
    requires x in todo && todo <= active
    ensures active - (todo - {x}) == (active - todo) + {x}
    ensures kept + ((active - todo) + {x}) == (kept + (active - todo)) + {x}
    ensures x !in active - todo
  {
  }

  lemma ValuesAfterInsert(m: TableMap, source: IpNet, table: u32)
    requires source !in m
    ensures m[source := table].Values == m.Values + {table}
    ensures m[source := table].Keys == m.Keys + {source}
  {
    var m' := m[source := table];
    assert m'[source] == table;
    forall v | v in m.Values ensures v in m'.Values {
      var s :| s in m && m[s] == v;
      assert m'[s] == v;
    }
  }

  lemma InjectiveIffKept(tables: TableMap, kept: TableMap, explicit: set<u32>, base: u32)
    requires Fresh(tables, kept, explicit, base) && kept.Keys <= tables.Keys
    requires forall s :: s in kept ==> tables[s] == kept[s]
    ensures Injective(tables) <==> Injective(kept)
  {
    if Injective(kept) {
      forall s, t | s in tables && t in tables && tables[s] == tables[t] ensures s == t {
        if s in kept && t in kept {
          assert kept[s] == kept[t];
        } else if s in kept {
          assert t == s;
        }
      }
    }
    if Injective(tables) {
      forall s, t | s in kept && t in kept && kept[s] == kept[t] ensures s == t {
        assert tables[s] == tables[t];
      }
    }
  }

  // ----- over a process lifetime

  /** A number the configuration may hand out. */
  predicate Permits(cfg: ExportConfig, table: u32) {
    table >= cfg.sourceTableBase && table !in ExplicitTables(cfg)
  }

  /** Recovered tables are those of eligible rules of sources without an explicit view; there are
      none while automatic sources are off. */
  ghost predicate EligibleHeld(cfg: ExportConfig, held: TableMap) {
    && Injective(held)
    && held.Keys !! ExplicitSources(cfg)
    && (forall s :: s in held ==> cfg.automaticSources && Permits(cfg, held[s]))
  }

  ghost predicate SubMap(a: TableMap, b: TableMap) {
    forall s :: s in a ==> s in b && b[s] == a[s]
  }

  /** One reconciliation: its configuration, its snapshot and the tables recovery still holds. */
  datatype Round = Round(cfg: ExportConfig, items: seq<Entry>, held: TableMap)

  /** Reconciliations in a row, each under its own configuration; the held rules only expire. */
  ghost predicate Lifetime(rounds: seq<Round>, states: seq<TableMap>) {
    && |states| == |rounds| + 1 && states[0] == map[]
    && (forall i :: 0 <= i < |rounds| ==> EligibleHeld(rounds[i].cfg, rounds[i].held))
    && (forall i :: 0 < i < |rounds| ==> SubMap(rounds[i].held, rounds[i - 1].held))
    && forall i :: 0 <= i < |rounds| ==>
         Reconciles(rounds[i].cfg, rounds[i].items, rounds[i].held, states[i], states[i + 1])
  }

  /** In every state of a lifetime no two sources share a table, and every
      recovered source still has its recovered table. */
  lemma {:induction false} TablesStayDistinct(rounds: seq<Round>, states: seq<TableMap>, n: nat)
    requires Lifetime(rounds, states) && n < |states|
    ensures Injective(states[n])
    ensures n > 0 ==> SubMap(rounds[n - 1].held, states[n])
  {
    hide Fresh;
    if n > 0 {
      TablesStayDistinct(rounds, states, n - 1);
      var r := rounds[n - 1];
      assert Reconciles(r.cfg, r.items, r.held, states[n - 1], states[n]);
      var active := Active(r.cfg, r.items, r.held);
      var kept := Kept(r.cfg, states[n - 1], r.held, active);
      if n > 1 { assert SubMap(r.held, rounds[n - 2].held); }
      KeptInjective(r.cfg, states[n - 1], r.held, active);
      forall s | s in r.held ensures s in states[n] && states[n][s] == r.held[s] {
        assert s in kept;
      }
    }
  }

  lemma KeptInjective(cfg: ExportConfig, tables: TableMap, held: TableMap, active: set<IpNet>)
    requires Injective(tables) && Injective(held)
    requires tables == map[] || SubMap(held, tables)
    ensures Injective(Kept(cfg, tables, held, active))
  {
    if tables == map[] {
      assert tables + held == held;
    } else {
      assert tables + held == tables;
    }
  }

  /** A source with a table on both sides of a reconciliation keeps it exactly when the
      configuration permits the number. */
  lemma ActiveSourceKeepsTable(cfg: ExportConfig, items: seq<Entry>, held: TableMap, before: TableMap,
                               after: TableMap, source: IpNet)
    requires Reconciles(cfg, items, held, before, after)
    requires SubMap(held, before) && source in before && source in after
    ensures after[source] == before[source] <==> Permits(cfg, before[source])
  {
    var active := Active(cfg, items, held);
    assert before + held == before;
    if Permits(cfg, before[source]) {
      assert source in Kept(cfg, before, held, active);
    }
  }

  /** Over a whole lifetime a source that stays active keeps its table as long as every
      configuration on the way permits it. */
  lemma {:induction false} StaysWithTable(rounds: seq<Round>, states: seq<TableMap>, source: IpNet, i: nat, j: nat)
    requires Lifetime(rounds, states) && 0 < i <= j < |states|
    requires forall k :: i <= k <= j ==> source in states[k]
    requires forall k :: i <= k < j ==> Permits(rounds[k].cfg, states[i][source])
    ensures states[j][source] == states[i][source]
  {
    if i < j {
      StaysWithTable(rounds, states, source, i, j - 1);
      TablesStayDistinct(rounds, states, j - 1);
      var r := rounds[j - 1];
      assert SubMap(r.held, rounds[j - 2].held);
      ActiveSourceKeepsTable(r.cfg, r.items, r.held, states[j - 1], states[j], source);
    }
  }

  /** Under one configuration nothing else is needed. */
  lemma UnchangedConfigurationKeepsTables(rounds: seq<Round>, states: seq<TableMap>, source: IpNet, i: nat, j: nat)
    requires Lifetime(rounds, states) && 0 < i <= j < |states|
    requires forall k :: i <= k <= j ==> source in states[k]
    requires forall k :: i <= k < j ==> rounds[k].cfg == rounds[i - 1].cfg
    ensures states[j][source] == states[i][source]
  {
    var r := rounds[i - 1];
    assert Reconciles(r.cfg, r.items, r.held, states[i - 1], states[i]);
    assert Permits(r.cfg, states[i][source]);
    StaysWithTable(rounds, states, source, i, j);
  }

  /** Colliding recovered rules would share a table. */
  lemma CollidingHeldCollide(a: IpNet, b: IpNet)
    requires a != b && a.bits != [] && b.bits != []
    ensures var cfg := ExportConfig(true, 1_000_000, 10_000, []);
            var held := map[a := 1_000_000, b := 1_000_000];
            !Injective(Kept(cfg, map[], held, Active(cfg, [], held)))
  {
    var cfg := ExportConfig(true, 1_000_000, 10_000, []);
    var held := map[a := 1_000_000, b := 1_000_000];
    var kept := Kept(cfg, map[], held, Active(cfg, [], held));
    assert a in kept && b in kept && kept[a] == kept[b];
  }

  /** Automatic allocation leaves exactly the complete views that make the
      kernel's walk destination-first. */
  lemma AllocationCompletesViews(cfg: ExportConfig, items: seq<Entry>, held: TableMap, tables: TableMap,
                                 views: seq<ExportView>)
    requires SeparateTables(cfg.views) && cfg.sourceRulePriority + 128 <= U32_MAX
    requires forall v :: v in cfg.views ==> v.rulePriority.None? && forall k :: v.allows(k)
    requires forall v :: v in cfg.views && v.source.Some? ==> |v.source.value.bits| <= 128
    requires exists v :: v in cfg.views && v.source.None?
    requires Injective(tables) && tables.Keys == Active(cfg, items, held)
    requires forall s :: s in tables ==> |s.bits| <= 128 && tables[s] !in ExplicitTables(cfg)
    requires ViewsFor(views, cfg.views, tables.Keys, tables)
    ensures CompleteViews(cfg.sourceRulePriority, views, items)
  {
    forall v | v in views
      ensures v.rulePriority.None? && (forall k :: v.allows(k))
      ensures v.source.Some? ==> |v.source.value.bits| <= 128
    {
      var i :| 0 <= i < |views| && views[i] == v;
      if i < |cfg.views| { assert cfg.views[i] == v; }
    }
    var o :| o in cfg.views && o.source.None?;
    assert o in views by { var i :| 0 <= i < |cfg.views| && cfg.views[i] == o; assert views[i] == o; }
    forall e | e in items && e.key.source.Some? ensures HasView(views, e.key.source.value) {
      SourceHasView(cfg, items, held, tables, views, e);
    }
    AutomaticTablesSeparate(cfg, tables, views);
  }

  lemma AutomaticTablesSeparate(cfg: ExportConfig, tables: TableMap, views: seq<ExportView>)
    requires SeparateTables(cfg.views) && Injective(tables)
    requires forall s :: s in tables ==> tables[s] !in ExplicitTables(cfg)
    requires ViewsFor(views, cfg.views, tables.Keys, tables)
    ensures SeparateTables(views)
  {
    var n := |cfg.views|;
    forall i, j | 0 <= i < j < |views| && n <= j ensures views[i].table != views[j].table {
      if i < n {
        assert cfg.views[i] == views[i];
        assert views[i].table in ExplicitTables(cfg);
      }
    }
    forall i, j, d | 0 <= i < j < |views| && views[i].table == views[j].table
      ensures !(Owns(views[i], d) && Owns(views[j], d))
    {
      assert cfg.views[i] == views[i] && cfg.views[j] == views[j];
    }
  }

  lemma SourceHasView(cfg: ExportConfig, items: seq<Entry>, held: TableMap, tables: TableMap,
                      views: seq<ExportView>, e: Entry)
    requires e in items && e.key.source.Some? && tables.Keys == Active(cfg, items, held)
    requires ViewsFor(views, cfg.views, tables.Keys, tables)
    ensures HasView(views, e.key.source.value)
  {
    var s := e.key.source.value;
    if s in ExplicitSources(cfg) {
      var i :| 0 <= i < |cfg.views| && cfg.views[i].source == Some(s);
      assert views[i] == cfg.views[i];
    } else {
      assert s in tables;
      var i :| 0 <= i < |views[|cfg.views|..]| && views[|cfg.views|..][i] == AutomaticView(s, tables[s]);
      assert views[|cfg.views| + i].source == Some(s);
    }
  }
}
