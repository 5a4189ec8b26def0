/** Projection of the selected routes into Linux policy tables
    (crates/babel-rs/src/linux/projection.rs:5-75, src/config.rs:465-470).

    Linux picks a table by source rule first and a route by destination second.
    RFC 9079 wants the opposite order: the longest destination, then the longest
    source.  The main result says that the materialised tables make both agree. */
module Projection {
  import opened Model

  datatype ExportView = ExportView(
    table: u32, source: Option<IpNet>, rulePriority: Option<u32>, allows: RouteKey -> bool)

  /** One line of a snapshot: a finite route, or (`None`) an unreachable hold. */
  datatype Entry = Entry(key: RouteKey, selected: Option<SelectedRoute>)

  type Tables = map<(u32, IpNet), Entry>

  function Items(routes: seq<SelectedRoute>, unreachable: seq<RouteKey>): seq<Entry> {
    seq(|routes|, i requires 0 <= i < |routes| => Entry(routes[i].key, Some(routes[i])))
    + seq(|unreachable|, i requires 0 <= i < |unreachable| => Entry(unreachable[i], None))
  }

  function Specificity(key: RouteKey): nat {
    if key.source.None? then 0 else |key.source.value.bits|
  }

  predicate RouteMatchesView(view: ExportView, key: RouteKey) {
    match (view.source, key.source)
    case (None, None) => true
    case (Some(s), None) => s.family == key.destination.family
    case (Some(s), Some(r)) => r.Contains(s)
    case (None, Some(_)) => false
  }

  /** A filter never removes a withdrawal hold. */
  predicate Matches(view: ExportView, e: Entry) {
    RouteMatchesView(view, e.key) && (e.selected.Some? ==> view.allows(e.key))
  }

  /** A hold wins against a finite route of the same source length. */
  predicate Replaces(e: Entry, current: Entry) {
    if e.selected.Some? then Specificity(e.key) > Specificity(current.key)
    else Specificity(e.key) >= Specificity(current.key)
  }

  // ----- the loops and the folds they compute

  function AddEntry(m: Tables, view: ExportView, e: Entry): Tables {
    var at := (view.table, e.key.destination);
    if Matches(view, e) && (at in m ==> Replaces(e, m[at])) then m[at := e] else m
  }

  function AddView(m: Tables, view: ExportView, items: seq<Entry>): Tables {
    if items == [] then m
    else AddEntry(AddView(m, view, items[..|items| - 1]), view, items[|items| - 1])
  }

  function AddViews(views: seq<ExportView>, items: seq<Entry>): Tables {
    if views == [] then map[]
    else AddView(AddViews(views[..|views| - 1], items), views[|views| - 1], items)
  }

  lemma AddViewStep(m: Tables, view: ExportView, items: seq<Entry>, n: nat)
    requires n < |items|
    ensures AddView(m, view, items[..n + 1]) == AddEntry(AddView(m, view, items[..n]), view, items[n])
  {
    assert items[..n + 1][..n] == items[..n];
  }

  lemma AddViewNothing(m: Tables, view: ExportView, items: seq<Entry>)
    ensures AddView(m, view, items[..0]) == m
  {
  }

  method ProjectRoutes(views: seq<ExportView>, routes: seq<SelectedRoute>, unreachable: seq<RouteKey>)
    returns (projected: Tables)
    ensures projected == AddViews(views, Items(routes, unreachable))
  {
    hide RouteMatchesView, Specificity, AddView;
    projected := map[];
    ghost var items := Items(routes, unreachable);
    for i := 0 to |views|
      invariant projected == AddViews(views[..i], items)
    {
      var view := views[i];
      ghost var before := projected;
      assert views[..i + 1][..i] == views[..i];
      AddViewNothing(before, view, items);
      for j := 0 to |routes|
        invariant projected == AddView(before, view, items[..j])
      {
        var route := routes[j];
        AddViewStep(before, view, items, j);
        if RouteMatchesView(view, route.key) && view.allows(route.key) {
          var at := (view.table, route.key.destination);
          if at !in projected || Specificity(route.key) > Specificity(projected[at].key) {
            projected := projected[at := Entry(route.key, Some(route))];
          }
        }
      }
      for j := 0 to |unreachable|
        invariant projected == AddView(before, view, items[..|routes| + j])
      {
        var key := unreachable[j];
        AddViewStep(before, view, items, |routes| + j);
        var at := (view.table, key.destination);
        if RouteMatchesView(view, key)
           && !(at in projected && Specificity(projected[at].key) > Specificity(key)) {
          projected := projected[at := Entry(key, None)];
        }
      }
      assert items[..|routes| + |unreachable|] == items;
    }
    assert views[..|views|] == views;
  }

  // ----- what one table holds

  predicate ViewTakes(view: ExportView, e: Entry, destination: IpNet) {
    Matches(view, e) && e.key.destination == destination
  }

  /** The entry a view keeps for one destination. */
  function Pick(items: seq<Entry>, view: ExportView, destination: IpNet): Option<Entry> {
    if items == [] then None
    else
      var kept := Pick(items[..|items| - 1], view, destination);
      var e := items[|items| - 1];
      if ViewTakes(view, e, destination) && (kept.Some? ==> Replaces(e, kept.value)) then Some(e) else kept
  }

  function Lookup(m: Tables, at: (u32, IpNet)): Option<Entry> {
    if at in m then Some(m[at]) else None
  }

  /** Destinations a view can ever write: its own family, or both for an ordinary view. */
  predicate Owns(view: ExportView, destination: IpNet) {
    view.source.None? || view.source.value.family == destination.family
  }

  /** Validated configurations give each (table, family) to one view. */
  ghost predicate SeparateTables(views: seq<ExportView>) {
    forall i, j, d :: 0 <= i < j < |views| && views[i].table == views[j].table
      ==> !(Owns(views[i], d) && Owns(views[j], d))
  }

  /** Sources share the destination's family (`RouteKey::new`). */
  ghost predicate SameFamily(items: seq<Entry>) {
    forall e :: e in items && e.key.source.Some? ==> e.key.source.value.family == e.key.destination.family
  }

  lemma {:induction false} AddViewIsPick(m: Tables, view: ExportView, items: seq<Entry>, d: IpNet)
    requires SameFamily(items) && (view.table, d) !in m
    ensures Lookup(AddView(m, view, items), (view.table, d)) == Pick(items, view, d)
  {
    if items != [] {
      AddViewIsPick(m, view, items[..|items| - 1], d);
    }
  }

  lemma {:induction false} AddViewElsewhere(m: Tables, view: ExportView, items: seq<Entry>, at: (u32, IpNet))
    requires SameFamily(items) && (at.0 != view.table || !Owns(view, at.1))
    ensures Lookup(AddView(m, view, items), at) == Lookup(m, at)
  {
    if items != [] {
      AddViewElsewhere(m, view, items[..|items| - 1], at);
      var e := items[|items| - 1];
      assert e in items;
    }
  }

  lemma {:induction false} Unwritten(views: seq<ExportView>, items: seq<Entry>, at: (u32, IpNet))
    requires SameFamily(items)
    requires forall v :: v in views ==> v.table != at.0 || !Owns(v, at.1)
    ensures at !in AddViews(views, items)
  {
    if views != [] {
      var last := views[|views| - 1];
      Unwritten(views[..|views| - 1], items, at);
      AddViewElsewhere(AddViews(views[..|views| - 1], items), last, items, at);
    }
  }

  /** Each view's table holds exactly what the view picks. */
  lemma {:induction false} TableHoldsPick(views: seq<ExportView>, items: seq<Entry>, i: nat, d: IpNet)
    requires SameFamily(items) && SeparateTables(views) && i < |views| && Owns(views[i], d)
    ensures Lookup(AddViews(views, items), (views[i].table, d)) == Pick(items, views[i], d)
  {
    var n := |views| - 1;
    var before := AddViews(views[..n], items);
    var at := (views[i].table, d);
    if i == n {
      forall v | v in views[..n] ensures v.table != at.0 || !Owns(v, at.1) {
        var k :| 0 <= k < n && views[k] == v;
      }
      Unwritten(views[..n], items, at);
      AddViewIsPick(before, views[n], items, d);
    } else {
      assert SeparateTables(views[..n]);
      TableHoldsPick(views[..n], items, i, d);
      AddViewElsewhere(before, views[n], items, at);
    }
  }

  // ----- the best entry, destination first

  predicate Covers(key: RouteKey, src: IpNet, dst: IpNet) {
    key.destination.Contains(dst) && (key.source.Some? ==> key.source.value.Contains(src))
  }

  /** Lexicographic order on (destination length, source length, hold before finite). */
  predicate NoBetter(e: Entry, than: Entry) {
    var d, d' := |e.key.destination.bits|, |than.key.destination.bits|;
    var s, s' := Specificity(e.key), Specificity(than.key);
    d < d' || (d == d' && (s < s' || (s == s' && (e.selected.None? ==> than.selected.None?))))
  }

  /** Destination-first lookup over the snapshot itself. */
  ghost predicate IsBest(items: seq<Entry>, src: IpNet, dst: IpNet, e: Entry) {
    && e in items && Covers(e.key, src, dst)
    && forall o :: o in items && Covers(o.key, src, dst) ==> NoBetter(o, e)
  }

  /** A snapshot lists each finite key once (it comes from an ordered map). */
  ghost predicate DistinctFinite(items: seq<Entry>) {
    forall e, o :: e in items && o in items && e.key == o.key && e.selected.Some? && o.selected.Some?
      ==> e == o
  }

  lemma BestIsUnique(items: seq<Entry>, src: IpNet, dst: IpNet, a: Entry, b: Entry)
    requires DistinctFinite(items) && IsBest(items, src, dst, a) && IsBest(items, src, dst, b)
    requires forall e :: e in items && e.key.source.Some? ==> e.key.source.value.bits != []
    ensures a == b
  {
    SamePrefix(a.key.destination, b.key.destination, dst);
    if a.key.source.Some? && b.key.source.Some? {
      SamePrefix(a.key.source.value, b.key.source.value, src);
    }
    assert a.key == b.key;
  }

  lemma SamePrefix(a: IpNet, b: IpNet, host: IpNet)
    requires a.Contains(host) && b.Contains(host) && |a.bits| == |b.bits|
    ensures a == b
  {
    assert a.bits == host.bits[..|a.bits|] == b.bits;
  }

  lemma ContainsNests(a: IpNet, b: IpNet, host: IpNet)
    requires a.Contains(host) && b.Contains(host) && |a.bits| <= |b.bits|
    ensures a.Contains(b)
  {
    assert a.bits == host.bits[..|a.bits|] == b.bits[..|a.bits|];
  }

  lemma {:induction false} PickIsBest(items: seq<Entry>, view: ExportView, d: IpNet)
    ensures var p := Pick(items, view, d);
      match p
      case None => forall e :: e in items ==> !ViewTakes(view, e, d)
      case Some(w) =>
        && w in items && ViewTakes(view, w, d)
        && (forall e :: e in items && ViewTakes(view, e, d) ==> NoBetter(e, w))
  {
    if items != [] {
      var n := |items| - 1;
      PickIsBest(items[..n], view, d);
      forall e | e in items ensures e in items[..n] || e == items[n] {
        var k :| 0 <= k < |items| && items[k] == e;
        if k < n { assert items[..n][k] == e; }
      }
    }
  }

  // ----- the kernel's walk

  function RulePriority(base: u32, view: ExportView): u32 {
    if view.rulePriority.Some? then view.rulePriority.value
    else
      var len := if view.source.None? then 0 else |view.source.value.bits|;
      Min(base + SatSub(128, len), U32_MAX)
  }

  /** Longest-prefix match in one table, trying `len` destination bits and fewer. */
  function LongestMatch(m: Tables, table: u32, dst: IpNet, len: nat): Option<Entry>
    requires len <= |dst.bits|
    decreases len
  {
    var at := (table, IpNet(dst.family, dst.bits[..len]));
    if at in m then Some(m[at])
    else if len == 0 then None
    else LongestMatch(m, table, dst, len - 1)
  }

  predicate Selects(view: ExportView, src: IpNet) {
    view.source.Some? ==> view.source.value.Contains(src)
  }

  /** Walk the rules in order; a table without a match falls through. */
  function Walk(rules: seq<ExportView>, m: Tables, src: IpNet, dst: IpNet): Option<Entry> {
    if rules == [] then None
    else
      var hit := if Selects(rules[0], src) then LongestMatch(m, rules[0].table, dst, |dst.bits|) else None;
      if hit.Some? then hit else Walk(rules[1..], m, src, dst)
  }

  /** The order the kernel evaluates the views in: source rules by priority,
      the ordinary tables last; ties in any order. */
  ghost predicate KernelOrder(base: u32, rules: seq<ExportView>, views: seq<ExportView>) {
    && (forall v :: v in rules <==> v in views)
    && forall i, j :: 0 <= i < j < |rules| ==>
         && (rules[i].source.None? ==> rules[j].source.None?)
         && (rules[i].source.Some? && rules[j].source.Some? ==>
               RulePriority(base, rules[i]) <= RulePriority(base, rules[j]))
  }

  /** Unfiltered views with a rule for every source in the snapshot, an
      ordinary view, and no hand-written priorities, as automatic allocation
      leaves them. */
  ghost predicate CompleteViews(base: u32, views: seq<ExportView>, items: seq<Entry>) {
    && SeparateTables(views)
    && base + 128 <= U32_MAX
    && (forall v :: v in views ==> v.rulePriority.None? && forall k :: v.allows(k))
    && (forall v :: v in views && v.source.Some? ==> |v.source.value.bits| <= 128)
    && (exists v :: v in views && v.source.None?)
    && (forall e :: e in items && e.key.source.Some? ==> HasView(views, e.key.source.value))
  }

  ghost predicate HasView(views: seq<ExportView>, source: IpNet) {
    exists v :: v in views && v.source == Some(source)
  }

  ghost predicate CanonicalSnapshot(items: seq<Entry>) {
    && SameFamily(items)
    && forall e :: e in items && e.key.source.Some? ==> e.key.source.value.bits != []
  }

  /** The first selecting rule sees every covering entry. */
  lemma FirstRuleTakesAllCovering(base: u32, rules: seq<ExportView>, views: seq<ExportView>,
                                  items: seq<Entry>, n: nat, src: IpNet, dst: IpNet, e: Entry)
    requires CompleteViews(base, views, items) && KernelOrder(base, rules, views)
    requires CanonicalSnapshot(items)
    requires n < |rules| && Selects(rules[n], src) && forall i :: 0 <= i < n ==> !Selects(rules[i], src)
    requires src.family == dst.family
    requires e in items && Covers(e.key, src, dst)
    ensures Matches(rules[n], e)
  {
    assert rules[n] in views;
    if e.key.source.Some? {
      var v :| v in views && v.source == e.key.source;
      assert v in rules;
      var k :| 0 <= k < |rules| && rules[k] == v;
      assert Selects(rules[k], src);
      if k != n {
        assert n < k;
        var mine := rules[n].source.value;
        assert RulePriority(base, rules[n]) <= RulePriority(base, rules[k]);
        assert |v.source.value.bits| <= |mine.bits|;
        ContainsNests(v.source.value, mine, src);
      }
    }
  }

  predicate Reaches(view: ExportView, e: Entry, dst: IpNet) {
    Matches(view, e) && e.key.destination.Contains(dst)
  }

  lemma {:induction false} MatchInTable(views: seq<ExportView>, items: seq<Entry>, view: ExportView,
                                        src: IpNet, dst: IpNet, len: nat)
    requires SameFamily(items) && SeparateTables(views) && view in views && len <= |dst.bits|
    requires Selects(view, src) && src.family == dst.family
    ensures match LongestMatch(AddViews(views, items), view.table, dst, len)
      case None =>
        forall e :: e in items && Reaches(view, e, dst) ==> |e.key.destination.bits| > len
      case Some(w) =>
        && w in items && Reaches(view, w, dst)
        && (forall e :: e in items && Reaches(view, e, dst) && |e.key.destination.bits| <= len
              ==> NoBetter(e, w))
    decreases len
  {
    var i :| 0 <= i < |views| && views[i] == view;
    var d := IpNet(dst.family, dst.bits[..len]);
    TableHoldsPick(views, items, i, d);
    PickIsBest(items, view, d);
    forall e | e in items && Reaches(view, e, dst)
      ensures |e.key.destination.bits| == len ==> ViewTakes(view, e, d)
    {
      if |e.key.destination.bits| == len { SamePrefix(e.key.destination, d, dst); }
    }
    if len > 0 && Pick(items, view, d).None? {
      MatchInTable(views, items, view, src, dst, len - 1);
    }
  }

  /** Rules after the first selecting one cannot find anything it did not. */
  lemma {:induction false} NothingLater(rules: seq<ExportView>, views: seq<ExportView>, items: seq<Entry>,
                                        src: IpNet, dst: IpNet)
    requires SameFamily(items) && SeparateTables(views) && src.family == dst.family
    requires forall v :: v in rules ==> v in views
    requires forall e :: e in items ==> !Covers(e.key, src, dst)
    ensures Walk(rules, AddViews(views, items), src, dst) == None
  {
    if rules != [] {
      if Selects(rules[0], src) {
        MatchInTable(views, items, rules[0], src, dst, |dst.bits|);
      }
      NothingLater(rules[1..], views, items, src, dst);
    }
  }

  /** First selecting rule at or after `n`. */
  lemma {:induction false} WalkFromFirst(rules: seq<ExportView>, m: Tables, src: IpNet, dst: IpNet, n: nat)
    requires n < |rules| && Selects(rules[n], src) && forall i :: 0 <= i < n ==> !Selects(rules[i], src)
    ensures Walk(rules, m, src, dst) ==
      var hit := LongestMatch(m, rules[n].table, dst, |dst.bits|);
      if hit.Some? then hit else Walk(rules[n + 1..], m, src, dst)
  {
    if n > 0 {
      WalkFromFirst(rules[1..], m, src, dst, n - 1);
      assert rules[1..][n - 1 + 1..] == rules[n + 1..];
    }
  }

  /** Source rules first, destinations second finds exactly the best entry by
      destination first, source second; holds included, no match included. */
  lemma WalkIsDestinationFirst(base: u32, rules: seq<ExportView>, views: seq<ExportView>,
                               items: seq<Entry>, src: IpNet, dst: IpNet)
    requires CompleteViews(base, views, items) && KernelOrder(base, rules, views)
    requires CanonicalSnapshot(items) && DistinctFinite(items)
    requires src.family == dst.family
    ensures var found := Walk(rules, AddViews(views, items), src, dst);
      && (found.None? <==> forall e :: e in items ==> !Covers(e.key, src, dst))
      && forall e :: found == Some(e) <==> IsBest(items, src, dst, e)
  {
    var m := AddViews(views, items);
    var n := FirstSelecting(rules, views, src);
    WalkFromFirst(rules, m, src, dst, n);
    MatchInTable(views, items, rules[n], src, dst, |dst.bits|);
    forall e | e in items && Covers(e.key, src, dst) ensures Matches(rules[n], e) {
      FirstRuleTakesAllCovering(base, rules, views, items, n, src, dst, e);
    }
    assert forall e :: e in items && Reaches(rules[n], e, dst) ==> Covers(e.key, src, dst);
    var hit := LongestMatch(m, rules[n].table, dst, |dst.bits|);
    if hit.None? {
      NothingLater(rules[n + 1..], views, items, src, dst);
    } else {
      assert IsBest(items, src, dst, hit.value);
      forall e | IsBest(items, src, dst, e) ensures e == hit.value {
        BestIsUnique(items, src, dst, e, hit.value);
      }
    }
  }

  lemma FirstSelecting(rules: seq<ExportView>, views: seq<ExportView>, src: IpNet) returns (n: nat)
    requires forall v :: v in views ==> v in rules
    requires exists v :: v in views && v.source.None?
    ensures n < |rules| && Selects(rules[n], src) && forall i :: 0 <= i < n ==> !Selects(rules[i], src)
  {
    var v :| v in views && v.source.None?;
    var k :| 0 <= k < |rules| && rules[k] == v;
    n := 0;
    while !Selects(rules[n], src)
      invariant n <= k
      invariant forall i :: 0 <= i < n ==> !Selects(rules[i], src)
      decreases k - n
    {
      n := n + 1;
    }
  }
}
