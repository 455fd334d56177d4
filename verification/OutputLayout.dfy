// What the stored rows say about the output they came from: which outputs are accepted, and
// that the flat tables determine the nested output (up to the order of evidence uses).
module OutputLayout {
  import opened Sql
  import opened PlanningOutput

  // A dimension together with the number of the route it belongs to.
  datatype Placed = Placed(route: nat, dimension: Dimension)

  function Block(route: nat, dimensions: seq<Dimension>): (block: seq<Placed>)
    ensures |block| == |dimensions|
    ensures forall i :: 0 <= i < |block| ==> block[i] == Placed(route, dimensions[i])
  {
    seq(|dimensions|, i requires 0 <= i < |dimensions| => Placed(route, dimensions[i]))
  }

  // All dimensions in storage order; the position in this list is the dimension number.
  function Flat(last: nat, routes: seq<Route>): seq<Placed>
    decreases |routes|
  {
    if routes == [] then [] else Block(last + 1, routes[0].dimensions) + Flat(last + 1, routes[1..])
  }

  function RouteRows(routes: seq<Route>): (rows: seq<RouteRow>)
    ensures |rows| == |routes|
    ensures forall i :: 0 <= i < |rows| ==> rows[i] == RouteRowOf(routes[i])
  {
    seq(|routes|, i requires 0 <= i < |routes| => RouteRowOf(routes[i]))
  }

  // The route, dimension and link tables hold exactly these routes and dimensions.
  ghost predicate Layout(rows: Rows, routes: seq<RouteRow>, flat: seq<Placed>) {
    && (forall k :: k in rows.routes <==> 1 <= k <= |routes|)
    && (forall k :: k in rows.routes ==> rows.routes[k] == routes[k - 1])
    && (forall k :: k in rows.dimensions <==> 1 <= k.dimension <= |flat| && flat[k.dimension - 1].route == k.route)
    && (forall k :: k in rows.dimensions ==> rows.dimensions[k] == DimensionRowOf(flat[k.dimension - 1].dimension))
    && (forall l :: l in rows.links <==>
          && 1 <= l.dimension <= |flat|
          && flat[l.dimension - 1].route == l.route
          && EvidenceUse(l.evidence, l.role) in flat[l.dimension - 1].dimension.uses)
  }

  predicate Distinct<T(==)>(s: seq<T>) {
    forall i, j :: 0 <= i < j < |s| ==> s[i] != s[j]
  }

  predicate UsesAcceptable(claims: Claims, uses: seq<EvidenceUse>) {
    forall i :: 0 <= i < |uses| ==> LinkValid(claims, uses[i].evidence, uses[i].role)
  }

  predicate DimensionAcceptable(claims: Claims, d: Dimension) {
    DimensionValid(DimensionRowOf(d)) && UsesAcceptable(claims, d.uses) && Distinct(d.uses)
  }

  predicate RouteAcceptable(claims: Claims, r: Route) {
    && RouteValid(RouteRowOf(r))
    && forall i :: 0 <= i < |r.dimensions| ==> DimensionAcceptable(claims, r.dimensions[i])
  }

  predicate OneRoutePerCountry(rows: seq<RouteRow>) {
    forall i, j :: 0 <= i < j < |rows| ==> rows[i].country != rows[j].country
  }

  // Exactly what the checks, keys and provenance triggers let through.
  ghost predicate Acceptable(claims: Claims, output: Output) {
    && (forall i :: 0 <= i < |output.routes| ==> RouteAcceptable(claims, output.routes[i]))
    && OneRoutePerCountry(RouteRows(output.routes))
    && (forall i :: 0 <= i < |output.costs| ==> CostProvenance(claims, output.costs[i]) && CostValid(output.costs[i]))
    && (forall i :: 0 <= i < |output.rankings| ==>
          Supports(claims, output.rankings[i].evidence, "australia_ranking") && RankingValid(output.rankings[i]))
  }

  // ------------------------------------------------------------------ one insert keeps the layout

  lemma LinkLayout(claims: Claims, rows: Rows, routes: seq<RouteRow>, flat: seq<Placed>, route: nat, d: Dimension, use: EvidenceUse)
    requires Layout(rows, routes, flat + [Placed(route, d)])
    ensures var l := Link(route, |flat| + 1, use.evidence, use.role);
            var r := InsertLink(claims, rows, l);
            && (r.Ok? <==> LinkValid(claims, use.evidence, use.role) && use !in d.uses)
            && (r.Ok? ==>
                  && Layout(r.value, routes, flat + [Placed(route, d.(uses := d.uses + [use]))])
                  && r.value.costs == rows.costs && r.value.rankings == rows.rankings)
  {
    hide LinkValid;
    var l := Link(route, |flat| + 1, use.evidence, use.role);
    assert (flat + [Placed(route, d)])[|flat|] == Placed(route, d);
    assert l in rows.links <==> use in d.uses;
    if InsertLink(claims, rows, l).Ok? {
      var after := InsertLink(claims, rows, l).value;
      var longer := flat + [Placed(route, d.(uses := d.uses + [use]))];
      forall m
        ensures m in after.links <==>
                  && 1 <= m.dimension <= |longer|
                  && longer[m.dimension - 1].route == m.route
                  && EvidenceUse(m.evidence, m.role) in longer[m.dimension - 1].dimension.uses
      {
        if m.dimension == |flat| + 1 && m.route == route {
          assert EvidenceUse(m.evidence, m.role) == use <==> m == l;
        }
      }
    }
  }

  lemma {:induction false} UsesLayout(claims: Claims, rows: Rows, routes: seq<RouteRow>, flat: seq<Placed>, route: nat, d: Dimension, uses: seq<EvidenceUse>)
    requires Layout(rows, routes, flat + [Placed(route, d)]) && Distinct(d.uses)
    ensures var r := StoreUses(claims, rows, route, |flat| + 1, uses);
            && (r.Ok? <==> UsesAcceptable(claims, uses) && Distinct(d.uses + uses))
            && (r.Ok? ==>
                  && Layout(r.value, routes, flat + [Placed(route, d.(uses := d.uses + uses))])
                  && r.value.costs == rows.costs && r.value.rankings == rows.rankings)
    decreases |uses|
  {
    hide LinkValid, Layout, InsertLink;
    if uses == [] {
      assert d.uses + uses == d.uses;
    } else {
      LinkLayout(claims, rows, routes, flat, route, d, uses[0]);
      var r := InsertLink(claims, rows, Link(route, |flat| + 1, uses[0].evidence, uses[0].role));
      DistinctSplit(d.uses, uses);
      assert UsesAcceptable(claims, uses) <==> LinkValid(claims, uses[0].evidence, uses[0].role) && UsesAcceptable(claims, uses[1..]) by {
        assert forall i :: 1 <= i < |uses| ==> uses[i] == uses[1..][i - 1];
      }
      if r.Ok? {
        var longer := d.(uses := d.uses + [uses[0]]);
        UsesLayout(claims, r.value, routes, flat, route, longer, uses[1..]);
        assert longer.uses + uses[1..] == d.uses + uses;
      }
    }
  }

  lemma DistinctSplit<T>(a: seq<T>, b: seq<T>)
    requires Distinct(a) && b != []
    ensures Distinct(a + [b[0]]) <==> b[0] !in a
    ensures Distinct(a + b) ==> Distinct(a + [b[0]])
    ensures (a + [b[0]]) + b[1..] == a + b
  {
    if Distinct(a + b) {
      forall i, j | 0 <= i < j < |a| + 1
        ensures (a + [b[0]])[i] != (a + [b[0]])[j]
      {
        assert (a + b)[i] != (a + b)[j];
      }
    }
    if Distinct(a + [b[0]]) {
      forall i | 0 <= i < |a|
        ensures a[i] != b[0]
      {
        assert (a + [b[0]])[i] != (a + [b[0]])[|a|];
      }
    }
  }

  // Dimension numbers are fresh: storing a dimension fails only for its own contents.
  lemma DimensionLayout(claims: Claims, rows: Rows, routes: seq<RouteRow>, flat: seq<Placed>, route: nat, d: Dimension)
    requires Layout(rows, routes, flat)
    ensures var r := StoreDimension(claims, rows, route, |flat| + 1, d);
            && (r.Ok? <==> DimensionAcceptable(claims, d))
            && (r.Ok? ==>
                  && Layout(r.value, routes, flat + [Placed(route, d)])
                  && r.value.costs == rows.costs && r.value.rankings == rows.rankings)
  {
    hide StoreUses;
    var k := DimensionKey(route, |flat| + 1);
    assert k !in rows.dimensions;
    var bare := d.(uses := []);
    var inserted := InsertDimension(rows, k, DimensionRowOf(d));
    if inserted.Ok? {
      assert Layout(inserted.value, routes, flat + [Placed(route, bare)]) by {
        assert forall m :: m in inserted.value.dimensions <==> m in rows.dimensions || m == k;
      }
      UsesLayout(claims, inserted.value, routes, flat, route, bare, d.uses);
      assert [] + d.uses == d.uses;
      assert bare.(uses := d.uses) == d;
    }
  }

  lemma {:induction false} DimensionsLayout(claims: Claims, rows: Rows, routes: seq<RouteRow>, flat: seq<Placed>, route: nat, dimensions: seq<Dimension>)
    requires Layout(rows, routes, flat)
    ensures var r := StoreDimensions(claims, rows, route, |flat|, dimensions);
            && (r.Ok? <==> forall i :: 0 <= i < |dimensions| ==> DimensionAcceptable(claims, dimensions[i]))
            && (r.Ok? ==>
                  && Layout(r.value, routes, flat + Block(route, dimensions))
                  && r.value.costs == rows.costs && r.value.rankings == rows.rankings)
    decreases |dimensions|
  {
    hide Layout, StoreDimension, DimensionAcceptable;
    if dimensions == [] {
      assert flat + Block(route, dimensions) == flat;
    } else {
      DimensionLayout(claims, rows, routes, flat, route, dimensions[0]);
      var r := StoreDimension(claims, rows, route, |flat| + 1, dimensions[0]);
      assert forall i :: 1 <= i < |dimensions| ==> dimensions[i] == dimensions[1..][i - 1];
      if r.Ok? {
        var longer := flat + [Placed(route, dimensions[0])];
        DimensionsLayout(claims, r.value, routes, longer, route, dimensions[1..]);
        assert longer + Block(route, dimensions[1..]) == flat + Block(route, dimensions);
      }
    }
  }

  lemma NewCountry(rows: Rows, routes: seq<RouteRow>, flat: seq<Placed>, row: RouteRow)
    requires Layout(rows, routes, flat) && OneRoutePerCountry(routes)
    ensures OneRoutePerCountry(routes + [row]) <==> forall k :: k in rows.routes ==> rows.routes[k].country != row.country
  {
    var longer := routes + [row];
    assert forall i :: 0 <= i < |routes| ==> i + 1 in rows.routes && rows.routes[i + 1] == routes[i] == longer[i];
    assert longer[|routes|] == row;
  }

  lemma RouteLayout(claims: Claims, rows: Rows, routes: seq<RouteRow>, flat: seq<Placed>, r: Route)
    requires Layout(rows, routes, flat) && OneRoutePerCountry(routes)
    ensures var stored := StoreRoute(claims, rows, |routes| + 1, |flat|, r);
            && (stored.Ok? <==> RouteAcceptable(claims, r) && OneRoutePerCountry(routes + [RouteRowOf(r)]))
            && (stored.Ok? ==>
                  && Layout(stored.value, routes + [RouteRowOf(r)], flat + Block(|routes| + 1, r.dimensions))
                  && stored.value.costs == rows.costs && stored.value.rankings == rows.rankings)
  {
    hide DimensionAcceptable, StoreDimensions, OneRoutePerCountry;
    var row := RouteRowOf(r);
    var longer := routes + [row];
    NewCountry(rows, routes, flat, row);
    var inserted := InsertRoute(rows, |routes| + 1, row);
    if inserted.Ok? {
      assert Layout(inserted.value, longer, flat);
      DimensionsLayout(claims, inserted.value, longer, flat, |routes| + 1, r.dimensions);
    }
  }

  lemma CountriesPrefix(a: seq<RouteRow>, b: seq<RouteRow>)
    ensures OneRoutePerCountry(a + b) ==> OneRoutePerCountry(a)
  {
    assert forall i :: 0 <= i < |a| ==> (a + b)[i] == a[i];
  }

  lemma {:induction false} RoutesLayout(claims: Claims, rows: Rows, done: seq<RouteRow>, flat: seq<Placed>, routes: seq<Route>)
    requires Layout(rows, done, flat) && OneRoutePerCountry(done)
    ensures var r := StoreRoutes(claims, rows, |done|, |flat|, routes);
            && (r.Ok? <==>
                  && (forall i :: 0 <= i < |routes| ==> RouteAcceptable(claims, routes[i]))
                  && OneRoutePerCountry(done + RouteRows(routes)))
            && (r.Ok? ==>
                  && Layout(r.value, done + RouteRows(routes), flat + Flat(|done|, routes))
                  && r.value.costs == rows.costs && r.value.rankings == rows.rankings)
    decreases |routes|
  {
    hide Layout, StoreRoute, RouteAcceptable, OneRoutePerCountry;
    if routes == [] {
      assert done + RouteRows(routes) == done && flat + Flat(|done|, routes) == flat;
    } else {
      var row := RouteRowOf(routes[0]);
      var block := Block(|done| + 1, routes[0].dimensions);
      RouteLayout(claims, rows, done, flat, routes[0]);
      var r := StoreRoute(claims, rows, |done| + 1, |flat|, routes[0]);
      assert forall i :: 1 <= i < |routes| ==> routes[i] == routes[1..][i - 1];
      assert (done + [row]) + RouteRows(routes[1..]) == done + RouteRows(routes);
      assert (flat + block) + Flat(|done| + 1, routes[1..]) == flat + Flat(|done|, routes);
      CountriesPrefix(done + [row], RouteRows(routes[1..]));
      if r.Ok? {
        RoutesLayout(claims, r.value, done + [row], flat + block, routes[1..]);
      }
    }
  }

  // ------------------------------------------------------------------ costs and rankings

  // Rows one to n of a numbered table, in order.
  ghost predicate Stored<T>(table: map<nat, T>, items: seq<T>) {
    && (forall k :: k in table <==> 1 <= k <= |items|)
    && forall k :: k in table ==> table[k] == items[k - 1]
  }

  lemma StoredDetermines<T>(table: map<nat, T>, a: seq<T>, b: seq<T>)
    requires Stored(table, a) && Stored(table, b)
    ensures a == b
  {
    assert |a| > 0 ==> |a| in table;
    assert |b| > 0 ==> |b| in table;
    forall i | 0 <= i < |a|
      ensures a[i] == b[i]
    {
      assert i + 1 in table;
    }
  }

  predicate SameElsewhere(a: Rows, b: Rows) {
    a.routes == b.routes && a.dimensions == b.dimensions && a.links == b.links
  }

  lemma {:induction false} CostsLayout(claims: Claims, rows: Rows, done: seq<Cost>, costs: seq<Cost>)
    requires Stored(rows.costs, done)
    ensures var r := StoreCosts(claims, rows, |done|, costs);
            && (r.Ok? <==> forall i :: 0 <= i < |costs| ==> CostProvenance(claims, costs[i]) && CostValid(costs[i]))
            && (r.Ok? ==> Stored(r.value.costs, done + costs) && SameElsewhere(r.value, rows) && r.value.rankings == rows.rankings)
    decreases |costs|
  {
    hide CostProvenance, CostValid;
    if costs == [] {
      assert done + costs == done;
    } else {
      var r := InsertCost(claims, rows, |done| + 1, costs[0]);
      assert forall i :: 1 <= i < |costs| ==> costs[i] == costs[1..][i - 1];
      if r.Ok? {
        assert Stored(r.value.costs, done + [costs[0]]);
        CostsLayout(claims, r.value, done + [costs[0]], costs[1..]);
        assert (done + [costs[0]]) + costs[1..] == done + costs;
      }
    }
  }

  lemma {:induction false} RankingsLayout(claims: Claims, rows: Rows, done: seq<Ranking>, rankings: seq<Ranking>)
    requires Stored(rows.rankings, done)
    ensures var r := StoreRankings(claims, rows, |done|, rankings);
            && (r.Ok? <==> forall i :: 0 <= i < |rankings| ==>
                  Supports(claims, rankings[i].evidence, "australia_ranking") && RankingValid(rankings[i]))
            && (r.Ok? ==> Stored(r.value.rankings, done + rankings) && SameElsewhere(r.value, rows) && r.value.costs == rows.costs)
    decreases |rankings|
  {
    hide Supports, RankingValid;
    if rankings == [] {
      assert done + rankings == done;
    } else {
      var r := InsertRanking(claims, rows, |done| + 1, rankings[0]);
      assert forall i :: 1 <= i < |rankings| ==> rankings[i] == rankings[1..][i - 1];
      if r.Ok? {
        assert Stored(r.value.rankings, done + [rankings[0]]);
        RankingsLayout(claims, r.value, done + [rankings[0]], rankings[1..]);
        assert (done + [rankings[0]]) + rankings[1..] == done + rankings;
      }
    }
  }

  // ------------------------------------------------------------------ the whole output

  // The nested loops accept exactly the acceptable outputs (no numbering ever collides), and
  // leave the output's own routes, dimensions, links, costs and rankings in the tables.
  lemma OutputStored(claims: Claims, output: Output)
    ensures StoreOutput(claims, output).Ok? <==> Acceptable(claims, output)
    ensures StoreOutput(claims, output).Ok? ==>
              var rows := StoreOutput(claims, output).value;
              && Layout(rows, RouteRows(output.routes), Flat(0, output.routes))
              && Stored(rows.costs, output.costs)
              && Stored(rows.rankings, output.rankings)
  {
    hide StoreRoutes, StoreCosts, StoreRankings, CostProvenance, CostValid, Supports, RankingValid, RouteAcceptable, Layout, Stored, Flat, OneRoutePerCountry;
    EmptyTables();
    RoutesLayout(claims, NO_ROWS, [], [], output.routes);
    assert [] + RouteRows(output.routes) == RouteRows(output.routes) && [] + Flat(0, output.routes) == Flat(0, output.routes);
    var routed := StoreRoutes(claims, NO_ROWS, 0, 0, output.routes);
    if routed.Ok? {
      CostsLayout(claims, routed.value, [], output.costs);
      assert [] + output.costs == output.costs;
      var costed := StoreCosts(claims, routed.value, 0, output.costs);
      if costed.Ok? {
        RankingsLayout(claims, costed.value, [], output.rankings);
        assert [] + output.rankings == output.rankings;
        var ranked := StoreRankings(claims, costed.value, 0, output.rankings);
        if ranked.Ok? {
          SameLayout(ranked.value, costed.value, routed.value, RouteRows(output.routes), Flat(0, output.routes));
        }
      }
    }
  }

  lemma EmptyTables()
    ensures Layout(NO_ROWS, [], []) && OneRoutePerCountry([])
    ensures Stored(NO_ROWS.costs, []) && Stored(NO_ROWS.rankings, [])
  {
  }

  lemma SameLayout(a: Rows, b: Rows, c: Rows, routes: seq<RouteRow>, flat: seq<Placed>)
    requires SameElsewhere(a, b) && SameElsewhere(b, c) && Layout(c, routes, flat)
    ensures Layout(a, routes, flat)
  {
  }

  ghost predicate SameDimension(a: Dimension, b: Dimension) {
    DimensionRowOf(a) == DimensionRowOf(b) && forall u :: u in a.uses <==> u in b.uses
  }

  ghost predicate SameRoute(a: Route, b: Route) {
    && RouteRowOf(a) == RouteRowOf(b)
    && |a.dimensions| == |b.dimensions|
    && forall i :: 0 <= i < |a.dimensions| ==> SameDimension(a.dimensions[i], b.dimensions[i])
  }

  // Equal up to the order of the evidence uses inside a dimension, which no table records.
  ghost predicate SameOutput(a: Output, b: Output) {
    && |a.routes| == |b.routes|
    && (forall i :: 0 <= i < |a.routes| ==> SameRoute(a.routes[i], b.routes[i]))
    && a.costs == b.costs
    && a.rankings == b.rankings
  }

  ghost predicate SameFlat(a: seq<Placed>, b: seq<Placed>) {
    |a| == |b| && forall i :: 0 <= i < |a| ==> a[i].route == b[i].route && SameDimension(a[i].dimension, b[i].dimension)
  }

  lemma LayoutDetermines(rows: Rows, routesA: seq<RouteRow>, flatA: seq<Placed>, routesB: seq<RouteRow>, flatB: seq<Placed>)
    requires Layout(rows, routesA, flatA) && Layout(rows, routesB, flatB)
    ensures routesA == routesB && SameFlat(flatA, flatB)
  {
    KeysDetermineLength(rows, routesA, flatA, routesB, flatB);
    KeysDetermineLength(rows, routesB, flatB, routesA, flatA);
    forall i | 0 <= i < |routesA|
      ensures routesA[i] == routesB[i]
    {
      assert i + 1 in rows.routes;
    }
    forall i | 0 <= i < |flatA|
      ensures flatA[i].route == flatB[i].route && SameDimension(flatA[i].dimension, flatB[i].dimension)
    {
      var k := DimensionKey(flatA[i].route, i + 1);
      assert k in rows.dimensions;
      forall u
        ensures u in flatA[i].dimension.uses <==> u in flatB[i].dimension.uses
      {
        var l := Link(k.route, i + 1, u.evidence, u.role);
        assert EvidenceUse(l.evidence, l.role) == u;
        assert l in rows.links <==> u in flatA[i].dimension.uses;
        assert l in rows.links <==> u in flatB[i].dimension.uses;
      }
    }
  }

  lemma KeysDetermineLength(rows: Rows, routesA: seq<RouteRow>, flatA: seq<Placed>, routesB: seq<RouteRow>, flatB: seq<Placed>)
    requires Layout(rows, routesA, flatA) && Layout(rows, routesB, flatB)
    ensures |routesA| <= |routesB| && |flatA| <= |flatB|
  {
    if |routesA| > 0 {
      assert |routesA| in rows.routes;
    }
    if |flatA| > 0 {
      assert DimensionKey(flatA[|flatA| - 1].route, |flatA|) in rows.dimensions;
    }
  }

  // Route numbers in the flat list tell where one route's dimensions end.
  lemma {:induction false} FlatDetermines(last: nat, a: seq<Route>, b: seq<Route>)
    requires |a| == |b| && SameFlat(Flat(last, a), Flat(last, b))
    ensures forall i :: 0 <= i < |a| ==>
              && |a[i].dimensions| == |b[i].dimensions|
              && forall j :: 0 <= j < |a[i].dimensions| ==> SameDimension(a[i].dimensions[j], b[i].dimensions[j])
    decreases |a|
  {
    hide SameDimension;
    if a != [] {
      var m, n := |a[0].dimensions|, |b[0].dimensions|;
      LaterRoutes(last + 1, a[1..]);
      LaterRoutes(last + 1, b[1..]);
      var fa, fb := Flat(last, a), Flat(last, b);
      assert forall i :: 0 <= i < m ==> fa[i] == Placed(last + 1, a[0].dimensions[i]);
      assert forall i :: 0 <= i < n ==> fb[i] == Placed(last + 1, b[0].dimensions[i]);
      assert m < |fa| ==> fa[m] == Flat(last + 1, a[1..])[0];
      assert n < |fb| ==> fb[n] == Flat(last + 1, b[1..])[0];
      assert m == n;
      assert Flat(last + 1, a[1..]) == fa[m..] && Flat(last + 1, b[1..]) == fb[m..];
      FlatDetermines(last + 1, a[1..], b[1..]);
      forall i | 0 <= i < |a|
        ensures |a[i].dimensions| == |b[i].dimensions|
        ensures forall j :: 0 <= j < |a[i].dimensions| ==> SameDimension(a[i].dimensions[j], b[i].dimensions[j])
      {
        if i > 0 {
          assert a[i] == a[1..][i - 1] && b[i] == b[1..][i - 1];
        } else {
          forall j | 0 <= j < m
            ensures SameDimension(a[0].dimensions[j], b[0].dimensions[j])
          {
            assert fa[j].dimension == a[0].dimensions[j] && fb[j].dimension == b[0].dimensions[j];
          }
        }
      }
    }
  }

  lemma {:induction false} LaterRoutes(last: nat, routes: seq<Route>)
    ensures forall i :: 0 <= i < |Flat(last, routes)| ==> Flat(last, routes)[i].route > last
    decreases |routes|
  {
    if routes != [] {
      LaterRoutes(last + 1, routes[1..]);
    }
  }

  // Two outputs that leave the same rows are the same output: storing loses nothing but the
  // order of evidence uses, although the tables are flat and the numbering is global.
  lemma RowsDetermineOutput(claimsA: Claims, a: Output, claimsB: Claims, b: Output)
    requires StoreOutput(claimsA, a).Ok? && StoreOutput(claimsA, a) == StoreOutput(claimsB, b)
    ensures SameOutput(a, b)
  {
    hide StoreOutput, Acceptable, Flat, SameDimension;
    OutputStored(claimsA, a);
    OutputStored(claimsB, b);
    var rows := StoreOutput(claimsA, a).value;
    LayoutDetermines(rows, RouteRows(a.routes), Flat(0, a.routes), RouteRows(b.routes), Flat(0, b.routes));
    assert |RouteRows(a.routes)| == |RouteRows(b.routes)|;
    FlatDetermines(0, a.routes, b.routes);
    forall i | 0 <= i < |a.routes|
      ensures SameRoute(a.routes[i], b.routes[i])
    {
      assert RouteRows(a.routes)[i] == RouteRows(b.routes)[i];
    }
    StoredDetermines(rows.costs, a.costs, b.costs);
    StoredDetermines(rows.rankings, a.rankings, b.rankings);
  }
}
