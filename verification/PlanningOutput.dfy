// The nested planning output and the five flat tables it is stored in. Rows are numbered by
// counters: routes, costs and rankings from one, dimensions from one across all routes.
module PlanningOutput {
  import opened Sql

  datatype EvidenceUse = EvidenceUse(evidence: nat, role: string)
  datatype Dimension = Dimension(key: string, outcome: string, reason: string, uses: seq<EvidenceUse>)
  datatype Route = Route(country: string, outcome: string, reason: string, dimensions: seq<Dimension>)
  datatype Cost = Cost(
    country: string, intake: string, period: string, currency: string,
    tuition: int, living: int, fx: real, fxSource: string, fxDate: int,
    tuitionEvidence: nat, livingEvidence: nat, fxEvidence: nat)
  datatype Ranking = Ranking(country: string, system: string, rank: int, year: int, evidence: nat)
  datatype Output = Output(routes: seq<Route>, costs: seq<Cost>, rankings: seq<Ranking>)

  datatype RouteRow = RouteRow(country: string, outcome: string, reason: string)
  datatype DimensionKey = DimensionKey(route: nat, dimension: nat)
  datatype DimensionRow = DimensionRow(key: string, outcome: string, reason: string)
  datatype Link = Link(route: nat, dimension: nat, evidence: nat, role: string)
  datatype Rows = Rows(
    routes: map<nat, RouteRow>,
    dimensions: map<DimensionKey, DimensionRow>,
    links: set<Link>,
    costs: map<nat, Cost>,
    rankings: map<nat, Ranking>)

  const NO_ROWS := Rows(map[], map[], {}, map[], map[])

  // The claims of the evidence that belongs to the run's pack version, by evidence id.
  type Claims = map<nat, string>

  // ------------------------------------------------------------------ row checks

  predicate RouteValid(r: RouteRow) {
    r.country in {"australia", "japan", "malaysia"} && r.outcome in {"recommended_with_condition", "conditional", "blocked"}
  }

  predicate DimensionValid(d: DimensionRow) {
    d.outcome in {"supported", "conditional", "blocked"}
  }

  // The pattern %_program_fit: both underscores stand for any one character.
  predicate LikeProgramFit(claim: string) {
    var n := |claim|;
    n >= 12 && claim[n - 11..n - 4] == "program" && claim[n - 3..] == "fit"
  }

  // A link is allowed when the evidence lies in the run's own pack and its claim fits the role.
  predicate LinkValid(claims: Claims, evidence: nat, role: string) {
    && evidence in claims
    && var claim := claims[evidence];
       || (role == "program_fit" && LikeProgramFit(claim))
       || (role == "tuition" && claim == "australia_tuition")
       || (role == "living_cost" && claim == "australia_living_cost")
       || (role == "fx" && claim == "australia_fx")
       || (role == "ranking" && claim == "australia_ranking")
  }

  predicate Supports(claims: Claims, evidence: nat, claim: string) {
    evidence in claims && claims[evidence] == claim
  }

  predicate CostProvenance(claims: Claims, c: Cost) {
    && Supports(claims, c.tuitionEvidence, "australia_tuition")
    && Supports(claims, c.livingEvidence, "australia_living_cost")
    && Supports(claims, c.fxEvidence, "australia_fx")
  }

  predicate CostValid(c: Cost) {
    c.period == "program_total" && c.currency == "AUD" && c.tuition > 0 && c.living > 0 && c.fx > 0.0
  }

  predicate RankingValid(r: Ranking) {
    r.rank > 0 && r.year >= 2000
  }

  // ------------------------------------------------------------------ single inserts

  function InsertRoute(rows: Rows, id: nat, r: RouteRow): Result<Rows> {
    if !RouteValid(r) then Err(CheckViolation)
    else if id in rows.routes || exists k :: k in rows.routes && rows.routes[k].country == r.country then Err(UniqueViolation)
    else Ok(rows.(routes := rows.routes[id := r]))
  }

  function InsertDimension(rows: Rows, k: DimensionKey, d: DimensionRow): Result<Rows> {
    if !DimensionValid(d) then Err(CheckViolation)
    else if k in rows.dimensions then Err(UniqueViolation)
    else Ok(rows.(dimensions := rows.dimensions[k := d]))
  }

  function InsertLink(claims: Claims, rows: Rows, l: Link): Result<Rows> {
    if !LinkValid(claims, l.evidence, l.role) then Err(NV004)
    else if l in rows.links then Err(UniqueViolation)
    else Ok(rows.(links := rows.links + {l}))
  }

  function InsertCost(claims: Claims, rows: Rows, id: nat, c: Cost): Result<Rows> {
    if !CostProvenance(claims, c) then Err(NV004)
    else if !CostValid(c) then Err(CheckViolation)
    else if id in rows.costs then Err(UniqueViolation)
    else Ok(rows.(costs := rows.costs[id := c]))
  }

  function InsertRanking(claims: Claims, rows: Rows, id: nat, r: Ranking): Result<Rows> {
    if !Supports(claims, r.evidence, "australia_ranking") then Err(NV004)
    else if !RankingValid(r) then Err(CheckViolation)
    else if id in rows.rankings then Err(UniqueViolation)
    else Ok(rows.(rankings := rows.rankings[id := r]))
  }

  function RouteRowOf(r: Route): RouteRow { RouteRow(r.country, r.outcome, r.reason) }

  function DimensionRowOf(d: Dimension): DimensionRow { DimensionRow(d.key, d.outcome, d.reason) }

  // ------------------------------------------------------------------ the loops, as functions

  function StoreUses(claims: Claims, rows: Rows, route: nat, dimension: nat, uses: seq<EvidenceUse>): Result<Rows>
    decreases |uses|
  {
    if uses == [] then Ok(rows)
    else match InsertLink(claims, rows, Link(route, dimension, uses[0].evidence, uses[0].role))
      case Err(e) => Err(e)
      case Ok(next) => StoreUses(claims, next, route, dimension, uses[1..])
  }

  // One dimension with its evidence links.
  function StoreDimension(claims: Claims, rows: Rows, route: nat, dimension: nat, d: Dimension): Result<Rows> {
    match InsertDimension(rows, DimensionKey(route, dimension), DimensionRowOf(d))
    case Err(e) => Err(e)
    case Ok(next) => StoreUses(claims, next, route, dimension, d.uses)
  }

  // `last` is the number of the last dimension stored before.
  function StoreDimensions(claims: Claims, rows: Rows, route: nat, last: nat, dimensions: seq<Dimension>): Result<Rows>
    decreases |dimensions|
  {
    if dimensions == [] then Ok(rows)
    else match StoreDimension(claims, rows, route, last + 1, dimensions[0])
      case Err(e) => Err(e)
      case Ok(next) => StoreDimensions(claims, next, route, last + 1, dimensions[1..])
  }

  function StoreRoute(claims: Claims, rows: Rows, route: nat, last: nat, r: Route): Result<Rows> {
    match InsertRoute(rows, route, RouteRowOf(r))
    case Err(e) => Err(e)
    case Ok(next) => StoreDimensions(claims, next, route, last, r.dimensions)
  }

  function StoreRoutes(claims: Claims, rows: Rows, route: nat, last: nat, routes: seq<Route>): Result<Rows>
    decreases |routes|
  {
    if routes == [] then Ok(rows)
    else match StoreRoute(claims, rows, route + 1, last, routes[0])
      case Err(e) => Err(e)
      case Ok(next) => StoreRoutes(claims, next, route + 1, last + |routes[0].dimensions|, routes[1..])
  }

  function StoreCosts(claims: Claims, rows: Rows, last: nat, costs: seq<Cost>): Result<Rows>
    decreases |costs|
  {
    if costs == [] then Ok(rows)
    else match InsertCost(claims, rows, last + 1, costs[0])
      case Err(e) => Err(e)
      case Ok(next) => StoreCosts(claims, next, last + 1, costs[1..])
  }

  function StoreRankings(claims: Claims, rows: Rows, last: nat, rankings: seq<Ranking>): Result<Rows>
    decreases |rankings|
  {
    if rankings == [] then Ok(rows)
    else match InsertRanking(claims, rows, last + 1, rankings[0])
      case Err(e) => Err(e)
      case Ok(next) => StoreRankings(claims, next, last + 1, rankings[1..])
  }

  function StoreOutput(claims: Claims, output: Output): Result<Rows> {
    match StoreRoutes(claims, NO_ROWS, 0, 0, output.routes)
    case Err(e) => Err(e)
    case Ok(routed) =>
      match StoreCosts(claims, routed, 0, output.costs)
      case Err(e) => Err(e)
      case Ok(costed) => StoreRankings(claims, costed, 0, output.rankings)
  }

  // ------------------------------------------------------------------ the loops themselves

  // Nested loops over the output, one insert at a time, with running counters.
  method InsertOutput(claims: Claims, output: Output) returns (r: Result<Rows>)
    ensures r == StoreOutput(claims, output)
  {
    hide InsertRoute, InsertDimension, InsertLink, InsertCost, InsertRanking;
    var rows := NO_ROWS;
    var routeIndex, dimensionIndex := 0, 0;
    for i := 0 to |output.routes|
      invariant routeIndex == i
      invariant StoreRoutes(claims, NO_ROWS, 0, 0, output.routes) == StoreRoutes(claims, rows, routeIndex, dimensionIndex, output.routes[i..])
    {
      var item := output.routes[i];
      assert output.routes[i..][1..] == output.routes[i + 1..];
      routeIndex := routeIndex + 1;
      ghost var before, beforeIndex := rows, dimensionIndex;
      var inserted := InsertRoute(rows, routeIndex, RouteRowOf(item));
      if inserted.Err? {
        return inserted;
      }
      rows := inserted.value;
      for j := 0 to |item.dimensions|
        invariant dimensionIndex == beforeIndex + j
        invariant StoreRoute(claims, before, routeIndex, beforeIndex, item)
               == StoreDimensions(claims, rows, routeIndex, dimensionIndex, item.dimensions[j..])
      {
        var dimension := item.dimensions[j];
        assert item.dimensions[j..][1..] == item.dimensions[j + 1..];
        dimensionIndex := dimensionIndex + 1;
        ghost var entry := rows;
        inserted := InsertDimension(rows, DimensionKey(routeIndex, dimensionIndex), DimensionRowOf(dimension));
        if inserted.Err? {
          return inserted;
        }
        rows := inserted.value;
        for k := 0 to |dimension.uses|
          invariant StoreDimension(claims, entry, routeIndex, dimensionIndex, dimension)
                 == StoreUses(claims, rows, routeIndex, dimensionIndex, dimension.uses[k..])
        {
          var use := dimension.uses[k];
          assert dimension.uses[k..][1..] == dimension.uses[k + 1..];
          inserted := InsertLink(claims, rows, Link(routeIndex, dimensionIndex, use.evidence, use.role));
          if inserted.Err? {
            return inserted;
          }
          rows := inserted.value;
        }
      }
    }
    ghost var routed := rows;
    for i := 0 to |output.costs|
      invariant StoreCosts(claims, routed, 0, output.costs) == StoreCosts(claims, rows, i, output.costs[i..])
    {
      assert output.costs[i..][1..] == output.costs[i + 1..];
      var inserted := InsertCost(claims, rows, i + 1, output.costs[i]);
      if inserted.Err? {
        return inserted;
      }
      rows := inserted.value;
    }
    ghost var costed := rows;
    for i := 0 to |output.rankings|
      invariant StoreRankings(claims, costed, 0, output.rankings) == StoreRankings(claims, rows, i, output.rankings[i..])
    {
      assert output.rankings[i..][1..] == output.rankings[i + 1..];
      var inserted := InsertRanking(claims, rows, i + 1, output.rankings[i]);
      if inserted.Err? {
        return inserted;
      }
      rows := inserted.value;
    }
    return Ok(rows);
  }
}
