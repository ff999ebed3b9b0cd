/** routes/transport.py: the WHERE clauses and parameters that /search and
    /compare_websites build from the request, and the responses they
    assemble. Executing the query is not modelled: the database is a
    function from (query, parameters) to the rows it returns. */
module Transport {
  import opened Strings
  import opened Rows
  import opened Recommender

  /** The JSON body's fields; None when the key is absent (read as ""). */
  datatype Request = Request(origin: Option<string>, destination: Option<string>, mode: Option<string>)

  /** One filter the request asks for, already normalised. */
  datatype Condition = OriginLike(origin: string) | DestinationLike(destination: string) | ModeIs(mode: string)

  const BaseQuery := "SELECT * FROM transports WHERE 1=1"
  const OriginClause := " AND lower(origin) LIKE ?"
  const DestinationClause := " AND lower(destination) LIKE ?"
  const ModeClause := " AND lower(mode)=?"

  /** The order the clauses are appended in. */
  function Position(c: Condition): nat {
    match c
    case OriginLike(_) => 0
    case DestinationLike(_) => 1
    case ModeIs(_) => 2
  }

  function Clause(c: Condition): string {
    match c
    case OriginLike(_) => OriginClause
    case DestinationLike(_) => DestinationClause
    case ModeIs(_) => ModeClause
  }

  /** The bound value: a LIKE pattern %x% for a place, the mode itself. */
  function Param(c: Condition): string {
    match c
    case OriginLike(o) => "%" + o + "%"
    case DestinationLike(d) => "%" + d + "%"
    case ModeIs(m) => m
  }

  /** The conditions for the non-empty fields, in the order origin,
      destination, mode. */
  function Conditions(origin: string, destination: string, mode: string): seq<Condition> {
    var withOrigin := AppendIf([], origin != "", OriginLike(origin));
    var withDestination := AppendIf(withOrigin, destination != "", DestinationLike(destination));
    AppendIf(withDestination, mode != "", ModeIs(mode))
  }

  /** A condition for exactly the non-empty fields, each at most once, in the
      fixed order origin, destination, mode. */
  lemma ConditionsExact(origin: string, destination: string, mode: string)
    ensures var cs := Conditions(origin, destination, mode);
      && |cs| <= 3
      && (forall i, j :: 0 <= i < j < |cs| ==> Position(cs[i]) < Position(cs[j]))
      && (forall o :: OriginLike(o) in cs <==> origin != "" && o == origin)
      && (forall d :: DestinationLike(d) in cs <==> destination != "" && d == destination)
      && (forall m :: ModeIs(m) in cs <==> mode != "" && m == mode)
  {
  }

  function QueryText(cs: seq<Condition>): string {
    if cs == [] then BaseQuery else QueryText(cs[..|cs| - 1]) + Clause(cs[|cs| - 1])
  }

  function Params(cs: seq<Condition>): (ps: seq<string>)
    ensures |ps| == |cs| && forall i :: 0 <= i < |cs| ==> ps[i] == Param(cs[i])
  {
    if cs == [] then [] else Params(cs[..|cs| - 1]) + [Param(cs[|cs| - 1])]
  }

  /** The query and parameters built from the normalised fields. */
  method BuildQuery(origin: string, destination: string, mode: string) returns (query: string, params: seq<string>)
    ensures query == QueryText(Conditions(origin, destination, mode))
    ensures params == Params(Conditions(origin, destination, mode))
  {
    ghost var cs: seq<Condition> := [];
    query := BaseQuery;
    params := [];
    if origin != "" {
      query := query + OriginClause;
      params := params + ["%" + origin + "%"];
    }
    AppendQuery(cs, OriginLike(origin));
    cs := AppendIf(cs, origin != "", OriginLike(origin));
    assert query == QueryText(cs) && params == Params(cs);
    if destination != "" {
      query := query + DestinationClause;
      params := params + ["%" + destination + "%"];
    }
    AppendQuery(cs, DestinationLike(destination));
    cs := AppendIf(cs, destination != "", DestinationLike(destination));
    assert query == QueryText(cs) && params == Params(cs);
    if mode != "" {
      query := query + ModeClause;
      params := params + [mode];
    }
    AppendQuery(cs, ModeIs(mode));
    cs := AppendIf(cs, mode != "", ModeIs(mode));
  }

  /** The condition c added at the end when keep holds: its clause goes on
      the query and its parameter on the list. */
  function AppendIf(cs: seq<Condition>, keep: bool, c: Condition): (r: seq<Condition>)
    ensures r == if keep then cs + [c] else cs
  {
    if keep then cs + [c] else cs
  }

  lemma AppendQuery(cs: seq<Condition>, c: Condition)
    ensures QueryText(cs + [c]) == QueryText(cs) + Clause(c) && Params(cs + [c]) == Params(cs) + [Param(c)]
  {
    assert (cs + [c])[..|cs|] == cs;
  }

  /** How many times c occurs in s. */
  function Occurrences(c: char, s: string): (n: nat)
    ensures n <= |s|
  {
    if s == [] then 0 else Occurrences(c, s[..|s| - 1]) + (if s[|s| - 1] == c then 1 else 0)
  }

  lemma {:induction false} OccurrencesAppend(c: char, s: string, t: string)
    ensures Occurrences(c, s + t) == Occurrences(c, s) + Occurrences(c, t)
    decreases |t|
  {
    if t != [] {
      var last := |t| - 1;
      var u := s + t;
      OccurrencesAppend(c, s, t[..last]);
      assert u[..|u| - 1] == s + t[..last];
      assert u[|u| - 1] == t[last];
      calc {
        Occurrences(c, u);
        Occurrences(c, u[..|u| - 1]) + (if u[|u| - 1] == c then 1 else 0);
        Occurrences(c, s) + Occurrences(c, t[..last]) + (if t[last] == c then 1 else 0);
        Occurrences(c, s) + Occurrences(c, t);
      }
    } else {
      assert s + t == s;
    }
  }

  lemma {:induction false} NoOccurrence(c: char, s: string)
    requires c !in s
    ensures Occurrences(c, s) == 0
    decreases |s|
  {
    if s != [] {
      assert c !in s[..|s| - 1];
      NoOccurrence(c, s[..|s| - 1]);
    }
  }

  /** Every clause ends in its one placeholder. */
  lemma ClauseHasOnePlaceholder(c: Condition)
    ensures Occurrences('?', Clause(c)) == 1
  {
    var k := Clause(c);
    var body := k[..|k| - 1];
    assert k == body + ['?'];
    NoOccurrence('?', body);
    OccurrencesAppend('?', body, ['?']);
  }

  /** The query has exactly as many ? placeholders as there are parameters,
      whatever fields are empty. */
  lemma {:induction false} PlaceholdersMatchParams(cs: seq<Condition>)
    ensures Occurrences('?', QueryText(cs)) == |Params(cs)|
    decreases |cs|
  {
    if cs == [] {
      NoOccurrence('?', BaseQuery);
    } else {
      var init := cs[..|cs| - 1];
      PlaceholdersMatchParams(init);
      OccurrencesAppend('?', QueryText(init), Clause(cs[|cs| - 1]));
      ClauseHasOnePlaceholder(cs[|cs| - 1]);
    }
  }

  /** Every query starts with the unconditional base. */
  lemma {:induction false} QueryStartsWithBase(cs: seq<Condition>)
    ensures IsPrefix(BaseQuery, QueryText(cs))
    decreases |cs|
  {
    if cs != [] {
      var init := cs[..|cs| - 1];
      QueryStartsWithBase(init);
      assert (QueryText(init) + Clause(cs[|cs| - 1]))[..|BaseQuery|] == QueryText(init)[..|BaseQuery|];
    }
  }

  /** A place parameter is the LIKE pattern %x% around the place, and the
      mode parameter is the mode itself. */
  lemma ParamShape(c: Condition)
    ensures c.ModeIs? ==> Param(c) == c.mode
    ensures c.OriginLike? ==> IsPattern(Param(c), c.origin)
    ensures c.DestinationLike? ==> IsPattern(Param(c), c.destination)
  {
  }

  predicate IsPattern(p: string, x: string) {
    |p| >= 2 && p[0] == '%' && p[|p| - 1] == '%' && p[1..|p| - 1] == x
  }

  /** p is the parameter bound for condition c. */
  predicate ParamFits(c: Condition, p: string) {
    match c
    case OriginLike(o) => IsPattern(p, o)
    case DestinationLike(d) => IsPattern(p, d)
    case ModeIs(m) => p == m
  }

  /** Each parameter is the LIKE pattern for its place or the mode itself, in
      the order of the clauses (which places and mode those are is stated by
      ConditionsExact). */
  lemma ParamsShape(cs: seq<Condition>)
    ensures |Params(cs)| == |cs| && forall i :: 0 <= i < |cs| ==> ParamFits(cs[i], Params(cs)[i])
  {
    forall i | 0 <= i < |cs|
      ensures ParamFits(cs[i], Params(cs)[i])
    {
      ParamShape(cs[i]);
    }
  }

  function FieldOf(o: Option<string>): string { o.GetOr("") }

  /** /search: fields stripped and lower-cased. */
  function SearchConditions(req: Request): seq<Condition> {
    Conditions(Lower(PyStrip(FieldOf(req.origin))), Lower(PyStrip(FieldOf(req.destination))),
               Lower(PyStrip(FieldOf(req.mode))))
  }

  /** /compare_websites: fields lower-cased but not stripped. */
  function CompareConditions(req: Request): seq<Condition> {
    Conditions(Lower(FieldOf(req.origin)), Lower(FieldOf(req.destination)), Lower(FieldOf(req.mode)))
  }

  /** A field of blanks asks for nothing in /search, while /compare_websites
      keeps it as a filter. */
  lemma BlankFieldsDiffer(req: Request)
    requires req.origin.Some? && req.origin.value != "" && AllSpace(req.origin.value, PyIsSpace)
    ensures forall c :: c in SearchConditions(req) ==> !c.OriginLike?
    ensures OriginLike(Lower(req.origin.value)) in CompareConditions(req)
  {
    var v := req.origin.value;
    assert Lower(PyStrip(v)) == "";
    assert Lower(v) != "";
    ConditionsExact(Lower(PyStrip(v)), Lower(PyStrip(FieldOf(req.destination))), Lower(PyStrip(FieldOf(req.mode))));
    ConditionsExact(Lower(v), Lower(FieldOf(req.destination)), Lower(FieldOf(req.mode)));
  }

  datatype SearchResponse = SearchResponse(count: nat, results: seq<Route>)

  method Search(req: Request, execute: (string, seq<string>) -> seq<Route>) returns (resp: SearchResponse)
    ensures var cs := SearchConditions(req);
      resp.results == execute(QueryText(cs), Params(cs))
    ensures resp.count == |resp.results|
  {
    var origin := Lower(PyStrip(FieldOf(req.origin)));
    var destination := Lower(PyStrip(FieldOf(req.destination)));
    var mode := Lower(PyStrip(FieldOf(req.mode)));
    var query, params := BuildQuery(origin, destination, mode);
    var results := execute(query, params);
    resp := SearchResponse(|results|, results);
  }

  /** One entry of the comparison: the route as sent, its offers and the
      best of them (None for the empty dictionary). */
  datatype Match = Match(transport: Route, offers: seq<Offer>, bestOffer: Option<Offer>)

  datatype CompareResponse = CompareResponse(count: nat, matches: seq<Match>)

  const DefaultMaxSites := 4

  /** r.get("mode", mode): the request's mode when the row has no mode key.
      Rows built from the table always have the key, so only a hand-built
      row takes the second branch; a NULL mode is not modelled. */
  function WithMode(r: Route, mode: string): (t: Route)
    ensures t.mode.Some? && (r.mode.Some? ==> t == r)
    ensures r.mode.None? ==> t == r.(mode := Some(mode))
  {
    if r.mode.Some? then r else r.(mode := Some(mode))
  }

  /** m is the match for row r: the row with its mode filled in, its
      simulated offers, and the best of those. */
  predicate IsMatchFor(m: Match, r: Route, mode: string, draw: nat -> Draw) {
    && m.transport == WithMode(r, mode)
    && m.offers == WebsiteOffers(m.transport, DefaultMaxSites, draw)
    && m.bestOffer == BestWebsiteOffer(m.offers)
  }

  /** The match for the k-th row, with that row's random draws. */
  function MatchFor(r: Route, mode: string, draw: nat -> Draw): (m: Match)
    ensures IsMatchFor(m, r, mode, draw)
  {
    var t := WithMode(r, mode);
    var offers := WebsiteOffers(t, DefaultMaxSites, draw);
    Match(t, offers, BestWebsiteOffer(offers))
  }

  function Matches(rows: seq<Route>, mode: string, draws: nat -> nat -> Draw): (ms: seq<Match>)
    ensures |ms| == |rows|
  {
    seq(|rows|, k requires 0 <= k < |rows| => MatchFor(rows[k], mode, draws(k)))
  }

  /** /compare_websites; draws(k) are the random draws for the k-th row. */
  method CompareWebsites(req: Request, execute: (string, seq<string>) -> seq<Route>, draws: nat -> nat -> Draw)
    returns (resp: CompareResponse)
    ensures var cs := CompareConditions(req);
      resp.matches == Matches(execute(QueryText(cs), Params(cs)), Lower(FieldOf(req.mode)), draws)
    ensures resp.count == |resp.matches|
  {
    var origin := Lower(FieldOf(req.origin));
    var destination := Lower(FieldOf(req.destination));
    var mode := Lower(FieldOf(req.mode));
    var q, params := BuildQuery(origin, destination, mode);
    var routes := execute(q, params);
    ghost var expected := Matches(routes, mode, draws);
    assert expected[..0] == [];
    var results: seq<Match> := [];
    for k := 0 to |routes|
      invariant results == expected[..k]
    {
      var r := WithMode(routes[k], mode);
      var offers := SimulateWebsiteOffers(r, DefaultMaxSites, draws(k));
      var best := BestWebsiteOffer(offers);
      assert Match(r, offers, best) == expected[k];
      PrefixSnoc(expected, k);
      results := results + [Match(r, offers, best)];
    }
    resp := CompareResponse(|results|, results);
  }

  /** A match keeps its row, with the request's mode filled in when the row
      has none. */
  lemma MatchKeepsRow(m: Match, r: Route, mode: string)
    requires m.transport == WithMode(r, mode)
    ensures m.transport.mode.Some?
    ensures r.mode.Some? ==> m.transport == r
    ensures r.mode.None? ==> m.transport.mode == Some(mode)
    ensures m.transport.(mode := r.mode) == r
  {
  }

  /** A match offers at most four sites, cheapest first. */
  lemma MatchOffersSorted(m: Match, draw: nat -> Draw)
    requires m.offers == WebsiteOffers(m.transport, DefaultMaxSites, draw)
    ensures |m.offers| <= DefaultMaxSites
    ensures forall i, j :: 0 <= i < j < |m.offers| ==> m.offers[i].finalPrice <= m.offers[j].finalPrice
  {
    WebsiteOffersProperties(m.transport, DefaultMaxSites, draw);
  }

  /** Over offers sorted cheapest first, the best offer is the head, or
      nothing when there are no offers. */
  lemma BestOfSorted(m: Match)
    requires m.bestOffer == BestWebsiteOffer(m.offers)
    requires forall i, j :: 0 <= i < j < |m.offers| ==> m.offers[i].finalPrice <= m.offers[j].finalPrice
    ensures m.bestOffer.None? <==> m.offers == []
    ensures m.bestOffer.Some? ==> m.bestOffer.value == m.offers[0]
  {
    if m.offers != [] {
      BestIsHeadOfSorted(m.offers);
    }
  }

  /** In offers sorted by final price, the first offer of minimal price is
      the head. */
  lemma BestIsHeadOfSorted(offers: seq<Offer>)
    requires offers != []
    requires forall i, j :: 0 <= i < j < |offers| ==> offers[i].finalPrice <= offers[j].finalPrice
    ensures BestWebsiteOffer(offers) == Some(offers[0])
  {
    var b := BestWebsiteOffer(offers).value;
    var i :| 0 <= i < |offers| && offers[i] == b && forall j :: 0 <= j < i ==> offers[j].finalPrice > b.finalPrice;
    assert offers[0].finalPrice <= b.finalPrice;
    assert i == 0;
  }
}
