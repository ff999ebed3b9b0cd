/** ai/recommender.py: the in-memory user context, the ranking of transport
    options and the simulated website offers. The heuristic score is computed
    in exact rational arithmetic; the random price variation and the random
    discount are inputs of the model. */
module Recommender {
  import opened Strings
  import opened Sorting
  import opened Rows

  // ---------------- user context ----------------

  datatype HistoryEntry = HistoryEntry(origin: string, destination: string, mode: string, priority: string)

  /** The module-level USER_CONTEXT dictionary. */
  class UserContext {
    var budget: Option<int>
    var lastOrigin: Option<string>
    var lastDestination: Option<string>
    var preferredMode: Option<string>
    var history: seq<HistoryEntry>

    constructor ()
      ensures budget == None && lastOrigin == None && lastDestination == None && preferredMode == None
      ensures history == []
    {
      budget, lastOrigin, lastDestination, preferredMode := None, None, None, None;
      history := [];
    }

    /** Remember the last search and append it to the history. The database
        insert that follows is not modelled; its failure is swallowed, so the
        in-memory update is the whole observable effect. */
    method StoreHistoryEntry(origin: string, destination: string, mode: string, priority: string)
      modifies this
      ensures lastOrigin == Some(origin) && lastDestination == Some(destination)
      ensures preferredMode == Some(mode)
      ensures history == old(history) + [HistoryEntry(origin, destination, mode, priority)]
      ensures budget == old(budget)
    {
      lastOrigin := Some(origin);
      lastDestination := Some(destination);
      preferredMode := Some(mode);
      history := history + [HistoryEntry(origin, destination, mode, priority)];
    }
  }

  // ---------------- ranking ----------------

  /** The numeric fields the score is computed from, after defaulting. */
  datatype Features = Features(price: int, durationMins: int, seats: int, rating: int)

  /** A value Python treats as false in `x or default`: missing or zero. */
  predicate Falsy(v: Option<int>) { v.None? || v.value == 0 }

  /** Python `opt.get(key, d) or d`. */
  function OrDefault(v: Option<int>, d: int): (r: int)
    ensures Falsy(v) ==> r == d
    ensures !Falsy(v) ==> r == v.value
  {
    if Falsy(v) then d else v.value
  }

  const DefaultDuration := 60
  const DefaultSeats := 1
  const DefaultRating := 40

  /** Missing or zero price, duration, seats and rating become 0, 60 minutes,
      1 seat and 4.0 stars. */
  function Defaults(opt: Route): (f: Features)
    ensures f.durationMins != 0 && f.seats != 0 && f.rating != 0
    ensures Falsy(opt.price) ==> f.price == 0
    ensures !Falsy(opt.durationMins) ==> f.durationMins == opt.durationMins.value
    ensures !Falsy(opt.seats) ==> f.seats == opt.seats.value
    ensures !Falsy(opt.rating) ==> f.rating == opt.rating.value
  {
    Features(OrDefault(opt.price, 0), OrDefault(opt.durationMins, DefaultDuration),
             OrDefault(opt.seats, DefaultSeats), OrDefault(opt.rating, DefaultRating))
  }

  // The heuristic score, in exact rational arithmetic: price in rupees,
  // rating in stars, duration in minutes.

  /** 1.5 for train and bus, 0.7 for flight, 1.0 for anything else. */
  function EcoFactor(mode: string): (e: real)
    ensures e > 0.0
  {
    if mode in ["train", "bus"] then 1.5 else if mode in ["flight"] then 0.7 else 1.0
  }

  /** Python divides by price + 1 (priorities price and eco) and by
      duration + 1 (priority time); it raises ZeroDivisionError when one of
      those is zero. */
  predicate Scorable(priority: string, f: Features) {
    && ((priority == "price" || priority == "eco") ==> f.price != -100)
    && (priority == "time" ==> f.durationMins != -1)
  }

  function RawScore(priority: string, mode: string, f: Features): real
    requires Scorable(priority, f)
  {
    var price := f.price as real / 100.0;
    var duration := f.durationMins as real;
    var seats := f.seats as real;
    var rating := f.rating as real / 10.0;
    if priority == "price" then 1000.0 / (price + 1.0) + rating * 5.0 + seats * 0.5
    else if priority == "time" then 2000.0 / (duration + 1.0) + rating * 5.0
    else if priority == "comfort" then rating * 20.0 + seats * 0.2
    else if priority == "eco" then EcoFactor(mode) * 1000.0 / (price + 1.0) + rating * 3.0
    else rating * 10.0
  }

  /** round(score, 3), as a whole number of thousandths (halves up). */
  function Round3(x: real): (r: int)
    ensures r as real <= x * 1000.0 + 0.5 < r as real + 1.0
  {
    (x * 1000.0 + 0.5).Floor
  }

  lemma Round3Monotone(x: real, y: real)
    requires x <= y
    ensures Round3(x) <= Round3(y)
  {
  }

  /** The score stored on the copy of an option, in thousandths. */
  function Score(priority: string, opt: Route): int
    requires Scorable(priority, Defaults(opt))
  {
    Round3(RawScore(priority, ModeKey(opt), Defaults(opt)))
  }

  lemma {:induction false} InverseDecreasing(c: real, a: real, b: real)
    requires c > 0.0 && 0.0 <= a < b
    ensures c / (a + 1.0) > c / (b + 1.0)
  {
    assert c / (a + 1.0) * (a + 1.0) == c;
    assert c / (b + 1.0) * (b + 1.0) == c;
    assert c * (b + 1.0) > c * (a + 1.0);
  }

  /** Priority "price": of two options alike but for price, the cheaper scores
      higher; more seats also score higher. */
  lemma PriceLowerIsBetter(f: Features, g: Features)
    requires f.rating == g.rating && f.seats == g.seats && 0 <= f.price < g.price
    ensures Scorable("price", f) && Scorable("price", g)
    ensures RawScore("price", "", f) > RawScore("price", "", g)
  {
    InverseDecreasing(1000.0, f.price as real / 100.0, g.price as real / 100.0);
  }

  lemma PriceMoreSeatsIsBetter(f: Features, g: Features)
    requires f.rating == g.rating && f.price == g.price && f.price != -100 && f.seats > g.seats
    ensures Scorable("price", f) && Scorable("price", g)
    ensures RawScore("price", "", f) > RawScore("price", "", g)
  {
  }

  /** Priority "time": the shorter journey scores higher. */
  lemma TimeShorterIsBetter(f: Features, g: Features)
    requires f.rating == g.rating && 0 <= f.durationMins < g.durationMins
    ensures Scorable("time", f) && Scorable("time", g)
    ensures RawScore("time", "", f) > RawScore("time", "", g)
  {
    InverseDecreasing(2000.0, f.durationMins as real, g.durationMins as real);
  }

  /** Priority "comfort": the better rated option scores higher. */
  lemma ComfortHigherRatingIsBetter(f: Features, g: Features)
    requires f.seats == g.seats && f.rating > g.rating
    ensures RawScore("comfort", "", f) > RawScore("comfort", "", g)
  {
  }

  /** Priority "eco": at the same price and rating, train and bus score higher
      than any other mode, and flight lower. */
  lemma EcoPrefersRail(f: Features, mode: string)
    requires f.price >= 0
    requires mode != "train" && mode != "bus"
    ensures Scorable("eco", f)
    ensures RawScore("eco", "train", f) > RawScore("eco", mode, f)
    ensures RawScore("eco", "bus", f) == RawScore("eco", "train", f)
    ensures mode != "flight" ==> RawScore("eco", mode, f) > RawScore("eco", "flight", f)
  {
    var d := f.price as real / 100.0 + 1.0;
    assert EcoFactor("train") == 1.5 && EcoFactor("flight") == 0.7;
    assert mode != "flight" ==> EcoFactor(mode) == 1.0;
    assert mode == "flight" ==> EcoFactor(mode) == 0.7;
    DivideGreater(1.5 * 1000.0, EcoFactor(mode) * 1000.0, d);
    if mode != "flight" {
      DivideGreater(1.0 * 1000.0, 0.7 * 1000.0, d);
    }
  }

  lemma DivideGreater(x: real, y: real, d: real)
    requires x > y && d > 0.0
    ensures x / d > y / d
  {
    assert x / d - y / d == (x - y) / d;
  }

  /** Any other priority: ten times the rating. */
  lemma UnknownPriorityIsRating(priority: string, mode: string, f: Features)
    requires priority !in ["price", "time", "comfort", "eco"]
    ensures Scorable(priority, f)
    ensures RawScore(priority, mode, f) == f.rating as real
  {
  }

  /** An option together with the score added to its copy. */
  datatype Scored = Scored(route: Route, score: int)

  function ScoreOf(s: Scored): int { s.score }

  predicate WithinBudget(opt: Route, maxBudget: Option<int>) {
    maxBudget.None? || Defaults(opt).price <= maxBudget.value
  }

  /** No option that survives the budget filter makes the score divide by zero. */
  predicate AllScorable(options: seq<Route>, priority: string, maxBudget: Option<int>) {
    forall i :: 0 <= i < |options| && WithinBudget(options[i], maxBudget) ==>
      Scorable(priority, Defaults(options[i]))
  }

  /** The scored copies in input order, before sorting. */
  function Candidates(options: seq<Route>, priority: string, maxBudget: Option<int>): (r: seq<Scored>)
    requires AllScorable(options, priority, maxBudget)
    ensures |r| <= |options|
    ensures forall x :: x in r ==>
      x.route in options && WithinBudget(x.route, maxBudget) && Scorable(priority, Defaults(x.route))
      && x.score == Score(priority, x.route)
    ensures forall i :: 0 <= i < |options| && WithinBudget(options[i], maxBudget) ==>
      Scored(options[i], Score(priority, options[i])) in r
  {
    if options == [] then []
    else
      var init := options[..|options| - 1];
      var o := options[|options| - 1];
      assert options == init + [o];
      assert forall i :: 0 <= i < |init| ==> init[i] == options[i];
      Candidates(init, priority, maxBudget)
        + (if WithinBudget(o, maxBudget) then [Scored(o, Score(priority, o))] else [])
  }

  /** The filter keeps the options' order and multiplicity: the scored copies
      of a concatenation are those of each part, and a single option gives
      its one copy or none. */
  lemma {:induction false} CandidatesAppend(a: seq<Route>, b: seq<Route>, priority: string, maxBudget: Option<int>)
    requires AllScorable(a + b, priority, maxBudget)
    ensures AllScorable(a, priority, maxBudget) && AllScorable(b, priority, maxBudget)
    ensures Candidates(a + b, priority, maxBudget)
         == Candidates(a, priority, maxBudget) + Candidates(b, priority, maxBudget)
    decreases |b|
  {
    ScorableParts(a, b, priority, maxBudget);
    if b == [] {
      assert a + b == a;
    } else {
      var n := |b| - 1;
      var init, o := b[..n], b[n];
      assert b == init + [o] && a + b == (a + init) + [o];
      CandidatesSnoc(a + init, o, priority, maxBudget);
      CandidatesSnoc(init, o, priority, maxBudget);
      CandidatesAppend(a, init, priority, maxBudget);
      var tail := if WithinBudget(o, maxBudget) then [Scored(o, Score(priority, o))] else [];
      ConcatAssoc(Candidates(a, priority, maxBudget), Candidates(init, priority, maxBudget), tail);
    }
  }

  lemma ConcatAssoc<T>(x: seq<T>, y: seq<T>, z: seq<T>)
    ensures x + (y + z) == (x + y) + z
  {
  }

  /** One step of the filter: the copy of a last option is appended, if any. */
  lemma CandidatesSnoc(s: seq<Route>, o: Route, priority: string, maxBudget: Option<int>)
    requires AllScorable(s + [o], priority, maxBudget)
    ensures AllScorable(s, priority, maxBudget) && (WithinBudget(o, maxBudget) ==> Scorable(priority, Defaults(o)))
    ensures Candidates(s + [o], priority, maxBudget)
         == Candidates(s, priority, maxBudget)
            + if WithinBudget(o, maxBudget) then [Scored(o, Score(priority, o))] else []
  {
    ScorableParts(s, [o], priority, maxBudget);
    var c := s + [o];
    assert c[..|c| - 1] == s && c[|c| - 1] == o;
  }

  /** Every part of a list of scorable options is scorable. */
  lemma ScorableParts(a: seq<Route>, b: seq<Route>, priority: string, maxBudget: Option<int>)
    requires AllScorable(a + b, priority, maxBudget)
    ensures AllScorable(a, priority, maxBudget) && AllScorable(b, priority, maxBudget)
  {
    assert forall i :: 0 <= i < |a| ==> (a + b)[i] == a[i];
    assert forall i :: 0 <= i < |b| ==> (a + b)[|a| + i] == b[i];
  }

  lemma CandidatesSingle(o: Route, priority: string, maxBudget: Option<int>)
    requires WithinBudget(o, maxBudget) ==> Scorable(priority, Defaults(o))
    ensures AllScorable([o], priority, maxBudget)
    ensures Candidates([o], priority, maxBudget)
         == if WithinBudget(o, maxBudget) then [Scored(o, Score(priority, o))] else []
  {
    assert [o][0] == o && [o][..0] == [];
  }

  /** recommend_transport_options: drop options over the budget, copy each
      remaining one with its score, and sort the copies by score, highest
      first. */
  method RecommendTransportOptions(options: seq<Route>, priority: string, maxBudget: Option<int>)
    returns (ranked: seq<Scored>)
    requires AllScorable(options, priority, maxBudget)
    ensures ranked == Sort(Candidates(options, priority, maxBudget), ScoreOf, Descending)
  {
    var scored: seq<Scored> := [];
    for i := 0 to |options|
      invariant scored == Candidates(options[..i], priority, maxBudget)
    {
      var opt := options[i];
      var f := Defaults(opt);
      CandidatesStep(options, priority, maxBudget, i);
      if maxBudget.Some? && f.price > maxBudget.value {
        continue;
      }
      scored := scored + [Scored(opt, Score(priority, opt))];
    }
    assert options[..|options|] == options;
    ranked := Sort(scored, ScoreOf, Descending);
  }

  lemma AllScorablePrefix(options: seq<Route>, priority: string, maxBudget: Option<int>, i: nat)
    requires i <= |options| && AllScorable(options, priority, maxBudget)
    ensures AllScorable(options[..i], priority, maxBudget)
  {
    assert forall j :: 0 <= j < i ==> options[..i][j] == options[j];
  }

  /** One more option extends the scored copies by at most its own copy. */
  lemma CandidatesStep(options: seq<Route>, priority: string, maxBudget: Option<int>, i: nat)
    requires i < |options| && AllScorable(options, priority, maxBudget)
    ensures AllScorable(options[..i], priority, maxBudget) && AllScorable(options[..i + 1], priority, maxBudget)
    ensures WithinBudget(options[i], maxBudget) ==> Scorable(priority, Defaults(options[i]))
    ensures Candidates(options[..i + 1], priority, maxBudget)
         == Candidates(options[..i], priority, maxBudget)
            + (if WithinBudget(options[i], maxBudget) then [Scored(options[i], Score(priority, options[i]))] else [])
  {
    AllScorablePrefix(options, priority, maxBudget, i);
    AllScorablePrefix(options, priority, maxBudget, i + 1);
    assert options[..i + 1][..i] == options[..i];
  }

  /** What the ranking promises: nothing over the budget, every option within
      it present as a scored copy, highest score first, and equal scores in
      input order. */
  lemma RecommendationProperties(options: seq<Route>, priority: string, maxBudget: Option<int>)
    requires AllScorable(options, priority, maxBudget)
    ensures var ranked := Sort(Candidates(options, priority, maxBudget), ScoreOf, Descending);
      && |ranked| <= |options|
      && (forall x :: x in ranked ==>
            x.route in options && WithinBudget(x.route, maxBudget) && Scorable(priority, Defaults(x.route))
            && x.score == Score(priority, x.route))
      && (forall i :: 0 <= i < |options| && WithinBudget(options[i], maxBudget) ==>
            Scored(options[i], Score(priority, options[i])) in ranked)
      && (forall i, j :: 0 <= i < j < |ranked| ==> ranked[i].score >= ranked[j].score)
      && (forall k :: WithKey(ranked, ScoreOf, k) == WithKey(Candidates(options, priority, maxBudget), ScoreOf, k))
  {
    var c := Candidates(options, priority, maxBudget);
    forall k ensures WithKey(Sort(c, ScoreOf, Descending), ScoreOf, k) == WithKey(c, ScoreOf, k) {
      SortStable(c, ScoreOf, Descending, k);
    }
    SortMembers(c, ScoreOf, Descending);
  }

  // ---------------- website offers ----------------

  const WebsiteProviders: map<string, seq<string>> := map[
    "bike" := ["Rapido", "Uber Moto", "Ola Bike", "QuickRide"],
    "taxi" := ["Uber", "Ola Cabs", "Meru Cabs", "MegaTaxi"],
    "bus" := ["RedBus", "AbhiBus", "MakeMyTrip Bus", "Goibibo Bus"],
    "train" := ["IRCTC", "MakeMyTrip Train", "Goibibo Train", "PayTM Rail"],
    "flight" := ["MakeMyTrip", "Goibibo", "ClearTrip", "IXIGO"]
  ]

  const DefaultProviders: seq<string> := ["TravelNow", "BookMyRide", "EasyTrip"]

  /** The discounts random.choice picks from, in percent. */
  const Discounts: seq<int> := [0, 5, 10, 15]

  /** The base price used when the route's own is not positive: 500 rupees. */
  const FallbackBasePrice := 50000

  /** random.uniform(-0.15, 0.25), in hundredths of a percent. */
  type Variation = v: int | -1500 <= v <= 2500

  /** random.choice over the four discounts, as an index. */
  type DiscountIndex = i: nat | i < 4

  /** The two random draws made for one site. */
  datatype Draw = Draw(variation: Variation, discountIndex: DiscountIndex)

  /** Python `(option.get("mode") or "").lower()`. */
  function ModeKey(option: Route): string {
    match option.mode
    case None => ""
    case Some(m) => Lower(m)
  }

  function Providers(mode: string): (p: seq<string>)
    ensures mode in WebsiteProviders ==> p == WebsiteProviders[mode]
    ensures mode !in WebsiteProviders ==> p == DefaultProviders
    ensures 3 <= |p| <= 4
  {
    if mode in WebsiteProviders then WebsiteProviders[mode] else DefaultProviders
  }

  /** _get_base_price, then the fallback to 500 for a price that is not positive. */
  function EffectiveBasePrice(option: Route): (b: int)
    ensures b > 0
    ensures OrDefault(option.price, 0) > 0 ==> b == option.price.value
    ensures OrDefault(option.price, 0) <= 0 ==> b == FallbackBasePrice
  {
    var base := OrDefault(option.price, 0);
    if base <= 0 then FallbackBasePrice else base
  }

  /** One site's offer: the list price varies the base price, the final price
      takes the discount off the list price, both rounded to the nearest paisa
      (halves up). */
  function MakeOffer(site: string, base: int, d: Draw): (o: Offer)
    requires base > 0
    ensures o.site == site && o.discount in Discounts && o.ctaText == "Book on " + site
    ensures 0 <= o.listPrice && 0 <= o.finalPrice <= o.listPrice
    ensures o.discount == Discounts[d.discountIndex]
    // the list price is the base varied by the drawn percentage, to the nearest paisa
    ensures 10000 * o.listPrice - 5000 <= base * (10000 + d.variation) < 10000 * o.listPrice + 5000
    ensures 8500 * base - 5000 <= 10000 * o.listPrice <= 12500 * base + 5000
    // the final price is the list price less the discount, to the nearest paisa
    ensures 100 * o.finalPrice - 50 <= o.listPrice * (100 - o.discount) < 100 * o.finalPrice + 50
  {
    var v: int := d.variation;
    ProductNonNegative(base, 10000 + v);
    var listPrice := RoundDiv(base * (10000 + v), 10000);
    VariedBounds(base, v, listPrice);
    var discount := Discounts[d.discountIndex];
    assert 0 <= discount <= 15;
    RoundScale(listPrice, 100 - discount, 100);
    Offer(site, listPrice, discount, RoundDiv(listPrice * (100 - discount), 100), "Book on " + site)
  }

  /** A list price to the nearest paisa of base × (1 + v / 10000) lies within
      -15% and +25% of the base, up to half a paisa. */
  lemma VariedBounds(base: int, v: int, listPrice: int)
    requires base > 0 && -1500 <= v <= 2500
    requires 10000 * listPrice - 5000 <= base * (10000 + v) < 10000 * listPrice + 5000
    ensures 8500 * base - 5000 <= 10000 * listPrice <= 12500 * base + 5000
  {
    assert base * (10000 + v) == 10000 * base + base * v;
    assert base * v - (-1500) * base == base * (v + 1500);
    assert 2500 * base - base * v == base * (2500 - v);
    ProductNonNegative(base, v + 1500);
    ProductNonNegative(base, 2500 - v);
  }

  /** a / d rounded to the nearest integer, halves up. */
  function RoundDiv(a: int, d: int): (r: int)
    requires a >= 0 && d > 0
    ensures r >= 0
    ensures d * r - d / 2 <= a < d * r + d - d / 2
  {
    (a + d / 2) / d
  }

  lemma ProductNonNegative(a: int, b: int)
    requires a >= 0 && b >= 0
    ensures a * b >= 0
  {
  }

  /** Scaling a by a factor m / d of at most one, then rounding, gives at most a. */
  lemma RoundScale(a: int, m: int, d: int)
    requires a >= 0 && 0 <= m <= d && d > 0
    ensures a * m >= 0 && RoundDiv(a * m, d) <= a
  {
    assert a * m <= a * d by {
      assert a * d - a * m == a * (d - m);
      ProductNonNegative(a, d - m);
    }
    ProductNonNegative(a, m);
    var r := RoundDiv(a * m, d);
    assert d * r - d / 2 <= a * d;
    assert d * (r - a) <= d / 2 by {
      assert d * (r - a) == d * r - a * d;
    }
    FactorBelowOne(d, r - a);
  }

  lemma FactorBelowOne(d: int, x: int)
    requires d > 0 && d * x < d
    ensures x <= 0
  {
    if x >= 1 {
      assert d * x == d * (x - 1) + d;
      ProductNonNegative(d, x - 1);
    }
  }

  /** The offers in provider order, before sorting; the i-th site uses draw(i). */
  function RawOffers(sites: seq<string>, base: int, draw: nat -> Draw): (r: seq<Offer>)
    requires base > 0
    ensures |r| == |sites|
    ensures forall i :: 0 <= i < |sites| ==> r[i] == MakeOffer(sites[i], base, draw(i))
  {
    if sites == [] then []
    else
      var n := |sites| - 1;
      RawOffers(sites[..n], base, draw) + [MakeOffer(sites[n], base, draw(n))]
  }

  /** simulate_website_offers: one offer for each of the first max_sites
      providers of the route's mode, cheapest final price first. */
  function WebsiteOffers(option: Route, maxSites: int, draw: nat -> Draw): seq<Offer> {
    Sort(RawOffers(PySliceTo(Providers(ModeKey(option)), maxSites), EffectiveBasePrice(option), draw),
         FinalPrice, Ascending)
  }

  method SimulateWebsiteOffers(option: Route, maxSites: int, draw: nat -> Draw) returns (offers: seq<Offer>)
    ensures offers == WebsiteOffers(option, maxSites, draw)
  {
    var mode := ModeKey(option);
    var basePrice := OrDefault(option.price, 0);
    var providers := Providers(mode);
    var selected := PySliceTo(providers, maxSites);
    var unsorted: seq<Offer> := [];
    if basePrice <= 0 {
      basePrice := FallbackBasePrice;
    }
    assert basePrice == EffectiveBasePrice(option);
    for i := 0 to |selected|
      invariant unsorted == RawOffers(selected[..i], basePrice, draw)
    {
      RawOffersSnoc(selected, i, basePrice, draw);
      unsorted := unsorted + [MakeOffer(selected[i], basePrice, draw(i))];
    }
    assert selected[..|selected|] == selected;
    offers := Sort(unsorted, FinalPrice, Ascending);
  }

  /** One more provider adds its offer at the end. */
  lemma RawOffersSnoc(sites: seq<string>, i: nat, base: int, draw: nat -> Draw)
    requires base > 0 && i < |sites|
    ensures RawOffers(sites[..i + 1], base, draw) == RawOffers(sites[..i], base, draw) + [MakeOffer(sites[i], base, draw(i))]
  {
    assert sites[..i + 1][..i] == sites[..i];
  }

  lemma RawOfferSites(sites: seq<string>, base: int, draw: nat -> Draw)
    requires base > 0
    ensures Sites(RawOffers(sites, base, draw)) == sites
  {
  }

  /** What the simulation promises: min(max_sites, providers) offers, one per
      selected provider, every discount one of the four, ascending final price. */
  lemma WebsiteOffersProperties(option: Route, maxSites: int, draw: nat -> Draw)
    ensures var offers := WebsiteOffers(option, maxSites, draw);
      && (maxSites >= 0 ==> |offers| == Min(maxSites, |Providers(ModeKey(option))|))
      && multiset(Sites(offers)) == multiset(PySliceTo(Providers(ModeKey(option)), maxSites))
      && (forall i :: 0 <= i < |offers| ==> offers[i].discount in Discounts && 0 <= offers[i].finalPrice <= offers[i].listPrice)
      && (forall i, j :: 0 <= i < j < |offers| ==> offers[i].finalPrice <= offers[j].finalPrice)
  {
    var providers := Providers(ModeKey(option));
    var selected := PySliceTo(providers, maxSites);
    var base := EffectiveBasePrice(option);
    var unsorted := RawOffers(selected, base, draw);
    var offers := Sort(unsorted, FinalPrice, Ascending);
    assert offers == WebsiteOffers(option, maxSites, draw);
    assert maxSites >= 0 ==> |selected| == Min(maxSites, |providers|);
    SitesPermutation(offers, unsorted);
    RawOfferSites(selected, base, draw);
    PermutationKeepsBounds(offers, unsorted);
  }

  /** A discount from the table and 0 <= final <= list price, for each offer. */
  predicate WellPriced(o: Offer) {
    o.discount in Discounts && 0 <= o.finalPrice <= o.listPrice
  }

  lemma PermutationKeepsBounds(a: seq<Offer>, b: seq<Offer>)
    requires multiset(a) == multiset(b)
    requires forall i :: 0 <= i < |b| ==> WellPriced(b[i])
    ensures forall i :: 0 <= i < |a| ==> a[i].discount in Discounts && 0 <= a[i].finalPrice <= a[i].listPrice
  {
    forall i | 0 <= i < |a| ensures WellPriced(a[i]) {
      assert a[i] in multiset(b);
      var j :| 0 <= j < |b| && b[j] == a[i];
    }
  }

  lemma {:induction false} SitesPermutation(a: seq<Offer>, b: seq<Offer>)
    requires multiset(a) == multiset(b)
    ensures multiset(Sites(a)) == multiset(Sites(b))
    decreases |a|
  {
    if a == [] {
      assert b == [] by { assert |b| == |multiset(b)|; }
    } else {
      var x := a[0];
      assert x in multiset(b);
      var k :| 0 <= k < |b| && b[k] == x;
      var rest := b[..k] + b[k + 1..];
      RemoveMatching(a, b, k);
      SitesPermutation(a[1..], rest);
      assert b == b[..k] + ([x] + b[k + 1..]);
      assert a == [x] + a[1..];
      SitesAppend(b[..k], [x] + b[k + 1..]);
      SitesAppend([x], b[k + 1..]);
      SitesAppend(b[..k], b[k + 1..]);
      SitesAppend([x], a[1..]);
      calc {
        multiset(Sites(b));
        multiset(Sites(b[..k]) + (Sites([x]) + Sites(b[k + 1..])));
        multiset(Sites(b[..k])) + multiset(Sites([x])) + multiset(Sites(b[k + 1..]));
        multiset(Sites(rest)) + multiset(Sites([x]));
        multiset(Sites(a[1..])) + multiset(Sites([x]));
        multiset(Sites([x]) + Sites(a[1..]));
        multiset(Sites(a));
      }
    }
  }

  lemma SitesAppend(a: seq<Offer>, b: seq<Offer>)
    ensures Sites(a + b) == Sites(a) + Sites(b)
  {
  }

  /** best_website_offer: nothing (the empty dictionary) for no offers, else
      the first offer with the lowest final price. */
  function BestWebsiteOffer(offers: seq<Offer>): (best: Option<Offer>)
    ensures best.None? <==> offers == []
    ensures best.Some? ==> best.value in offers
    ensures best.Some? ==> forall j :: 0 <= j < |offers| ==> best.value.finalPrice <= offers[j].finalPrice
    ensures best.Some? ==> exists i :: 0 <= i < |offers| && offers[i] == best.value
                                       && forall j :: 0 <= j < i ==> offers[j].finalPrice > best.value.finalPrice
  {
    if offers == [] then None
    else
      SortHead(offers, FinalPrice, Ascending);
      var i := FirstBest(offers, FinalPrice, Ascending);
      assert offers[i] == Sort(offers, FinalPrice, Ascending)[0];
      Some(Sort(offers, FinalPrice, Ascending)[0])
  }
}
