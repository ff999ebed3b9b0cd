/** ai/agent_engine.py: the chatbot's fixed-priority keyword dispatcher and
    its module-level memory. Replies are modelled by their kind and the
    values they show; the markdown wording is not. */
module Agent {
  import opened Strings
  import opened Sorting
  import opened Rows
  import opened Recommender
  import opened Rag

  /** USER_MEMORY. */
  datatype Memory = Memory(lastQuery: Option<string>, lastBestOption: Option<Route>, name: Option<string>)

  /** The values _format_option shows: the mode upper-cased (empty when the
      key is missing), the route, and price, rating and duration (None prints
      as "None", "N/A" and "N/A"). */
  datatype Card = Card(mode: string, origin: string, destination: string,
                       price: Option<int>, rating: Option<int>, durationMins: Option<int>)

  datatype Reply =
    | NoMessage                     // "I didn't receive any message…"
    | Welcome                       // the introduction with the example query
    | HelloAgain(name: string)      // "Hello {name}!"
    | NiceToMeet(name: string)
    | NiceToMeetAnonymous
    | BotName                       // "You can call me TRAViA"
    | BookingConfirmed(routeName: string, mode: string, origin: string, destination: string)
    | BookingKeyError               // best['mode'] on an option without a mode raises KeyError
    | RouteNotFound(origin: string, destination: string)
    | Unranked                      // "I found some routes, but couldn't rank them"
    | BestOption(card: Card)
    | NoRouteData
    | Cheapest(card: Card)
    | Guidance(title: string, snippet: string)
    | GeneralSafety
    | YouAreWelcome
    | Help

  const Greetings: seq<string> := ["hi", "hello", "hey", "good morning", "good evening"]
  const Confirmations: seq<string> := ["yes", "book", "confirm", "go ahead", "ok", "okay", "sure"]
  const CheapWords: seq<string> := ["cheap", "cheapest", "low", "budget"]
  const FastWords: seq<string> := ["fast", "quick", "shortest", "quickest"]
  const CheapestWords: seq<string> := ["cheapest", "lowest price", "low budget"]
  const SafetyWords: seq<string> := ["safety", "safe", "baggage", "luggage", "rules", "tips", "guidelines"]

  /** retrieve_context's default top_k. */
  const GuidanceTopK := 3

  /** The sort key of the cheapest intent: r.get("price", 1e9), in paise. */
  const MissingPrice := 100_000_000_000

  lemma UpperThenLower(s: string)
    ensures Lower(Upper(s)) == Lower(s)
  {
    assert forall i :: 0 <= i < |s| ==> Lower(Upper(s))[i] == Lower(s)[i];
  }

  /** _format_option. */
  function FormatOption(opt: Route): (c: Card)
    ensures forall i :: 0 <= i < |c.mode| ==> !IsLowerChar(c.mode[i])
    ensures Lower(c.mode) == Lower(opt.mode.GetOr(""))
    ensures c.origin == opt.origin && c.destination == opt.destination
    ensures c.price == opt.price && c.rating == opt.rating && c.durationMins == opt.durationMins
  {
    var m := opt.mode.GetOr("");
    UpperThenLower(m);
    Card(Upper(m), opt.origin, opt.destination, opt.price, opt.rating, opt.durationMins)
  }

  // ---------------- the route intent ----------------

  datatype RouteQuery = NoRoute | RouteQuery(origin: string, destination: string)

  /** msg.split("from", 1)[1].split("to", 1), both parts stripped; NoRoute
      where Python raises (no "to" after the "from", or an empty part). */
  function ParseRoute(msg: string): (q: RouteQuery)
    ensures q.RouteQuery? ==> q.origin != [] && q.destination != []
    ensures !Contains("from", msg) ==> q.NoRoute?
  {
    match SplitOnce(msg, "from")
    case Unsplit => NoRoute
    case Parts(_, afterFrom) =>
      match SplitOnce(afterFrom, "to")
      case Unsplit => NoRoute
      case Parts(originPart, destPart) =>
        var origin := PyStrip(originPart);
        var dest := PyStrip(destPart);
        if origin == [] || dest == [] then NoRoute else RouteQuery(origin, dest)
  }

  /** The origin is the stripped text between the first "from" and the first
      "to" after it, the destination the stripped rest. */
  lemma ParseRouteParts(msg: string) returns (pre: string, originPart: string, destPart: string)
    requires ParseRoute(msg).RouteQuery?
    ensures msg == pre + "from" + originPart + "to" + destPart
    ensures !Contains("from", pre + "fro") && !Contains("to", originPart + "t")
    ensures ParseRoute(msg).origin == PyStrip(originPart) && ParseRoute(msg).destination == PyStrip(destPart)
  {
    var afterFrom;
    pre, afterFrom, originPart, destPart := ParseRouteSplits(msg);
    RouteSplitJoin(msg, pre, afterFrom, originPart, destPart);
    RouteSplitFirst(msg, pre, afterFrom, originPart, destPart);
  }

  lemma RouteSplitJoin(msg: string, pre: string, afterFrom: string, originPart: string, destPart: string)
    requires SplitOnce(msg, "from") == Parts(pre, afterFrom)
    requires SplitOnce(afterFrom, "to") == Parts(originPart, destPart)
    ensures msg == pre + "from" + originPart + "to" + destPart
  {
    assert msg == pre + "from" + afterFrom;
    assert afterFrom == originPart + "to" + destPart;
  }

  lemma RouteSplitFirst(msg: string, pre: string, afterFrom: string, originPart: string, destPart: string)
    requires SplitOnce(msg, "from") == Parts(pre, afterFrom)
    requires SplitOnce(afterFrom, "to") == Parts(originPart, destPart)
    ensures !Contains("from", pre + "fro") && !Contains("to", originPart + "t")
  {
    assert "from"[..3] == "fro" && "to"[..1] == "t";
  }

  /** The converse: a message whose first "from" ends pre and whose first
      "to" after it ends originPart parses to those two parts, stripped,
      unless one of them is blank. */
  lemma ParseRouteOf(pre: string, originPart: string, destPart: string)
    requires !Contains("from", pre + "fro") && !Contains("to", originPart + "t")
    ensures ParseRoute(pre + "from" + originPart + "to" + destPart)
         == if PyStrip(originPart) == [] || PyStrip(destPart) == [] then NoRoute
            else RouteQuery(PyStrip(originPart), PyStrip(destPart))
  {
    var msg := pre + "from" + originPart + "to" + destPart;
    assert "from"[..3] == "fro" && "to"[..1] == "t";
    assert msg == pre + "from" + (originPart + "to" + destPart);
    SplitOnceAt(msg, "from", pre, originPart + "to" + destPart);
    SplitOnceAt(originPart + "to" + destPart, "to", originPart, destPart);
  }

  /** A "from" with no "to" after it parses to nothing. */
  lemma ParseRouteWithoutTo(pre: string, afterFrom: string)
    requires !Contains("from", pre + "fro") && !Contains("to", afterFrom)
    ensures ParseRoute(pre + "from" + afterFrom) == NoRoute
  {
    assert "from"[..3] == "fro";
    SplitOnceAt(pre + "from" + afterFrom, "from", pre, afterFrom);
  }

  lemma ParseRouteSplits(msg: string) returns (pre: string, afterFrom: string, originPart: string, destPart: string)
    requires ParseRoute(msg).RouteQuery?
    ensures SplitOnce(msg, "from") == Parts(pre, afterFrom)
    ensures SplitOnce(afterFrom, "to") == Parts(originPart, destPart)
    ensures ParseRoute(msg) == RouteQuery(PyStrip(originPart), PyStrip(destPart))
  {
    var s1 := SplitOnce(msg, "from");
    pre, afterFrom := s1.before, s1.after;
    var s2 := SplitOnce(afterFrom, "to");
    originPart, destPart := s2.before, s2.after;
  }

  /** A route matches when the origin and the destination asked for occur in
      its lower-cased origin and destination. */
  predicate RouteMatches(r: Route, origin: string, dest: string) {
    Contains(origin, Lower(r.origin)) && Contains(dest, Lower(r.destination))
  }

  /** The list comprehension over routes. */
  function Matches(routes: seq<Route>, origin: string, dest: string): (m: seq<Route>)
    ensures |m| <= |routes|
    ensures forall r :: r in m <==> r in routes && RouteMatches(r, origin, dest)
  {
    if routes == [] then []
    else
      var init := routes[..|routes| - 1];
      var r := routes[|routes| - 1];
      assert routes == init + [r];
      Matches(init, origin, dest) + (if RouteMatches(r, origin, dest) then [r] else [])
  }

  /** The filter keeps the routes' order: filtering a concatenation filters
      each part. */
  lemma {:induction false} MatchesAppend(a: seq<Route>, b: seq<Route>, origin: string, dest: string)
    ensures Matches(a + b, origin, dest) == Matches(a, origin, dest) + Matches(b, origin, dest)
    decreases |b|
  {
    if b != [] {
      var init := b[..|b| - 1];
      assert a + b == (a + init) + [b[|b| - 1]];
      assert (a + b)[..|a + b| - 1] == a + init;
      MatchesAppend(a, init, origin, dest);
    } else {
      assert a + b == a;
    }
  }

  /** "cheap" words win over "fast" words; the default is price. */
  function PriorityOf(msg: string): (p: string)
    ensures p == "time" || p == "price"
    ensures p == "time" <==> !ContainsAny(msg, CheapWords) && ContainsAny(msg, FastWords)
  {
    if ContainsAny(msg, CheapWords) then "price"
    else if ContainsAny(msg, FastWords) then "time"
    else "price"
  }

  /** recommend_transport_options(matches, priority) with no budget. */
  function Ranked(matches: seq<Route>, priority: string): (r: seq<Scored>)
    requires AllScorable(matches, priority, None)
    ensures |r| == |matches| && Sorted(r, ScoreOf, Descending)
    ensures forall x :: x in r ==> x.route in matches && x.score == Score(priority, x.route)
  {
    CandidatesWithoutBudget(matches, priority);
    SortMembers(Candidates(matches, priority, None), ScoreOf, Descending);
    Sort(Candidates(matches, priority, None), ScoreOf, Descending)
  }

  /** Lines 82-127 once both "from" and "to" occur: None when an exception
      is swallowed and the dispatcher goes on with the later intents. */
  function RouteAnswer(msg: string, routes: seq<Route>, m: Memory): (out: Option<(Reply, Memory)>)
    ensures out.Some? <==>
      ParseRoute(msg).RouteQuery?
      && (MatchesFor(msg, routes) == [] || AllScorable(MatchesFor(msg, routes), PriorityOf(msg), None))
  {
    match ParseRoute(msg)
    case NoRoute => None
    case RouteQuery(origin, dest) => AnswerFor(origin, dest, PriorityOf(msg), routes, m)
  }

  /** The answer once origin and destination are parsed. */
  function AnswerFor(origin: string, dest: string, priority: string, routes: seq<Route>, m: Memory): (out: Option<(Reply, Memory)>)
    ensures out.None? <==> Matches(routes, origin, dest) != [] && !AllScorable(Matches(routes, origin, dest), priority, None)
    ensures out.Some? ==> (out.value.0.RouteNotFound? || out.value.0.BestOption?)
    ensures out.Some? && out.value.1 != m ==>
      out.value.0.BestOption? && out.value.1 == m.(lastBestOption := out.value.1.lastBestOption)
      && out.value.1.lastBestOption.Some? && out.value.1.lastBestOption.value in Matches(routes, origin, dest)
  {
    var matches := Matches(routes, origin, dest);
    if matches == [] then Some((RouteNotFound(origin, dest), m))
    else if !AllScorable(matches, priority, None) then None
    else
      var recs := Ranked(matches, priority);
      if recs == [] then Some((Unranked, m))
      else Some((BestOption(FormatOption(recs[0].route)), m.(lastBestOption := Some(recs[0].route))))
  }

  /** With no budget every option is ranked, each with its own score. */
  lemma {:induction false} CandidatesWithoutBudget(options: seq<Route>, priority: string)
    requires AllScorable(options, priority, None)
    ensures |Candidates(options, priority, None)| == |options|
    ensures forall i :: 0 <= i < |options| ==>
      Candidates(options, priority, None)[i] == Scored(options[i], Score(priority, options[i]))
    decreases |options|
  {
    if options != [] {
      var n := |options| - 1;
      var init := options[..n];
      var o := options[n];
      assert forall i :: 0 <= i < n ==> init[i] == options[i];
      assert AllScorable(init, priority, None);
      CandidatesWithoutBudget(init, priority);
      var c := Candidates(init, priority, None);
      var all := Candidates(options, priority, None);
      assert WithinBudget(o, None);
      assert all == c + [Scored(o, Score(priority, o))];
      forall i | 0 <= i < |options|
        ensures all[i] == Scored(options[i], Score(priority, options[i]))
      {
        if i < n {
          assert all[i] == c[i] && init[i] == options[i];
        }
      }
    }
  }

  /** The route intent answers "not found" exactly when no route matches,
      and then the memory stays as it was; the ranking never comes back
      empty. */
  lemma RouteNotFoundExactly(msg: string, routes: seq<Route>, m: Memory)
    requires RouteAnswer(msg, routes, m).Some?
    ensures ParseRoute(msg).RouteQuery?
    ensures var q := ParseRoute(msg);
      var out := RouteAnswer(msg, routes, m).value;
      && (out.0.RouteNotFound? <==> Matches(routes, q.origin, q.destination) == [])
      && (out.0.RouteNotFound? ==>
            out == (RouteNotFound(q.origin, q.destination), m)
            && forall r :: r in routes ==> !RouteMatches(r, q.origin, q.destination))
      && (out.0.BestOption? || out.0.RouteNotFound?)
  {
    var q := ParseRoute(msg);
    var matches := Matches(routes, q.origin, q.destination);
    if matches != [] && AllScorable(matches, PriorityOf(msg), None) {
      CandidatesWithoutBudget(matches, PriorityOf(msg));
    }
  }

  /** The routes that match the route asked for in the message. */
  function MatchesFor(msg: string, routes: seq<Route>): seq<Route> {
    match ParseRoute(msg)
    case NoRoute => []
    case RouteQuery(origin, dest) => Matches(routes, origin, dest)
  }

  lemma RouteAnswerBest(msg: string, routes: seq<Route>, m: Memory)
    requires RouteAnswer(msg, routes, m).Some? && RouteAnswer(msg, routes, m).value.0.BestOption?
    ensures MatchesFor(msg, routes) != [] && AllScorable(MatchesFor(msg, routes), PriorityOf(msg), None)
    ensures Ranked(MatchesFor(msg, routes), PriorityOf(msg)) != []
    ensures var best := Ranked(MatchesFor(msg, routes), PriorityOf(msg))[0].route;
      RouteAnswer(msg, routes, m).value == (BestOption(FormatOption(best)), m.(lastBestOption := Some(best)))
  {
  }

  /** matches[i] has the highest score under priority p, and every option
      before it scores strictly less. */
  predicate FirstOfHighestScore(matches: seq<Route>, p: string, i: nat) {
    && i < |matches| && AllScorable(matches, p, None)
    && (forall j :: 0 <= j < |matches| ==> Score(p, matches[j]) <= Score(p, matches[i]))
    && (forall j :: 0 <= j < i ==> Score(p, matches[j]) < Score(p, matches[i]))
  }

  /** The head of the ranking is the first option of highest score. */
  lemma RankedHead(matches: seq<Route>, p: string) returns (i: nat)
    requires matches != [] && AllScorable(matches, p, None)
    ensures FirstOfHighestScore(matches, p, i)
    ensures Ranked(matches, p) != [] && Ranked(matches, p)[0].route == matches[i]
  {
    var c := Candidates(matches, p, None);
    CandidatesWithoutBudget(matches, p);
    SortHead(c, ScoreOf, Descending);
    i := FirstBest(c, ScoreOf, Descending);
    assert c[i].route == matches[i];
    forall j | 0 <= j < |matches|
      ensures Score(p, matches[j]) <= Score(p, matches[i])
    {
      assert c[j].score == Score(p, matches[j]);
    }
    forall j | 0 <= j < i
      ensures Score(p, matches[j]) < Score(p, matches[i])
    {
      assert c[j].score == Score(p, matches[j]);
    }
  }

  /** Otherwise the option shown and remembered is the first matching route
      of highest score under the message's priority. */
  lemma BestRouteChosen(msg: string, routes: seq<Route>, m: Memory) returns (i: nat)
    requires RouteAnswer(msg, routes, m).Some? && RouteAnswer(msg, routes, m).value.0.BestOption?
    ensures FirstOfHighestScore(MatchesFor(msg, routes), PriorityOf(msg), i)
    ensures var best := MatchesFor(msg, routes)[i];
      RouteAnswer(msg, routes, m).value == (BestOption(FormatOption(best)), m.(lastBestOption := Some(best)))
  {
    RouteAnswerBest(msg, routes, m);
    i := RankedHead(MatchesFor(msg, routes), PriorityOf(msg));
  }

  // ---------------- the cheapest intent ----------------

  function PriceKey(r: Route): int { r.price.GetOr(MissingPrice) }

  /** sorted(routes, key=price)[0]: the first route of lowest price. */
  function CheapestRoute(routes: seq<Route>): (best: Route)
    requires routes != []
    ensures best in routes
    ensures forall j :: 0 <= j < |routes| ==> PriceKey(best) <= PriceKey(routes[j])
    ensures exists i :: 0 <= i < |routes| && routes[i] == best
                        && forall j :: 0 <= j < i ==> PriceKey(routes[j]) > PriceKey(best)
  {
    SortHead(routes, PriceKey, Ascending);
    var i := FirstBest(routes, PriceKey, Ascending);
    assert routes[i] == Sort(routes, PriceKey, Ascending)[0];
    Sort(routes, PriceKey, Ascending)[0]
  }

  /** The heading of a guidance reply: the file stem with underscores as
      spaces, title-cased. */
  function GuidanceTitle(stem: string): (t: string)
    ensures |t| == |stem| && '_' !in t
    ensures forall i :: 0 <= i < |stem| ==>
      t[i] == TitleChar(if stem[i] == '_' then ' ' else stem[i], i > 0 && IsCased(stem[i - 1]))
  {
    TitleFromKeepsUncased(ReplaceChar(stem, '_', ' '), false, '_');
    Title(ReplaceChar(stem, '_', ' '))
  }

  lemma {:induction false} TitleFromKeepsUncased(s: string, prev: bool, c: char)
    requires !IsCased(c) && c !in s
    ensures c !in TitleFrom(s, prev)
    decreases |s|
  {
    if s != [] {
      TitleFromKeepsUncased(s[1..], IsCased(s[0]), c);
    }
  }

  // ---------------- the dispatcher ----------------

  /** The first word of a name, title-cased ("" when there is none). */
  function FirstWord(s: string): string {
    var w := Words(s);
    if w == [] then "" else w[0]
  }

  /** Intents 1 to 4 (greeting, name, bot name, booking confirmation) on the
      stripped text and its lower-cased form; None when none applies. */
  function EarlyAnswer(text: string, msg: string, m: Memory): (out: Option<(Reply, Memory)>)
    ensures out.Some? ==> out.value.1.lastQuery == m.lastQuery && out.value.1.lastBestOption == m.lastBestOption
    ensures out.Some? && out.value.1.name != m.name ==> out.value.0.NiceToMeet? && out.value.1.name == Some(out.value.0.name)
    ensures out.Some? && (out.value.0.BookingConfirmed? || out.value.0.BookingKeyError?) ==> m.lastBestOption.Some?
    ensures ContainsAny(msg, Greetings) ==> out.Some? && (out.value.0.Welcome? || out.value.0.HelloAgain?)
  {
    if ContainsAny(msg, Greetings) then
      if m.name.Some? && m.name.value != "" then Some((HelloAgain(m.name.value), m)) else Some((Welcome, m))
    else if Contains("my name is", msg) then Some(NameAnswer(text, m))
    else BotOrBookingAnswer(msg, m)
  }

  /** Intent 2: the name after the first "my name is" in the original text. */
  function NameAnswer(text: string, m: Memory): (out: (Reply, Memory))
    ensures out.1 == m || (out.0.NiceToMeet? && out.1 == m.(name := Some(out.0.name)))
  {
    match NameFrom(text)
    case Some(name) => (NiceToMeet(name), m.(name := Some(name)))
    case None => (NiceToMeetAnonymous, m)
  }

  /** The name introduced: the first word after the first "my name is"
      (split with maxsplit 1, then the last part), in title case; none when
      nothing but blanks follows. */
  function NameFrom(text: string): (r: Option<string>)
    ensures r.None? <==> AllSpace(LastPart(text, "my name is"), PyIsSpace)
    ensures r.Some? ==> r.value != []
  {
    var namePart := PyStrip(LastPart(text, "my name is"));
    if namePart != "" then Some(Title(FirstWord(namePart))) else None
  }

  /** Intents 3 and 4: the assistant's name, and a booking confirmation of
      the remembered best option. */
  function BotOrBookingAnswer(msg: string, m: Memory): (out: Option<(Reply, Memory)>)
    ensures out.Some? ==> out.value.1 == m
    ensures out.Some? && (out.value.0.BookingConfirmed? || out.value.0.BookingKeyError?) ==> m.lastBestOption.Some?
  {
    if Contains("your name", msg) then Some((BotName, m))
    else if m.lastBestOption.Some? && ContainsAny(msg, Confirmations) then
      var best := m.lastBestOption.value;
      match best.mode
      case None => Some((BookingKeyError, m))
      case Some(mode) => Some((BookingConfirmed(best.name, Upper(mode), best.origin, best.destination), m))
    else None
  }

  /** Intents 6 to 9 (cheapest overall, guidance, thanks, help). */
  function LateAnswer(text: string, msg: string, routes: seq<Route>, docs: seq<Doc>, m: Memory): (out: (Reply, Memory))
    ensures out.1.lastQuery == m.lastQuery && out.1.name == m.name
    ensures out.1.lastBestOption != m.lastBestOption ==>
      out.0.Cheapest? && out.1.lastBestOption.Some? && out.1.lastBestOption.value in routes
  {
    if ContainsAny(msg, CheapestWords) then
      if routes == [] then (NoRouteData, m)
      else
        var best := CheapestRoute(routes);
        (Cheapest(FormatOption(best)), m.(lastBestOption := Some(best)))
    else if ContainsAny(msg, SafetyWords) then
      var ctx := Retrieved(text, docs, GuidanceTopK);
      if ctx == [] then (GeneralSafety, m)
      else (Guidance(GuidanceTitle(ctx[0].title), ctx[0].snippet), m)
    else if Contains("thank", msg) then (YouAreWelcome, m)
    else (Help, m)
  }

  /** Whether the route intent answers (intent 5). */
  predicate RouteAnswers(msg: string, routes: seq<Route>, m: Memory) {
    Contains("from", msg) && Contains("to", msg) && RouteAnswer(msg, routes, m).Some?
  }

  /** respond_intelligently: the reply and the memory afterwards. */
  function Respond(message: string, routes: seq<Route>, docs: seq<Doc>, mem: Memory): (out: (Reply, Memory))
    ensures message == "" ==> out == (NoMessage, mem)
    ensures message != "" ==> out.1.lastQuery == Some(PyStrip(message))
    ensures out.1.name != mem.name ==> out.0.NiceToMeet? && out.1.name == Some(out.0.name)
    ensures out.1.lastBestOption != mem.lastBestOption ==>
      (out.0.BestOption? || out.0.Cheapest?) && out.1.lastBestOption.Some?
      && out.1.lastBestOption.value in routes
    ensures (out.0.BookingConfirmed? || out.0.BookingKeyError?) ==>
      mem.lastBestOption.Some? && out.1.lastBestOption == mem.lastBestOption
    ensures message != "" && ContainsAny(Lower(PyStrip(message)), Greetings) ==>
      out.0.Welcome? || out.0.HelloAgain?
  {
    if message == "" then (NoMessage, mem)
    else
      var text := PyStrip(message);
      var msg := Lower(text);
      Dispatch(text, msg, routes, docs, mem.(lastQuery := Some(text)))
  }

  /** The intents in their order of precedence, on the stripped text and its
      lower-cased form. */
  function Dispatch(text: string, msg: string, routes: seq<Route>, docs: seq<Doc>, m: Memory): (out: (Reply, Memory))
    ensures out.1.lastQuery == m.lastQuery
    ensures out.1.name != m.name ==> out.0.NiceToMeet? && out.1.name == Some(out.0.name)
    ensures out.1.lastBestOption != m.lastBestOption ==>
      (out.0.BestOption? || out.0.Cheapest?) && out.1.lastBestOption.Some?
      && out.1.lastBestOption.value in routes
    ensures (out.0.BookingConfirmed? || out.0.BookingKeyError?) ==>
      m.lastBestOption.Some? && out.1.lastBestOption == m.lastBestOption
    ensures ContainsAny(msg, Greetings) ==> out.0.Welcome? || out.0.HelloAgain?
  {
    var early := EarlyAnswer(text, msg, m);
    if early.Some? then early.value
    else if RouteAnswers(msg, routes, m) then
      RouteAnswerInRoutes(msg, routes, m);
      RouteAnswer(msg, routes, m).value
    else LateAnswer(text, msg, routes, docs, m)
  }

  /** The route intent only remembers a route it was given, and changes
      nothing but the remembered option. */
  lemma RouteAnswerInRoutes(msg: string, routes: seq<Route>, m: Memory)
    requires RouteAnswer(msg, routes, m).Some?
    ensures var (reply, m') := RouteAnswer(msg, routes, m).value;
      && m'.lastQuery == m.lastQuery && m'.name == m.name
      && (m'.lastBestOption != m.lastBestOption ==>
            reply.BestOption? && m'.lastBestOption.Some? && m'.lastBestOption.value in routes)
  {
    var q := ParseRoute(msg);
    var matches := Matches(routes, q.origin, q.destination);
    if matches != [] && AllScorable(matches, PriorityOf(msg), None) {
      var recs := Ranked(matches, PriorityOf(msg));
      if recs != [] {
        assert recs[0] in recs;
        SortMembers(Candidates(matches, PriorityOf(msg), None), ScoreOf, Descending);
      }
    }
  }

  // ---------------- consequences of the dispatch order ----------------

  /** The greeting test runs first and on substrings, so any message that
      mentions Delhi ("del-hi") is answered with a greeting, the bot's own
      example "Best train from Delhi to Agra" included. */
  lemma DelhiIsAGreeting(message: string, routes: seq<Route>, docs: seq<Doc>, mem: Memory)
    requires message != "" && Contains("delhi", Lower(PyStrip(message)))
    ensures var out := Respond(message, routes, docs, mem);
      (out.0.Welcome? || out.0.HelloAgain?) && out.1 == mem.(lastQuery := Some(PyStrip(message)))
  {
    var text := PyStrip(message);
    var msg := Lower(text);
    var m := mem.(lastQuery := Some(text));
    assert "delhi"[3..5] == "hi";
    ContainsAt("hi", "delhi", 3);
    ContainsTransitive("hi", "delhi", msg);
    assert Greetings[0] == "hi";
    assert ContainsAny(msg, Greetings);
    var reply := if m.name.Some? && m.name.value != "" then HelloAgain(m.name.value) else Welcome;
    assert EarlyAnswer(text, msg, m) == Some((reply, m));
    RespondEarly(message, routes, docs, mem);
  }

  /** The phrase "my name is" is looked for in the lower-cased text but split
      off the original text: when it is not written in lower case ("My name
      is John"), the name stored is the message's own first word ("My"). */
  lemma NameFromFirstWordWhenCapitalised(message: string, routes: seq<Route>, docs: seq<Doc>, mem: Memory)
    requires message != ""
    requires !ContainsAny(Lower(PyStrip(message)), Greetings)
    requires Contains("my name is", Lower(PyStrip(message))) && !Contains("my name is", PyStrip(message))
    ensures var name := Title(FirstWord(PyStrip(message)));
      Respond(message, routes, docs, mem) == (NiceToMeet(name), mem.(lastQuery := Some(PyStrip(message)), name := Some(name)))
  {
    var text := PyStrip(message);
    var msg := Lower(text);
    var m := mem.(lastQuery := Some(text));
    var name := Title(FirstWord(text));
    assert PyStrip(text) == text by {
      StripIdempotent(message, PyIsSpace);
    }
    assert text != [] by {
      assert |msg| == |text|;
    }
    assert LastPart(text, "my name is") == text by {
      LastPartWithoutSep(text, "my name is");
    }
    assert EarlyAnswer(text, msg, m) == Some((NiceToMeet(name), m.(name := Some(name)))) by {
      NameFromNamePart(text, msg, m);
    }
    RespondEarly(message, routes, docs, mem);
  }

  /** Once one of the first four intents answers, that is the reply. */
  lemma RespondEarly(message: string, routes: seq<Route>, docs: seq<Doc>, mem: Memory)
    requires message != ""
    requires EarlyAnswer(PyStrip(message), Lower(PyStrip(message)), mem.(lastQuery := Some(PyStrip(message)))).Some?
    ensures Respond(message, routes, docs, mem)
         == EarlyAnswer(PyStrip(message), Lower(PyStrip(message)), mem.(lastQuery := Some(PyStrip(message)))).value
  {
  }

  /** Intent 5 comes next: when none of the first four intents applies and
      the route intent answers, its answer is the reply. */
  lemma RespondRoute(message: string, routes: seq<Route>, docs: seq<Doc>, mem: Memory)
    requires message != ""
    requires var text := PyStrip(message);
      var m := mem.(lastQuery := Some(text));
      EarlyAnswer(text, Lower(text), m).None? && RouteAnswers(Lower(text), routes, m)
    ensures var text := PyStrip(message);
      Respond(message, routes, docs, mem) == RouteAnswer(Lower(text), routes, mem.(lastQuery := Some(text))).value
  {
  }

  /** Intent 6, the cheapest route overall, comes after the route intent:
      with routes it shows and remembers the first route of lowest price,
      and without any the fixed "no route data" reply is given. */
  lemma RespondCheapest(message: string, routes: seq<Route>, docs: seq<Doc>, mem: Memory)
    requires message != ""
    requires var text := PyStrip(message);
      var m := mem.(lastQuery := Some(text));
      && EarlyAnswer(text, Lower(text), m).None? && !RouteAnswers(Lower(text), routes, m)
      && ContainsAny(Lower(text), CheapestWords)
    ensures var m := mem.(lastQuery := Some(PyStrip(message)));
      Respond(message, routes, docs, mem)
      == if routes == [] then (NoRouteData, m)
         else (Cheapest(FormatOption(CheapestRoute(routes))), m.(lastBestOption := Some(CheapestRoute(routes))))
  {
  }

  /** Intents 7 to 9 in their order: safety guidance from the best retrieved
      passage (or the general tips when none matches), then thanks, then
      the help text; none of them changes the memory beyond the last query. */
  lemma RespondAfterCheapest(message: string, routes: seq<Route>, docs: seq<Doc>, mem: Memory)
    requires message != ""
    requires var text := PyStrip(message);
      var m := mem.(lastQuery := Some(text));
      && EarlyAnswer(text, Lower(text), m).None? && !RouteAnswers(Lower(text), routes, m)
      && !ContainsAny(Lower(text), CheapestWords)
    ensures var text := PyStrip(message);
      var msg := Lower(text);
      var ctx := Retrieved(text, docs, GuidanceTopK);
      var out := Respond(message, routes, docs, mem);
      && out.1 == mem.(lastQuery := Some(text))
      && (ContainsAny(msg, SafetyWords) ==>
            out.0 == if ctx == [] then GeneralSafety else Guidance(GuidanceTitle(ctx[0].title), ctx[0].snippet))
      && (!ContainsAny(msg, SafetyWords) && Contains("thank", msg) ==> out.0 == YouAreWelcome)
      && (!ContainsAny(msg, SafetyWords) && !Contains("thank", msg) ==> out.0 == Help)
  {
  }

  /** Name capture in general: for a message whose first "my name is" ends
      pre, the reply greets the first word of what follows, stripped and
      title-cased, and remembers it; blanks only give the anonymous greeting
      and leave the memory as it was. */
  lemma NameCapture(text: string, pre: string, rest: string, m: Memory)
    requires text == pre + "my name is" + rest
    requires !Contains("my name is", pre + "my name i")
    ensures var part := PyStrip(rest);
      && (part == "" ==> NameAnswer(text, m) == (NiceToMeetAnonymous, m))
      && (part != "" ==> FirstWord(part) == part[..TokenLength(part)])
      && (part != "" ==>
            NameAnswer(text, m) == (NiceToMeet(Title(FirstWord(part))), m.(name := Some(Title(FirstWord(part))))))
  {
    assert "my name is"[..|"my name is"| - 1] == "my name i";
    SplitOnceAt(text, "my name is", pre, rest);
    var part := PyStrip(rest);
    if part != "" {
      assert !AllSpace(part, PyIsSpace) by {
        assert !PyIsSpace(part[0]);
      }
      WordsHead(part);
      assert DropLeading(part, PyIsSpace) == part by {
        assert LeadingCount(part, PyIsSpace) == 0;
      }
    }
  }

  lemma NameFromNamePart(text: string, msg: string, m: Memory)
    requires !ContainsAny(msg, Greetings) && Contains("my name is", msg)
    requires text != [] && PyStrip(text) == text && LastPart(text, "my name is") == text
    ensures var name := Title(FirstWord(text));
      EarlyAnswer(text, msg, m) == Some((NiceToMeet(name), m.(name := Some(name))))
  {
    assert NameFrom(text) == Some(Title(FirstWord(text)));
    assert EarlyAnswer(text, msg, m) == Some(NameAnswer(text, m));
  }

  /** The booking confirmation is checked before any route parsing: once an
      option is remembered, a confirmation word (and none of the earlier
      intents) confirms it whatever routes and documents are loaded. */
  lemma ConfirmationBeforeRoutes(message: string, routes: seq<Route>, docs: seq<Doc>,
                                 routes2: seq<Route>, docs2: seq<Doc>, mem: Memory)
    requires message != "" && mem.lastBestOption.Some?
    requires var msg := Lower(PyStrip(message));
      && !ContainsAny(msg, Greetings) && !Contains("my name is", msg) && !Contains("your name", msg)
      && ContainsAny(msg, Confirmations)
    ensures var out := Respond(message, routes, docs, mem);
      && (out.0.BookingConfirmed? || out.0.BookingKeyError?)
      && (out.0.BookingKeyError? <==> mem.lastBestOption.value.mode.None?)
      && out == Respond(message, routes2, docs2, mem)
  {
  }

  /** The chatbot with its USER_MEMORY. */
  class Assistant {
    var lastQuery: Option<string>
    var lastBestOption: Option<Route>
    var name: Option<string>

    function Mem(): Memory
      reads this
    {
      Memory(lastQuery, lastBestOption, name)
    }

    constructor ()
      ensures Mem() == Memory(None, None, None)
    {
      lastQuery, lastBestOption, name := None, None, None;
    }

    /** respond_intelligently, with the knowledge base given as documents. */
    method RespondIntelligently(message: string, routes: seq<Route>, docs: seq<Doc>) returns (reply: Reply)
      modifies this
      ensures (reply, Mem()) == Respond(message, routes, docs, old(Mem()))
    {
      if message == "" {
        return NoMessage;
      }
      var text := PyStrip(message);
      var msg := Lower(text);
      lastQuery := Some(text);
      var early := EarlyIntents(text, msg);
      if early.Some? {
        return early.value;
      }
      var routeReply := RouteIntent(msg, routes);
      if routeReply.Some? {
        return routeReply.value;
      }
      reply := LateIntents(text, msg, routes, docs);
    }

    method EarlyIntents(text: string, msg: string) returns (answer: Option<Reply>)
      modifies this
      ensures var expected := EarlyAnswer(text, msg, old(Mem()));
        && (answer.Some? <==> expected.Some?)
        && (answer.Some? ==> (answer.value, Mem()) == expected.value)
        && (answer.None? ==> Mem() == old(Mem()))
    {
      if ContainsAny(msg, Greetings) {
        if name.Some? && name.value != "" {
          return Some(HelloAgain(name.value));
        }
        return Some(Welcome);
      }
      if Contains("my name is", msg) {
        answer := NameIntent(text);
        return;
      }
      answer := BotOrBookingIntent(msg);
    }

    method NameIntent(text: string) returns (answer: Option<Reply>)
      modifies this
      ensures answer.Some? && (answer.value, Mem()) == NameAnswer(text, old(Mem()))
    {
      var introduced := NameFrom(text);
      if introduced.Some? {
        name := introduced;
        return Some(NiceToMeet(introduced.value));
      }
      return Some(NiceToMeetAnonymous);
    }

    method BotOrBookingIntent(msg: string) returns (answer: Option<Reply>)
      ensures var expected := BotOrBookingAnswer(msg, Mem());
        && (answer.Some? <==> expected.Some?)
        && (answer.Some? ==> answer.value == expected.value.0)
    {
      if Contains("your name", msg) {
        return Some(BotName);
      }
      if lastBestOption.Some? && ContainsAny(msg, Confirmations) {
        var best := lastBestOption.value;
        if best.mode.None? {
          return Some(BookingKeyError);
        }
        return Some(BookingConfirmed(best.name, Upper(best.mode.value), best.origin, best.destination));
      }
      return None;
    }

    method RouteIntent(msg: string, routes: seq<Route>) returns (answer: Option<Reply>)
      modifies this
      ensures answer.Some? <==> RouteAnswers(msg, routes, old(Mem()))
      ensures answer.Some? ==> (answer.value, Mem()) == RouteAnswer(msg, routes, old(Mem())).value
      ensures answer.None? ==> Mem() == old(Mem())
    {
      if !(Contains("from", msg) && Contains("to", msg)) {
        return None;
      }
      var q := ParseRoute(msg);
      if q.NoRoute? {
        return None;
      }
      answer := AnswerRouteQuery(q.origin, q.destination, PriorityOf(msg), routes);
    }

    method AnswerRouteQuery(origin: string, dest: string, priority: string, routes: seq<Route>)
      returns (answer: Option<Reply>)
      modifies this
      ensures var expected := AnswerFor(origin, dest, priority, routes, old(Mem()));
        && (answer.Some? <==> expected.Some?)
        && (answer.Some? ==> (answer.value, Mem()) == expected.value)
        && (answer.None? ==> Mem() == old(Mem()))
    {
      var matches := Matches(routes, origin, dest);
      if matches == [] {
        return Some(RouteNotFound(origin, dest));
      }
      if !AllScorable(matches, priority, None) {
        return None;
      }
      var recs := RecommendTransportOptions(matches, priority, None);
      if recs == [] {
        return Some(Unranked);
      }
      lastBestOption := Some(recs[0].route);
      return Some(BestOption(FormatOption(recs[0].route)));
    }

    method LateIntents(text: string, msg: string, routes: seq<Route>, docs: seq<Doc>) returns (reply: Reply)
      modifies this
      ensures (reply, Mem()) == LateAnswer(text, msg, routes, docs, old(Mem()))
    {
      if ContainsAny(msg, CheapestWords) {
        if routes == [] {
          return NoRouteData;
        }
        var best := CheapestRoute(routes);
        lastBestOption := Some(best);
        return Cheapest(FormatOption(best));
      }
      if ContainsAny(msg, SafetyWords) {
        var ctx := RetrieveContext(text, docs, GuidanceTopK);
        if ctx == [] {
          return GeneralSafety;
        }
        return Guidance(GuidanceTitle(ctx[0].title), ctx[0].snippet);
      }
      if Contains("thank", msg) {
        return YouAreWelcome;
      }
      return Help;
    }
  }
}
