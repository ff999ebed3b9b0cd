/** static/script.js: the decisions the browser script makes on the data the
    server sends back: labels for modes, the best search result and the
    others, the origin/destination option lists, and the chat input guard.
    The DOM, fetch and timers are not modelled; what the script writes into
    the page is kept as field values. */
module Client {
  import opened Strings

  // ---------------- mode labels ----------------

  /** formatMode; None stands for null or undefined. */
  function FormatMode(mode: Option<string>): (r: string)
    ensures mode.None? || mode.value == "" ==> r == ""
    ensures mode.Some? && Lower(mode.value) == "bike" ==> r == "Bike Taxi"
    ensures mode.Some? && Lower(mode.value) == "taxi" ==> r == "Cab / Taxi"
    ensures mode.Some? && mode.value != "" && Lower(mode.value) != "bike" && Lower(mode.value) != "taxi" ==>
      |r| == |mode.value| && !IsLowerChar(r[0]) && Lower(r) == Lower(mode.value) && r[1..] == Lower(mode.value)[1..]
  {
    if mode.None? || mode.value == "" then ""
    else
      var m := Lower(mode.value);
      if m == "bike" then "Bike Taxi"
      else if m == "taxi" then "Cab / Taxi"
      else
        var r := [UpperChar(m[0])] + m[1..];
        assert Lower(r) == m by {
          assert Lower(r)[0] == LowerChar(UpperChar(m[0])) == m[0];
          assert forall i :: 1 <= i < |r| ==> Lower(r)[i] == LowerChar(m[i]) == m[i];
        }
        r
  }

  /** The label depends on the mode's letters only, not on their case. */
  lemma FormatModeIgnoresCase(mode: string)
    ensures FormatMode(Some(Lower(mode))) == FormatMode(Some(mode))
  {
    LowerIdempotent(mode);
  }

  // ---------------- search results ----------------

  /** One search result. The price is Number(item.price) in paise; None
      when that is NaN. */
  datatype Item = Item(id: string, name: string, mode: string, origin: string, destination: string,
                       price: Option<int>)

  /** a's price is below b's: false whenever either is NaN. */
  predicate Cheaper(a: Item, b: Item) {
    a.price.Some? && b.price.Some? && a.price.value < b.price.value
  }

  /** Every result before index i is NaN-priced or dearer than result i. */
  predicate BeforeAllCheaper(results: seq<Item>, i: nat)
    requires i < |results|
  {
    forall j :: 0 <= j < i ==> results[j].price.None? || Cheaper(results[i], results[j])
  }

  /** The best-choice loop of doSearch: start from the first result and take
      any later one that is strictly cheaper. When the first price is NaN no
      comparison succeeds and the first result stays; otherwise the choice
      is the earliest result of lowest price. */
  method BestChoice(results: seq<Item>) returns (best: Item)
    requires results != []
    ensures best in results
    ensures results[0].price.None? ==> best == results[0]
    ensures results[0].price.Some? ==>
      best.price.Some? && forall j :: 0 <= j < |results| && results[j].price.Some? ==> best.price.value <= results[j].price.value
    ensures exists i :: 0 <= i < |results| && results[i] == best && BeforeAllCheaper(results, i)
  {
    best := results[0];
    ghost var at := 0;
    for i := 0 to |results|
      invariant 0 <= at < |results| && at <= i && best == results[at]
      invariant results[0].price.None? ==> at == 0
      invariant results[0].price.Some? ==>
        best.price.Some? && forall j :: 0 <= j < i && results[j].price.Some? ==> best.price.value <= results[j].price.value
      invariant BeforeAllCheaper(results, at)
    {
      if Cheaper(results[i], best) {
        best := results[i];
        at := i;
      }
    }
  }

  /** The results shown under the best choice: those whose id differs from
      the best one's, in their order. */
  function Remaining(results: seq<Item>, bestId: string): (r: seq<Item>)
    ensures |r| <= |results|
  {
    if results == [] then []
    else
      var init := results[..|results| - 1];
      var x := results[|results| - 1];
      assert results == init + [x];
      Remaining(init, bestId) + (if x.id != bestId then [x] else [])
  }

  /** The remaining results are exactly those whose id is not the best one's. */
  lemma {:induction false} RemainingMembers(results: seq<Item>, bestId: string)
    ensures forall x :: x in Remaining(results, bestId) <==> x in results && x.id != bestId
    decreases |results|
  {
    if results != [] {
      var init := results[..|results| - 1];
      RemainingMembers(init, bestId);
      assert results == init + [results[|results| - 1]];
    }
  }

  /** Filtering keeps the order: it splits along any split of the results. */
  lemma {:induction false} RemainingKeepsOrder(a: seq<Item>, b: seq<Item>, bestId: string)
    ensures Remaining(a + b, bestId) == Remaining(a, bestId) + Remaining(b, bestId)
    decreases |b|
  {
    if b == [] {
      assert a + b == a;
    } else {
      var init := b[..|b| - 1];
      RemainingKeepsOrder(a, init, bestId);
      assert (a + b)[..|a + b| - 1] == a + init;
      assert (a + b)[|a + b| - 1] == b[|b| - 1];
    }
  }

  /** The best choice itself is never listed again, so fewer results remain. */
  lemma BestIsHidden(results: seq<Item>, best: Item)
    requires best in results
    ensures best !in Remaining(results, best.id)
    ensures |Remaining(results, best.id)| < |results|
  {
    var i :| 0 <= i < |results| && results[i] == best;
    assert results == results[..i] + [best] + results[i + 1..];
    RemainingKeepsOrder(results[..i] + [best], results[i + 1..], best.id);
    RemainingKeepsOrder(results[..i], [best], best.id);
    assert Remaining([best], best.id) == [] by {
      assert [best][..0] == [];
    }
    RemainingMembers(results, best.id);
  }

  // ---------------- location selectors ----------------

  /** MODE_FILE_MAP. */
  const ModeFileMap: map<string, string> :=
    map["train" := "trains", "flight" := "flights", "bus" := "buses", "taxi" := "taxis", "bike" := "bikes"]

  /** The dataset key for a mode: the map's entry, else the mode with "s". */
  function ModeFileKey(mode: string): string {
    if mode in ModeFileMap then ModeFileMap[mode] else mode + "s"
  }

  /** The plural fallback would give the same key as the map for every
      mapped mode except "bus". */
  lemma FallbackAgreesExceptBus(mode: string)
    requires mode in ModeFileMap
    ensures ModeFileKey(mode) == mode + "s" <==> mode != "bus"
    ensures ModeFileKey("bus") == "buses" && "bus" + "s" != "buses"
  {
    assert ("bus" + "s")[3] == 's';
  }

  /** One record of a loaded dataset file. */
  datatype Place = Place(origin: string, destination: string)

  /** transportMeta[key] || []. */
  function Dataset(meta: map<string, seq<Place>>, mode: string): seq<Place> {
    var key := ModeFileKey(mode);
    if key in meta then meta[key] else []
  }

  function Origins(places: seq<Place>): (r: seq<string>)
    ensures |r| == |places| && forall i :: 0 <= i < |places| ==> r[i] == places[i].origin
  {
    seq(|places|, i requires 0 <= i < |places| => places[i].origin)
  }

  function Destinations(places: seq<Place>): (r: seq<string>)
    ensures |r| == |places| && forall i :: 0 <= i < |places| ==> r[i] == places[i].destination
  {
    seq(|places|, i requires 0 <= i < |places| => places[i].destination)
  }

  /** JavaScript's default sort order on strings: code unit by code unit,
      a proper prefix first. */
  predicate LexLess(a: string, b: string)
    decreases |a|
  {
    if a == [] then b != []
    else b != [] && (a[0] < b[0] || (a[0] == b[0] && LexLess(a[1..], b[1..])))
  }

  lemma {:induction false} LexIrreflexive(a: string)
    ensures !LexLess(a, a)
    decreases |a|
  {
    if a != [] {
      LexIrreflexive(a[1..]);
    }
  }

  lemma {:induction false} LexTransitive(a: string, b: string, c: string)
    requires LexLess(a, b) && LexLess(b, c)
    ensures LexLess(a, c)
    decreases |a|
  {
    if a != [] && a[0] == b[0] && b[0] == c[0] {
      LexTransitive(a[1..], b[1..], c[1..]);
    }
  }

  lemma {:induction false} LexTotal(a: string, b: string)
    requires a != b
    ensures LexLess(a, b) || LexLess(b, a)
    decreases |a|
  {
    if a != [] && b != [] && a[0] == b[0] {
      assert a[1..] != b[1..] by {
        assert a == [a[0]] + a[1..] && b == [b[0]] + b[1..];
      }
      LexTotal(a[1..], b[1..]);
    }
  }

  predicate StrictlySorted(s: seq<string>) {
    forall i, j :: 0 <= i < j < |s| ==> LexLess(s[i], s[j])
  }

  /** Adds x to a strictly sorted list unless it is there already. */
  function InsertOrdered(x: string, s: seq<string>): (r: seq<string>)
    requires StrictlySorted(s)
    ensures StrictlySorted(r)
    ensures forall v :: v in r <==> v == x || v in s
  {
    if s == [] then [x]
    else if x == s[0] then s
    else if LexLess(x, s[0]) then
      forall j | 0 < j < |s| ensures LexLess(x, s[j]) {
        LexTransitive(x, s[0], s[j]);
      }
      [x] + s
    else
      LexTotal(x, s[0]);
      var t := InsertOrdered(x, s[1..]);
      assert forall v :: v in t ==> LexLess(s[0], v) by {
        forall v | v in t ensures LexLess(s[0], v) {
          if v != x {
            var j :| 0 <= j < |s[1..]| && s[1..][j] == v;
            assert s[j + 1] == v;
          }
        }
      }
      var r := [s[0]] + t;
      assert forall i, j :: 0 <= i < j < |r| ==> LexLess(r[i], r[j]) by {
        forall i, j | 0 <= i < j < |r| ensures LexLess(r[i], r[j]) {
          if i == 0 {
            assert r[j] == t[j - 1] && r[j] in t;
          } else {
            assert r[i] == t[i - 1] && r[j] == t[j - 1];
          }
        }
      }
      r
  }

  /** [...new Set(values)].sort(): every value once, in ascending order. */
  function DistinctSorted(values: seq<string>): (r: seq<string>)
    ensures StrictlySorted(r)
    ensures forall v :: v in r <==> v in values
  {
    if values == [] then []
    else
      var init := values[..|values| - 1];
      var x := values[|values| - 1];
      assert values == init + [x];
      InsertOrdered(x, DistinctSorted(init))
  }

  /** A strictly sorted list is fixed by its set of values, so whichever
      order the sort meets the values in, the option list is the same. */
  lemma {:induction false} StrictlySortedUnique(a: seq<string>, b: seq<string>)
    requires StrictlySorted(a) && StrictlySorted(b)
    requires forall v :: v in a <==> v in b
    ensures a == b
    decreases |a|
  {
    assert a != [] ==> a[0] in b;
    assert b != [] ==> b[0] in a;
    if a != [] {
      assert a[0] == b[0] by {
        if a[0] != b[0] {
          assert a[0] in a && b[0] in b;
          var i :| 0 <= i < |b| && b[i] == a[0];
          var j :| 0 <= j < |a| && a[j] == b[0];
          assert LexLess(b[0], a[0]) by {
            assert i > 0;
          }
          assert LexLess(a[0], b[0]) by {
            assert j > 0;
          }
          LexTransitive(a[0], b[0], a[0]);
          LexIrreflexive(a[0]);
        }
      }
      forall v ensures v in a[1..] <==> v in b[1..] {
        NotHeadOfSorted(a, v);
        NotHeadOfSorted(b, v);
      }
      StrictlySortedUnique(a[1..], b[1..]);
      assert a == [a[0]] + a[1..] && b == [b[0]] + b[1..];
    }
  }

  /** In a strictly sorted list, the tail holds every value but the head. */
  lemma NotHeadOfSorted(s: seq<string>, v: string)
    requires StrictlySorted(s) && s != []
    ensures v in s[1..] <==> v in s && v != s[0]
  {
    if v in s[1..] {
      var j :| 0 <= j < |s[1..]| && s[1..][j] == v;
      assert LexLess(s[0], s[j + 1]);
      if v == s[0] {
        LexIrreflexive(v);
      }
    }
    if v in s && v != s[0] {
      var j :| 0 <= j < |s| && s[j] == v;
      assert s[1..][j - 1] == v;
    }
  }

  /** The origin and destination selectors of one panel. */
  class LocationSelectors {
    var origins: seq<string>
    var destinations: seq<string>
    var disabled: bool
    /** Both selectors show the "-- Select Mode First --" prompt. */
    var placeholder: bool

    constructor()
      ensures origins == [] && destinations == [] && !disabled && !placeholder
    {
      origins := [];
      destinations := [];
      disabled := false;
      placeholder := false;
    }

    /** Appends one option per value, as the forEach with += does. */
    method FillOrigins(values: seq<string>)
      modifies this
      ensures origins == old(origins) + values
      ensures destinations == old(destinations) && disabled == old(disabled) && placeholder == old(placeholder)
    {
      for i := 0 to |values|
        invariant origins == old(origins) + values[..i]
        invariant destinations == old(destinations) && disabled == old(disabled) && placeholder == old(placeholder)
      {
        assert values[..i + 1] == values[..i] + [values[i]];
        origins := origins + [values[i]];
      }
      assert values[..|values|] == values;
    }

    method FillDestinations(values: seq<string>)
      modifies this
      ensures destinations == old(destinations) + values
      ensures origins == old(origins) && disabled == old(disabled) && placeholder == old(placeholder)
    {
      for i := 0 to |values|
        invariant destinations == old(destinations) + values[..i]
        invariant origins == old(origins) && disabled == old(disabled) && placeholder == old(placeholder)
      {
        assert values[..i + 1] == values[..i] + [values[i]];
        destinations := destinations + [values[i]];
      }
      assert values[..|values|] == values;
    }

    /** updateLocations (search panel): no mode disables both selectors and
      shows the prompt; a mode enables them and lists the places of its
      dataset, each once, in order. */
    method UpdateLocations(mode: string, meta: map<string, seq<Place>>)
      modifies this
      ensures mode == "" ==> origins == [] && destinations == [] && disabled && placeholder
      ensures mode != "" ==>
        && !disabled && !placeholder
        && origins == DistinctSorted(Origins(Dataset(meta, mode)))
        && destinations == DistinctSorted(Destinations(Dataset(meta, mode)))
    {
      origins := [];
      destinations := [];
      if mode == "" {
        disabled := true;
        placeholder := true;
        return;
      }
      var dataset := Dataset(meta, mode);
      var os := DistinctSorted(Origins(dataset));
      var ds := DistinctSorted(Destinations(dataset));
      disabled := false;
      placeholder := false;
      FillOrigins(os);
      FillDestinations(ds);
    }

    /** updateCompareLocations (comparison panel): the same lists; clearing
      the selectors removes any prompt, and nothing is enabled or disabled. */
    method UpdateCompareLocations(mode: string, meta: map<string, seq<Place>>)
      modifies this
      ensures origins == DistinctSorted(Origins(Dataset(meta, mode)))
      ensures destinations == DistinctSorted(Destinations(Dataset(meta, mode)))
      ensures !placeholder && disabled == old(disabled)
    {
      origins := [];
      destinations := [];
      placeholder := false;
      var dataset := Dataset(meta, mode);
      FillOrigins(DistinctSorted(Origins(dataset)));
      FillDestinations(DistinctSorted(Destinations(dataset)));
    }
  }

  /** A mode without a dataset lists no places. */
  lemma MissingDatasetListsNothing(meta: map<string, seq<Place>>, mode: string)
    requires ModeFileKey(mode) !in meta
    ensures DistinctSorted(Origins(Dataset(meta, mode))) == []
    ensures DistinctSorted(Destinations(Dataset(meta, mode))) == []
  {
  }

  // ---------------- chat ----------------

  /** The text sendMessage posts: the trimmed input, or nothing when the
      input is blank. */
  function OutgoingMessage(input: string): (r: Option<string>)
    ensures r.None? <==> AllSpace(input, JsIsSpace)
    ensures r.Some? ==> r.value != [] && !JsIsSpace(r.value[0]) && !JsIsSpace(r.value[|r.value| - 1])
  {
    var msg := JsTrim(input);
    if msg == "" then None else Some(msg)
  }

  /** A message as sent is sent unchanged when typed again. */
  lemma OutgoingMessageStable(input: string)
    requires OutgoingMessage(input).Some?
    ensures OutgoingMessage(OutgoingMessage(input).value) == OutgoingMessage(input)
  {
    StripIdempotent(input, JsIsSpace);
  }

  datatype ChatLine = UserLine(text: string) | BotLine(text: string) | ConnectionIssue

  /** The chat box: its input field, its lines and the typing indicator. */
  class ChatWidget {
    var input: string
    var lines: seq<ChatLine>
    var typing: bool

    constructor()
      ensures input == "" && lines == [] && !typing
    {
      input := "";
      lines := [];
      typing := false;
    }

    /** sendMessage up to the request: a blank input changes nothing; any
      other input is shown as the user's line, cleared, and its trimmed
      text is what is posted. */
    method SendMessage() returns (posted: Option<string>)
      modifies this
      ensures posted == OutgoingMessage(old(input))
      ensures posted.None? ==> input == old(input) && lines == old(lines) && typing == old(typing)
      ensures posted.Some? ==> input == "" && lines == old(lines) + [UserLine(posted.value)] && typing
    {
      posted := OutgoingMessage(input);
      if posted.None? {
        return;
      }
      lines := lines + [UserLine(posted.value)];
      input := "";
      typing := true;
    }

    /** The server's answer, or the connection-issue line when the request
      failed; either way the typing indicator goes away. */
    method ReceiveReply(reply: Option<string>)
      modifies this
      ensures lines == old(lines) + [if reply.Some? then BotLine(reply.value) else ConnectionIssue]
      ensures input == old(input) && !typing
    {
      typing := false;
      if reply.Some? {
        lines := lines + [BotLine(reply.value)];
      } else {
        lines := lines + [ConnectionIssue];
      }
    }
  }
}
