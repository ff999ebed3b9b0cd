# Smart Transportation Ticketing Assistant — a Dafny model of its decision logic

The Smart Transportation Ticketing Assistant is a Flask web application for
searching transport routes (train, bus, flight, taxi, bike taxi), comparing
simulated offers from booking websites, booking a ticket in the browser and
chatting with a keyword-driven travel assistant. This project models the
parts of it that decide things, and proves what those decisions promise:

- `rows.dfy`: the records passed around as dictionaries. These are a row of
  the `transports` table and a website offer. Prices are whole paise and
  ratings are tenths of a star; a missing dictionary key is `None`.
- `strings.dfy`: the Python and JavaScript string operations the rules rely
  on: `lower`/`upper`/`title` (ASCII), `strip`/`trim` with each language's
  whitespace set, `in`, `split(sep, 1)`, `split()` and slicing.
- `sorting.dfy`: one stable insertion sort, ascending or descending on an
  integer key, standing for Python's `list.sort`/`sorted` and the keyed
  sorts of the code. It is proved to return a sorted permutation that keeps
  the input order of equal keys, with the first best element at its head.
- `recommender.dfy` (`ai/recommender.py`):
  - the `USER_CONTEXT` update;
  - the heuristic ranking: defaults, budget filter, scored copies and a
    stable descending sort;
  - the simulated website offers and the best offer.
- `rag.dfy` (`ai/rag_engine.py`): keyword scoring of knowledge-base
  documents and top-k retrieval over documents already in memory.
- `agent.dfy` (`ai/agent_engine.py`): the chatbot's fixed-priority intent
  dispatcher and its `USER_MEMORY`. It is written twice:
  - as the function `Respond`;
  - as the class `Assistant`, whose method is proved equal to it.
- `transport.dfy` (`routes/transport.py`): the WHERE clauses and parameters that
  `/search` and `/compare_websites` build, and the responses they assemble.
  The database is a function from query and parameters to rows.
- `client.dfy` (`static/script.js`):
  - mode labels;
  - the best search result and the remaining ones;
  - the origin and destination selectors;
  - the chat input guard.
- `booking.dfy` (`static/script.js`): the booking flow. `currentBooking` and
  the visibility of each modal are fields of a class, from `fakeBook` to
  `closeTicketReceipt`.

## Model

| member | source | states |
|---|---|---|
| Sorting.Sort | ai/recommender.py:90 | the result is a permutation of the input, of the same length, ordered by the key in the requested direction |
| Sorting.SortStable | ai/recommender.py:90 | sorting keeps, for every key value, the elements with that key in their input order (Python's sort is stable, also with reverse=True) |
| Sorting.WithKeyPrefix | ai/rag_engine.py:37 | cutting a list to a prefix keeps, of each key value, the first elements with that key, in order |
| Sorting.SortHead | ai/recommender.py:135 | the head of the sorted list is the first element of best key in the input |
| Strings.Strip | ai/agent_engine.py:37 | strip removes exactly the surrounding whitespace: the result is empty iff the input is all whitespace, has no whitespace at either end, and is the input itself when that has none |
| Strings.SplitOnce | ai/agent_engine.py:85-86 | split(sep, 1) is unsplit iff sep does not occur; otherwise the parts rejoin to the input around the first occurrence |
| Strings.WordsEmptyIff | ai/rag_engine.py:20 | str.split() gives no words exactly when the text is all whitespace |
| Strings.WordsHead | ai/agent_engine.py:60 | the first word of str.split() is the first maximal run of non-whitespace characters after the leading whitespace |
| Strings.SplitOnceAt | ai/agent_engine.py:58 | when sep occurs after a prefix and nowhere earlier, split(sep, 1) gives exactly that prefix and the remainder |
| Strings.Title | ai/agent_engine.py:147 | str.title() keeps the length and maps each character on its own: uncased characters stay, a cased one is upper-cased after an uncased character (or at the start) and lower-cased after a cased one |
| Strings.ReplaceChar | ai/agent_engine.py:147 | the replacement puts the new character exactly where the old one was and leaves every other character alone |
| Recommender.UserContext.StoreHistoryEntry | ai/recommender.py:28-45 | the last origin, destination and mode become the arguments, exactly one entry is appended to the history, the budget is untouched |
| Recommender.OrDefault | ai/recommender.py:60-63 | `x or d`: the default for a missing or zero value, the value itself otherwise |
| Recommender.Defaults | ai/recommender.py:60-63 | missing or zero price, duration, seats and rating become 0, 60 minutes, 1 seat and 4.0 stars; present non-zero values are kept |
| Recommender.RawScore | ai/recommender.py:68-84 | defined by its body, the five scoring formulas on the defaulted values; its properties are the rows PriceLowerIsBetter to UnknownPriorityIsRating |
| Recommender.Score | ai/recommender.py:60-87 | defined by its body, the rounded raw score of the defaulted option; its properties are the rows Round3 and PriceLowerIsBetter to UnknownPriorityIsRating |
| Recommender.Round3 | ai/recommender.py:87 | the stored score is the raw score in thousandths, rounded to the nearest |
| Recommender.PriceLowerIsBetter | ai/recommender.py:69-70 | under priority "price", of two options alike but for price, the cheaper one scores strictly higher |
| Recommender.PriceMoreSeatsIsBetter | ai/recommender.py:69-70 | under priority "price", more available seats score strictly higher at equal price and rating |
| Recommender.TimeShorterIsBetter | ai/recommender.py:71-72 | under priority "time", the shorter journey scores strictly higher at equal rating |
| Recommender.ComfortHigherRatingIsBetter | ai/recommender.py:73-74 | under priority "comfort", the better rated option scores strictly higher at equal seats |
| Recommender.EcoPrefersRail | ai/recommender.py:75-82 | under priority "eco", at the same price and rating train and bus score the same and above every other mode, and flight below every mode but those |
| Recommender.UnknownPriorityIsRating | ai/recommender.py:83-84 | any other priority scores ten times the rating and never divides |
| Recommender.Candidates | ai/recommender.py:58-88 | membership: a scored copy is an option within the budget with its own score, every option within the budget has its scored copy, and there are never more copies than options |
| Recommender.CandidatesAppend | ai/recommender.py:58-88 | the scored copies of a concatenation are those of each part in turn, so the copies keep the options' order |
| Recommender.CandidatesSingle | ai/recommender.py:65-88 | a single option gives exactly one scored copy, with its own score, when it is within the budget, and none otherwise; with CandidatesAppend this fixes one copy per kept option |
| Recommender.RecommendTransportOptions | ai/recommender.py:48-91 | the loop yields the budget-filtered scored copies, sorted highest score first |
| Recommender.RecommendationProperties | ai/recommender.py:65-90 | nothing over the budget is returned, every option within it is, scores are non-increasing, equal scores keep input order, and no more options come out than went in |
| Recommender.Providers | ai/recommender.py:107-109 | the providers of a known mode, otherwise the three default sites; three or four of them either way |
| Recommender.EffectiveBasePrice | ai/recommender.py:108-114 | the base price is always positive: the route's own price when that is positive, and exactly the fallback of 500 rupees when the price is missing, zero or negative |
| Recommender.MakeOffer | ai/recommender.py:117-127 | an offer names its site, uses the drawn discount from {0, 5, 10, 15}, labels its button "Book on <site>"; its list price is the base varied by the drawn percentage (so within -15% and +25% of the base) and its final price is the list price less the discount, each to the nearest paisa, between 0 and the list price |
| Recommender.RawOffers | ai/recommender.py:116-127 | one offer per selected provider, in provider order, the i-th made from the i-th draw |
| Recommender.WebsiteOffers | ai/recommender.py:103-129 | defined by its body, the raw offers of the first max_sites providers sorted by final price; its properties are the rows SimulateWebsiteOffers and WebsiteOffersProperties |
| Recommender.SimulateWebsiteOffers | ai/recommender.py:103-129 | the loop produces the offers of the first max_sites providers, sorted by final price |
| Recommender.WebsiteOffersProperties | ai/recommender.py:107-128 | min(max_sites, #providers) offers whose sites are exactly the selected providers, each well priced with an allowed discount, in ascending final price |
| Recommender.BestWebsiteOffer | ai/recommender.py:132-135 | nothing for no offers; otherwise an offer of the list with the lowest final price, and the first such |
| Rag.CountContained | ai/rag_engine.py:22-25 | the count never exceeds the number of words |
| Rag.ScoreDoc | ai/rag_engine.py:19-26 | the loop counts the lower-cased question words, with repetition, that occur in the lower-cased title, space and content |
| Rag.CountExtremes | ai/rag_engine.py:23-25 | the score equals the number of words exactly when every word occurs, and is zero exactly when none does |
| Rag.BlankQuestionScoresZero | ai/rag_engine.py:20-26 | an empty or all-whitespace question scores zero on every document |
| Rag.ScoreIgnoresQuestionCase | ai/rag_engine.py:20 | lower-casing the question first does not change the score |
| Rag.Hits | ai/rag_engine.py:32-35 | the passages are those of exactly the documents that score above zero, with that title and score |
| Rag.HitsAppend | ai/rag_engine.py:32-35 | the hits of a concatenation are those of each part in turn, so passages come in document order |
| Rag.HitsSingle | ai/rag_engine.py:33-35 | a single document gives exactly its one passage when it scores above zero, and nothing otherwise |
| Rag.Retrieved | ai/rag_engine.py:29-37 | defined by its body, the hits sorted by score, highest first, cut to top_k; its properties are the rows RetrieveContext, RetrievedProperties and RetrievedCut |
| Rag.RetrieveContext | ai/rag_engine.py:29-37 | the loop keeps the positive-scoring documents, sorts them and cuts the list to top_k |
| Rag.RetrievedProperties | ai/rag_engine.py:33-37 | at most top_k passages (for top_k ≥ 0), each from a matching document with its title and first 400 characters, best score first, and every matching document present when top_k covers them all |
| Rag.RetrievedCut | ai/rag_engine.py:36-37 | the passages are the first ones of the hits sorted by score, min(top_k, hits) of them for top_k ≥ 0; no hit cut off scores above one kept; the stable sort keeps hits of equal score in document order, so of each score the earliest hits are the ones kept |
| Agent.FormatOption | ai/agent_engine.py:14-24 | the card shows the mode upper-cased (its letters unchanged otherwise, empty when missing) and the route's own origin, destination, price, rating and duration |
| Agent.ParseRoute | ai/agent_engine.py:85-91 | a parsed route has a non-empty origin and destination; a message without "from" parses to nothing; which messages parse to what is the rows ParseRouteParts and ParseRouteOf |
| Agent.ParseRouteParts | ai/agent_engine.py:85-88 | the origin is the stripped text between the first "from" and the first "to" after it, the destination the stripped rest |
| Agent.ParseRouteOf | ai/agent_engine.py:85-91 | conversely, a message split at its first "from" and the first "to" after it parses to the two stripped parts, and to nothing exactly when one of them is blank |
| Agent.ParseRouteWithoutTo | ai/agent_engine.py:85-86 | a "from" with no "to" after it parses to nothing, as the failed unpacking falls through |
| Agent.Matches | ai/agent_engine.py:93-98 | a route is kept iff the wanted origin occurs in its lower-cased origin and the wanted destination in its lower-cased destination |
| Agent.MatchesAppend | ai/agent_engine.py:93-98 | the filter keeps the routes' order |
| Agent.PriorityOf | ai/agent_engine.py:110-115 | the priority is "time" exactly when a fast word occurs and no cheap word does, and "price" otherwise |
| Agent.Ranked | ai/agent_engine.py:117 | one scored copy per matching route, ordered by score, highest first, each with its own score under the priority |
| Agent.RouteAnswer | ai/agent_engine.py:82-127 | the route intent answers exactly when the message parses and either no route matches or every match can be scored; otherwise it falls through to the later intents |
| Agent.AnswerFor | ai/agent_engine.py:93-127 | falls through exactly when some route matches and the ranking would divide by zero; an answer is "not found" or the best option, and only the best option changes memory, and only the remembered option, to a matching route |
| Agent.RouteNotFoundExactly | ai/agent_engine.py:100-119 | once parsed, the "not found" reply comes exactly when no route matches, with the memory unchanged; otherwise the best option is shown |
| Agent.BestRouteChosen | ai/agent_engine.py:117-123 | the option shown and remembered is the first matching route of highest score under the message's priority |
| Agent.RouteAnswerInRoutes | ai/agent_engine.py:93-123 | the route intent changes only the remembered option, and only to a route it was given |
| Agent.CheapestRoute | ai/agent_engine.py:133-134 | the cheapest pick is a route of lowest price (a missing price counting as 1e9), and the first such |
| Agent.GuidanceTitle | ai/agent_engine.py:147 | the heading has the stem's length and no underscore; each character is the stem's (an underscore read as a space) title-cased after the stem's previous character, so every word starts upper-case and continues lower-case |
| Agent.EarlyAnswer | ai/agent_engine.py:43-79 | intents 1 to 4 never touch the last query or the remembered option, only the name intent changes the name, a booking confirmation needs a remembered option, and a greeting word always gets a greeting |
| Agent.NameAnswer | ai/agent_engine.py:57-64 | either the memory is unchanged, or the name remembered is the one greeted |
| Agent.NameFrom | ai/agent_engine.py:58-60 | no name exactly when only whitespace follows the first "my name is"; a name found is never empty |
| Agent.NameCapture | ai/agent_engine.py:57-64 | for any message whose first "my name is" is followed by rest: blank rest gives the anonymous greeting with the memory unchanged; otherwise the name greeted and remembered is the first whitespace-delimited word of the stripped rest, title-cased |
| Agent.BotOrBookingAnswer | ai/agent_engine.py:67-79 | the bot-name and booking replies leave the memory unchanged, and the booking reply needs a remembered option |
| Agent.LateAnswer | ai/agent_engine.py:130-173 | intents 6 to 9 change at most the remembered option, and only to one of the given routes when answering "cheapest"; what each of them replies, in their order, is the rows RespondCheapest and RespondAfterCheapest |
| Agent.Dispatch | ai/agent_engine.py:42-173 | the intents in order keep the last query, change the name only when introducing one, remember only a route they were given and show, and answer every greeting word with a greeting |
| Agent.Respond | ai/agent_engine.py:27-173 | an empty message gives the fixed reply with the memory untouched; any other sets the last query to the stripped text, and changes to the name and remembered option follow the rules above |
| Agent.DelhiIsAGreeting | ai/agent_engine.py:43-54 | any message mentioning "delhi" (which contains "hi") is answered with a greeting, with only the last query updated |
| Agent.NameFromFirstWordWhenCapitalised | ai/agent_engine.py:57-62 | "my name is" is detected on the lower-cased text but split off the original one, so "My name is …" stores the message's own first word, title-cased |
| Agent.RespondEarly | ai/agent_engine.py:42-79 | once one of the first four intents applies, its answer is the reply |
| Agent.RespondRoute | ai/agent_engine.py:81-127 | when none of the first four intents applies and the route intent answers, its answer is the reply |
| Agent.RespondCheapest | ai/agent_engine.py:129-139 | after the route intent, a "cheapest" word shows and remembers the first route of lowest price, or gives the fixed no-route-data reply when no routes are loaded |
| Agent.RespondAfterCheapest | ai/agent_engine.py:141-173 | then safety words get the best retrieved passage with its title-cased heading (or the general tips when none matches), then "thank" gets the thanks reply, and anything else the help text; none of these changes the memory beyond the last query |
| Agent.ConfirmationBeforeRoutes | ai/agent_engine.py:71-79 | with an option remembered, a confirmation word confirms it (or fails on a missing mode) before any route parsing, whatever routes and documents are loaded |
| Agent.Assistant.RespondIntelligently | ai/agent_engine.py:27-173 | the reply and the new USER_MEMORY are those of Respond on the old memory |
| Transport.Conditions | routes/transport.py:37-50 | defined by its body, one condition per non-empty field in the order of the three if-statements; its properties are the rows ConditionsExact, PlaceholdersMatchParams and ParamsShape |
| Transport.ConditionsExact | routes/transport.py:40-50 | a condition for exactly the non-empty fields, each once, carrying that field's value, in the order origin, destination, mode |
| Transport.BuildQuery | routes/transport.py:37-50 | the query and parameter list grown by the statements are those of the field conditions |
| Transport.PlaceholdersMatchParams | routes/transport.py:37-50 | the query has exactly as many `?` placeholders as there are parameters |
| Transport.QueryStartsWithBase | routes/transport.py:37 | every query begins with the unconditional `SELECT * FROM transports WHERE 1=1` |
| Transport.ParamsShape | routes/transport.py:40-50 | each parameter is `%x%` for its place or the mode itself, in clause order |
| Transport.BlankFieldsDiffer | routes/transport.py:32-34 | a blank origin filters nothing in /search (stripped) but stays a filter in /compare_websites (not stripped) |
| Transport.SearchConditions | routes/transport.py:32-34 | defined by its body, the conditions of the stripped, lower-cased fields, a missing key read as ""; its properties are the rows BlankFieldsDiffer and Search |
| Transport.CompareConditions | routes/transport.py:81-83 | defined by its body, the conditions of the lower-cased fields, not stripped; its properties are the rows BlankFieldsDiffer and CompareWebsites |
| Transport.Search | routes/transport.py:29-55 | the results are what the database returns for the stripped, lower-cased conditions, and the count is their number |
| Transport.WithMode | routes/transport.py:106 | a row keeps its own mode and gets the request's mode when it has none |
| Transport.MatchFor | routes/transport.py:105-114 | a match is the row with its mode filled in, its simulated offers and the best of those |
| Transport.CompareWebsites | routes/transport.py:76-116 | one match per row the database returns for the lower-cased conditions, in row order, and the count is their number |
| Transport.MatchKeepsRow | routes/transport.py:106 | a match's transport is the row itself apart from a mode filled in only when missing |
| Transport.MatchOffersSorted | routes/transport.py:107 | a match lists at most four offers, cheapest first |
| Transport.BestOfSorted | routes/transport.py:108 | the best offer is the head of the sorted offers, and nothing (the empty dictionary) exactly when there are none |
| Client.FormatMode | static/script.js:10-16 | "" for a missing or empty mode, "Bike Taxi" and "Cab / Taxi" for bike and taxi in any case, otherwise the lower-cased mode with its first letter upper-cased |
| Client.FormatModeIgnoresCase | static/script.js:12 | the label does not depend on the case of the mode |
| Client.BestChoice | static/script.js:50-56 | the choice is a result; with a numeric first price it is a result of lowest price and the earliest one (strict `<`); with a NaN first price the first result stays |
| Client.Remaining | static/script.js:71-72 | never more results remain than were listed; which ones, and in what order, is the rows RemainingMembers, RemainingKeepsOrder and BestIsHidden |
| Client.RemainingMembers | static/script.js:71-72 | the remaining results are exactly those whose id differs from the best one's |
| Client.RemainingKeepsOrder | static/script.js:71-72 | the remaining results keep their order |
| Client.BestIsHidden | static/script.js:72 | the best choice is never listed again, so fewer results remain |
| Client.ModeFileKey | static/script.js:545 | defined by its body, the mode map's entry or else the mode with "s"; its property is the row FallbackAgreesExceptBus |
| Client.FallbackAgreesExceptBus | static/script.js:502-508 | the plural fallback agrees with the mode map for every mapped mode except "bus" |
| Client.Dataset | static/script.js:545-546 | defined by its body, the loaded dataset under the mode's key or else none; its properties are the rows MissingDatasetListsNothing and UpdateLocations |
| Client.DistinctSorted | static/script.js:548-549 | the option list is strictly ascending and holds exactly the dataset's values |
| Client.StrictlySortedUnique | static/script.js:548-549 | two strictly ascending lists with the same values are equal, so the option list is determined by the set of values alone |
| Client.MissingDatasetListsNothing | static/script.js:546 | a mode without a loaded dataset lists no places |
| Client.LocationSelectors.UpdateLocations | static/script.js:529-556 | no mode disables both selectors with the prompt; a mode enables them and lists its dataset's origins and destinations, each once, ascending |
| Client.LocationSelectors.UpdateCompareLocations | static/script.js:559-578 | the comparison selectors are emptied and list the dataset's origins and destinations, each once, ascending, with no prompt left; enabling is untouched |
| Client.OutgoingMessage | static/script.js:470-471 | nothing is sent exactly when the input is blank; otherwise the text sent is non-empty and has no surrounding whitespace |
| Client.OutgoingMessageStable | static/script.js:470 | a message as sent would be sent unchanged if typed again |
| Client.ChatWidget.SendMessage | static/script.js:468-478 | a blank input changes nothing; other input is shown as the user's line, cleared, and its trimmed text is posted while the typing indicator shows |
| Client.ChatWidget.ReceiveReply | static/script.js:486-494 | the reply, or the connection-issue line on failure, is appended and the typing indicator goes away |
| Booking.CheckTraveler | static/script.js:220-233 | no booking gives the "no booking" alert, an empty field or a count below one the "fill all details" alert, and otherwise the booking takes the count and the three details |
| Booking.AcceptedDetailsTrimmed | static/script.js:215-228 | details are accepted exactly when there is a booking, no field is blank and the count is at least one; the stored details carry no surrounding whitespace |
| Booking.SummaryOf | static/script.js:237-246 | defined by its body, the passenger name, travellers, contact and price × count of the payment summary; its property is the row ReceiptAgreesWithSummary |
| Booking.ReceiptOf | static/script.js:321-329 | defined by its body, the receipt fields with missing details as empty text and a count of 0 shown as 1; its property is the row ReceiptAgreesWithSummary |
| Booking.ReceiptAgreesWithSummary | static/script.js:321-329 | for a valid booking the receipt's travellers, total, passenger and email are those of the payment summary, the total being price × count |
| Booking.OverlayFor | static/script.js:261-289 | the scanner exactly for UPI, otherwise the steps for that method, showing price × count and the transport id |
| Booking.BookingFlow.FakeBook | static/script.js:186-207 | any booking is replaced by one for this offer with one traveller and no details, and the details modal opens |
| Booking.BookingFlow.CloseTravelerModal | static/script.js:209-212 | only the details modal closes |
| Booking.BookingFlow.ConfirmTravelerDetails | static/script.js:214-251 | a refusal adds its alert and changes nothing else; an accepted booking takes the trimmed details, the details modal closes, the summary is filled and the payment modal opens |
| Booking.BookingFlow.ClosePaymentModal | static/script.js:255-258 | only the payment modal closes |
| Booking.BookingFlow.ConfirmPayment | static/script.js:358-380 | the payment modal closes; with a booking, the overlay for the method (UPI when no selector) opens and the transport id is posted |
| Booking.BookingFlow.CloseProcessingOverlay | static/script.js:292-301 | the overlay closes and the success modal opens only while a booking exists |
| Booking.BookingFlow.CloseSuccessModal | static/script.js:304-345 | the success modal closes; with a booking the receipt is filled from it, with its count and price × count, and shown |
| Booking.BookingFlow.CloseTicketReceipt | static/script.js:347-356 | the receipt is hidden and the booking is always forgotten |

## Left out

- The page itself: HTML templates, `innerHTML` text, `classList` toggles beyond one visibility flag per modal, Chart.js analytics, the PDF download, the country-code selector, click-outside listeners, booking history and the admin forms.
- Network and timers: `fetch` (the request and its parsed JSON reply are inputs and outputs), the `setTimeout` delays of the processing overlay (the method, amount and name its steps show are modelled, not when each step appears), `loadBookingHistory` after payment, `console` logging and `new Date()`.
- Booking.ReceiptOf: the route and time fields of the receipt come from the page's selectors and the clock, and are not modelled.
- Booking.BookingFlow.FakeBook: the nested inner `fakeBook` declared inside `fakeBook` is never called, and is not modelled.
- Booking.AcceptedDetailsTrimmed: the traveller count is a whole number or an empty field (read as 1). A non-numeric or fractional entry, where `Number` gives NaN or a fraction, is not modelled.
- Client.BestChoice: `Number(price)` is a whole number of paise or NaN (`None`); fractional prices and `Number(null) == 0` are not distinguished.
- Client.DistinctSorted: JavaScript sorts strings by UTF-16 code units, the model by Unicode code points; the two differ only for characters outside the Basic Multilingual Plane.
- Flask, sqlite and the file system: `get_db`, teardown and `db.execute` (the database is a function parameter), the database insert in `store_history_entry` (its failure is swallowed, so the in-memory update is the whole effect), and `load_kb_files` (the documents are an input). The meaning of SQL `LIKE` is not modelled, including `%` and `_` in user input acting as wildcards; neither are SQL `NULL` values.
- Transport.Search: a JSON `null` field, on which Python's `.strip()` raises, is not modelled; an absent key is.
- Transport.CompareWebsites: likewise a JSON `null` field, on which `.lower()` raises (routes/transport.py:81-83), is not modelled; an absent key is.
- Booking.BookingFlow.ConfirmPayment: `showProcessingOverlay` returns early when the overlay or its content element is missing from the page (static/script.js:264); the model assumes the page has them.
- Client.LocationSelectors.UpdateCompareLocations: the early return when the comparison mode selector is missing from the page (static/script.js:561) is not modelled; the page is assumed to have it.
- Randomness: `random.uniform` and `random.choice` are inputs, one draw per site (`Draw`): a variation between -15% and +25% in hundredths of a percent, and an index into the four discounts.
- Floating point: the heuristic score is computed in exact rational arithmetic rather than binary floating point. This is a concrete score, not an abstract one, so the ranking claims can be stated on the source's own formulas.
- Recommender.Round3: `round(score, 3)` rounds halves up here, where Python rounds halves to even on the float's binary value.
- Recommender.MakeOffer: list and final prices are rounded to the nearest paisa with halves up; Python's `round(…, 2)` on floats may differ by a paisa.
- `toFixed(2)`: totals are exact paise, not formatted text.
- Exceptions: these are modelled as the paths they take.
  - Python's `ZeroDivisionError` (a price of -1 rupee or a duration of -1 minute) appears as the route intent falling through to the later intents, as the `except` does. Callers of the ranking itself must exclude it (`AllScorable`).
  - `KeyError` on a remembered option without a mode is the reply `BookingKeyError`.
  - The `ValueError` of a bad "from … to" parse also falls through.
- Agent.BestRouteChosen: the chatbot's ranking call is the modelled `recommend_transport_options`, not an abstract function.
- Agent.FormatOption: the reply wording is not modelled; a card holds the values it shows (`None`/`N/A` printing is not distinguished).
- Agent.GuidanceTitle: `str.title()` and all case mapping are ASCII-only; Python's Unicode case rules are not modelled.
- The `budget` entry of `USER_CONTEXT` is never written by the code, and the model keeps it unchanged.
