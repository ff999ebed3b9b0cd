/** The records the Python helpers pass around as dictionaries: a row of the
    transports table and a simulated website offer. A key that may be missing
    from the dictionary is an Option (None when the key is absent). Prices are
    whole paise (1/100 rupee), ratings tenths of a star. */
module Rows {
  import opened Strings

  datatype Route = Route(
    id: string,
    name: string,
    mode: Option<string>,
    origin: string,
    destination: string,
    price: Option<int>,
    durationMins: Option<int>,
    seats: Option<int>,
    rating: Option<int>)

  /** A website's listing for one route: site, list price, discount percent,
      final price and the label of its booking button. */
  datatype Offer = Offer(site: string, listPrice: int, discount: int, finalPrice: int, ctaText: string)

  function FinalPrice(o: Offer): int { o.finalPrice }

  function SiteOf(o: Offer): string { o.site }

  function Sites(offers: seq<Offer>): (r: seq<string>)
    ensures |r| == |offers| && forall i :: 0 <= i < |offers| ==> r[i] == offers[i].site
  {
    seq(|offers|, i requires 0 <= i < |offers| => offers[i].site)
  }
}
