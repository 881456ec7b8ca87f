/**
 * `calculate-shipping`: validate the ZIP, resolve a US state from the
 * geocoding outcome (California unless an OK reply names one), look up that
 * state's zone row and quote shipping, collection and their sum. Every
 * geocoding and database failure falls back rather than failing the request;
 * only an invalid ZIP is an error.
 */
module Shipping {
  import opened Wrappers
  import opened Text
  import opened Numbers
  import opened Zip
  import opened Geocoding

  const DefaultState := "CA"
  const StateType := "administrative_area_level_1"
  const DefaultCost := 75.0

  /**
   * The component the state is read from: the first component of type
   * `administrative_area_level_1` in the first result of an OK reply. A first
   * result without `address_components` makes `find` throw inside the guarded
   * block, which also leaves the default in place.
   */
  function StateComponent(g: Geocode): (r: Option<Component>)
    ensures r.Some? ==> Usable(g) && FirstResult(g).address_components.Some?
    ensures r.Some? ==> var cs := FirstResult(g).address_components.value;
      exists k :: FindFirst(cs, StateType) == Some(k) && r.value == cs[k]
    ensures r.None? <==>
      (|| !Usable(g)
       || FirstResult(g).address_components.None?
       || forall j :: 0 <= j < |FirstResult(g).address_components.value| ==>
            StateType !in FirstResult(g).address_components.value[j].types)
  {
    if Usable(g) && FirstResult(g).address_components.Some? then
      var cs := FirstResult(g).address_components.value;
      match FindFirst(cs, StateType)
      case None => None
      case Some(k) => Some(cs[k])
    else None
  }

  /** The state the quote is for. */
  function ExpectedState(g: Geocode): string
  {
    match StateComponent(g)
    case None => DefaultState
    case Some(c) => c.short_name
  }

  /** The `let state = 'CA'` block: the default is overwritten only by the short name of a found state component. */
  method ResolveState(g: Geocode) returns (state: string)
    ensures StateComponent(g).None? ==> state == DefaultState
    ensures StateComponent(g).Some? ==> state == StateComponent(g).value.short_name
    ensures g.NoApiKey? || g.Threw? || (g.Replied? && g.status != OkStatus) ==> state == DefaultState
  {
    state := DefaultState;
    match g {
      case NoApiKey =>
      case Threw =>
      case Replied(status, results) =>
        if status == RateLimited {
        } else if status == OkStatus && results.Some? && |results.value| > 0 {
          var components := results.value[0].address_components;
          if components.Some? {
            var found := FindFirst(components.value, StateType);
            if found.Some? {
              state := components.value[found.value].short_name;
            }
          }
        }
    }
  }

  /** A `shipping_zones` row; `zone_name` may be absent (the table has no such column). */
  datatype ZoneRow = ZoneRow(zone_name: Option<string>, shipping_cost: real, collection_cost: real)

  /** The JSON body of a successful quote. */
  datatype Quote = Quote(zone_name: string, shipping_cost: real, collection_cost: real, total_shipping: string)

  /**
   * The quote for `state` given the zone lookup's outcome (`None` for no row or
   * any database error): the row's costs, or 75.00 and 75.00; the row's zone
   * name if non-empty, else "<state> Zone"; and the total shown to two decimals.
   */
  function QuoteFor(state: string, row: Option<ZoneRow>): (q: Quote)
    ensures row.None? ==> q.shipping_cost == DefaultCost && q.collection_cost == DefaultCost
    ensures row.Some? ==> q.shipping_cost == row.value.shipping_cost && q.collection_cost == row.value.collection_cost
    ensures row.Some? && row.value.zone_name.Some? && row.value.zone_name.value != "" ==>
      q.zone_name == row.value.zone_name.value
    ensures row.None? || row.value.zone_name.None? || row.value.zone_name.value == "" ==>
      q.zone_name == state + " Zone"
  {
    var shipping := if row.Some? then row.value else ZoneRow(Some(state + " Zone"), DefaultCost, DefaultCost);
    var name := if shipping.zone_name.Some? && shipping.zone_name.value != "" then shipping.zone_name.value
                else state + " Zone";
    var total := shipping.shipping_cost + shipping.collection_cost;
    Quote(name, shipping.shipping_cost, shipping.collection_cost, ToFixed2(Finite(total)))
  }

  /** `total_shipping` is the sum of the quote's two costs, shown to two decimals. */
  lemma QuoteShowsTotal(state: string, row: Option<ZoneRow>)
    ensures var q := QuoteFor(state, row); q.total_shipping == ToFixed2(Finite(q.shipping_cost + q.collection_cost))
  {
  }

  /** `total_shipping` reads back as the sum of the two costs, rounded to the cent. */
  lemma TotalReadsBack(state: string, row: Option<ZoneRow>)
    ensures var q := QuoteFor(state, row);
      ParseFloat(q.total_shipping) == Finite(RoundToCents(q.shipping_cost + q.collection_cost))
  {
    var q := QuoteFor(state, row);
    ToFixed2ParsesBack(q.shipping_cost + q.collection_cost);
  }

  /** Costs in whole cents give a total that reads back as their exact sum. */
  lemma TotalIsExactSum(state: string, row: Option<ZoneRow>)
    requires row.Some? ==> WholeCents(row.value.shipping_cost) && WholeCents(row.value.collection_cost)
    ensures var q := QuoteFor(state, row);
      ParseFloat(q.total_shipping) == Finite(q.shipping_cost + q.collection_cost)
  {
    var q := QuoteFor(state, row);
    assert WholeCents(q.shipping_cost) && WholeCents(q.collection_cost) by {
      if row.None? {
        CentsAreWhole(7500);
        assert Cents(7500) == DefaultCost;
      }
    }
    WholeCentsSum(q.shipping_cost, q.collection_cost);
    TotalReadsBack(state, row);
    RoundToCentsExact(q.shipping_cost + q.collection_cost);
  }

  /** Without a zone row the total shown is "150.00". */
  lemma FallbackTotal(state: string)
    ensures QuoteFor(state, None).total_shipping == "150.00"
  {
    assert HalfUpCents(150.0) == 15000;
    assert NatToString(1) == "1";
    assert NatToString(15) == "15";
    assert NatToString(150) == "150";
    assert CentsText(15000) == "150.00";
  }

  /**
   * The handler: an invalid ZIP is the only error; otherwise the quote is for
   * the resolved state and that state's zone row. `zoneFor` stands for the
   * `shipping_zones` query.
   */
  method CalculateShipping(zip: Option<string>, g: Geocode, zoneFor: string -> Option<ZoneRow>)
    returns (r: Result<Quote, string>)
    ensures ValidateZip(zip).Err? ==> r == Err(ValidateZip(zip).error)
    ensures ValidateZip(zip).Ok? ==> r == Ok(QuoteFor(ExpectedState(g), zoneFor(ExpectedState(g))))
  {
    var checked := ValidateZip(zip);
    if checked.Err? {
      return Err(checked.error);
    }
    var state := ResolveState(g);
    r := Ok(QuoteFor(state, zoneFor(state)));
  }
}
