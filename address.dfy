/**
 * `get-address`: validate the ZIP, then either build the fixed fallback
 * record (no API key, rate limit, a failed or empty lookup) or read city,
 * state and country out of the first result's address components, the last
 * matching component winning.
 */
module Address {
  import opened Wrappers
  import opened Text
  import opened Zip
  import opened Geocoding

  const LocalityType := "locality"
  const StateType := "administrative_area_level_1"
  const CountryType := "country"

  /** What `addressComponents.forEach` throws when the first result has no components. */
  const ComponentsMissing := "Cannot read properties of undefined (reading 'forEach')"

  /** The JSON body of a successful reply. */
  datatype AddressRecord = AddressRecord(
    formatted_address: string, city: string, state: string, country: string, zipCode: string, full_address: string)

  /** `${city}, ${state} ${zip}, ${country}`. */
  function FullAddress(city: string, state: string, zip: string, country: string): string
  {
    city + ", " + state + " " + zip + ", " + country
  }

  /** The record returned whenever geocoding cannot be used. */
  function Fallback(zip: string): (a: AddressRecord)
    ensures a.formatted_address == zip + ", USA" && a.zipCode == zip
    ensures a.city == "Unknown City" && a.state == "Unknown" && a.country == "US"
    ensures a.full_address == FullAddress(a.city, a.state, a.zipCode, a.country)
  {
    AddressRecord(zip + ", USA", "Unknown City", "Unknown", "US", zip, "Unknown City, Unknown " + zip + ", US")
  }

  /** The `long_name` of the last component of type `t`, or "" when there is none. */
  function LastLongName(cs: seq<Component>, t: string): string
  {
    match FindLast(cs, t)
    case None => ""
    case Some(i) => cs[i].long_name
  }

  /** The `short_name` of the last component of type `t`, or "" when there is none. */
  function LastShortName(cs: seq<Component>, t: string): string
  {
    match FindLast(cs, t)
    case None => ""
    case Some(i) => cs[i].short_name
  }

  /** A newly seen component of type `t` supplies the long name; any other leaves it. */
  lemma LastLongNameSnoc(cs: seq<Component>, c: Component, t: string)
    ensures LastLongName(cs + [c], t) == if t in c.types then c.long_name else LastLongName(cs, t)
  {
    FindLastSnoc(cs, c, t);
  }

  /** A newly seen component of type `t` supplies the short name; any other leaves it. */
  lemma LastShortNameSnoc(cs: seq<Component>, c: Component, t: string)
    ensures LastShortName(cs + [c], t) == if t in c.types then c.short_name else LastShortName(cs, t)
  {
    FindLastSnoc(cs, c, t);
  }

  /**
   * The `forEach` over the components: each of `city`, `state` and `country`
   * starts empty and is overwritten by every component carrying its type.
   */
  method ExtractParts(cs: seq<Component>) returns (city: string, state: string, country: string)
    ensures city == LastLongName(cs, LocalityType)
    ensures state == LastShortName(cs, StateType)
    ensures country == LastShortName(cs, CountryType)
  {
    city, state, country := "", "", "";
    var i := 0;
    while i < |cs|
      invariant 0 <= i <= |cs|
      invariant city == LastLongName(cs[..i], LocalityType)
      invariant state == LastShortName(cs[..i], StateType)
      invariant country == LastShortName(cs[..i], CountryType)
    {
      var c := cs[i];
      assert cs[..i + 1] == cs[..i] + [c];
      LastLongNameSnoc(cs[..i], c, LocalityType);
      LastShortNameSnoc(cs[..i], c, StateType);
      LastShortNameSnoc(cs[..i], c, CountryType);
      if LocalityType in c.types {
        city := c.long_name;
      }
      if StateType in c.types {
        state := c.short_name;
      }
      if CountryType in c.types {
        country := c.short_name;
      }
      i := i + 1;
    }
    assert cs[..i] == cs;
  }

  /** A component type that occurs once fixes its field, wherever the component sits. */
  lemma UniqueStateIsRead(cs: seq<Component>, k: nat)
    requires k < |cs| && StateType in cs[k].types
    requires forall j :: 0 <= j < |cs| && j != k ==> StateType !in cs[j].types
    ensures LastShortName(cs, StateType) == cs[k].short_name
  {
    FirstIsLastWhenUnique(cs, StateType, k);
  }

  /**
   * The handler, given the ZIP and the geocoding outcome. Its success record
   * always carries the cleaned ZIP and a `full_address` composed from its own
   * fields; the one failure after validation is a first result without
   * components.
   */
  method GetAddress(zip: Option<string>, g: Geocode) returns (r: Result<AddressRecord, string>)
    ensures ValidateZip(zip).Err? ==> r == Err(ValidateZip(zip).error)
    ensures ValidateZip(zip).Ok? && !Usable(g) ==> r == Ok(Fallback(ValidateZip(zip).value))
    ensures ValidateZip(zip).Ok? && Usable(g) && FirstResult(g).address_components.None? ==>
      r == Err(ComponentsMissing)
    ensures ValidateZip(zip).Ok? && Usable(g) && FirstResult(g).address_components.Some? ==>
      var cs := FirstResult(g).address_components.value;
      && r.Ok?
      && r.value.formatted_address == FirstResult(g).formatted_address
      && r.value.city == LastLongName(cs, LocalityType)
      && r.value.state == LastShortName(cs, StateType)
      && r.value.country == LastShortName(cs, CountryType)
    ensures r.Ok? ==> ValidateZip(zip).Ok? && r.value.zipCode == ValidateZip(zip).value
    ensures r.Ok? ==> r.value.full_address == FullAddress(r.value.city, r.value.state, r.value.zipCode, r.value.country)
  {
    var checked := ValidateZip(zip);
    if checked.Err? {
      return Err(checked.error);
    }
    var clean := checked.value;
    match g {
      case NoApiKey =>
        return Ok(Fallback(clean));
      case Threw =>
        return Ok(Fallback(clean));
      case Replied(status, results) =>
        if status == RateLimited {
          return Ok(Fallback(clean));
        }
        if status != OkStatus || results.None? || |results.value| == 0 {
          return Ok(Fallback(clean));
        }
    }
    var result := FirstResult(g);
    if result.address_components.None? {
      return Err(ComponentsMissing);
    }
    var city, state, country := ExtractParts(result.address_components.value);
    r := Ok(AddressRecord(result.formatted_address, city, state, country, clean, FullAddress(city, state, clean, country)));
  }
}
