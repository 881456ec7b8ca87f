/**
 * The part of a Google Geocoding reply that `calculate-shipping` and
 * `get-address` read, and the outcome of asking for one. The request itself
 * is not modelled: its outcome is an input of the handlers.
 */
module Geocoding {
  import opened Wrappers

  datatype Component = Component(long_name: string, short_name: string, types: seq<string>)

  /** One entry of `results`; `address_components` may be absent from the JSON. */
  datatype GeoResult = GeoResult(formatted_address: string, address_components: Option<seq<Component>>)

  /**
   * What the geocoding step produced: no API key was configured (no request
   * is made), the request or its JSON decoding threw, or a reply arrived with
   * a `status` and a possibly absent `results` list.
   */
  datatype Geocode = NoApiKey | Threw | Replied(status: string, results: Option<seq<GeoResult>>)

  const OkStatus := "OK"
  const RateLimited := "OVER_QUERY_LIMIT"

  /** An OK reply with at least one result: the only case in which either handler reads a result. */
  predicate Usable(g: Geocode)
  {
    g.Replied? && g.status == OkStatus && g.results.Some? && |g.results.value| > 0
  }

  function FirstResult(g: Geocode): GeoResult
    requires Usable(g)
  {
    g.results.value[0]
  }

  /** `cs.find(c => c.types.includes(t))`, as an index: the first component having type `t`. */
  function FindFirst(cs: seq<Component>, t: string): (r: Option<nat>)
    ensures r.Some? ==> r.value < |cs| && t in cs[r.value].types
    ensures r.Some? ==> forall j :: 0 <= j < r.value ==> t !in cs[j].types
    ensures r.None? <==> forall j :: 0 <= j < |cs| ==> t !in cs[j].types
  {
    if cs == [] then None
    else if t in cs[0].types then Some(0)
    else match FindFirst(cs[1..], t)
      case None => None
      case Some(k) => Some(k + 1)
  }

  /** The last component having type `t`: what a loop that overwrites a variable on every match leaves behind. */
  function FindLast(cs: seq<Component>, t: string): (r: Option<nat>)
    ensures r.Some? ==> r.value < |cs| && t in cs[r.value].types
    ensures r.Some? ==> forall j :: r.value < j < |cs| ==> t !in cs[j].types
    ensures r.None? <==> forall j :: 0 <= j < |cs| ==> t !in cs[j].types
  {
    if cs == [] then None
    else if t in cs[|cs| - 1].types then Some(|cs| - 1)
    else FindLast(cs[..|cs| - 1], t)
  }

  /** The last match is found by looking at the newest component first. */
  lemma FindLastSnoc(cs: seq<Component>, c: Component, t: string)
    ensures FindLast(cs + [c], t) == if t in c.types then Some(|cs|) else FindLast(cs, t)
  {
    assert (cs + [c])[..|cs|] == cs;
  }

  /** With a single match, the first and the last match coincide. */
  lemma {:induction false} FirstIsLastWhenUnique(cs: seq<Component>, t: string, k: nat)
    requires k < |cs| && t in cs[k].types
    requires forall j :: 0 <= j < |cs| && j != k ==> t !in cs[j].types
    ensures FindFirst(cs, t) == FindLast(cs, t) == Some(k)
  {
    var f, l := FindFirst(cs, t), FindLast(cs, t);
    assert f.Some? && l.Some?;
  }
}
