/** The region table of the stats endpoint: a region token chosen by the
    client names a platform cluster (summoner, league and mastery hosts) and a
    routing cluster (match hosts). */
module Regions {
  import opened Js

  datatype Region = Region(platform: string, routing: string)

  /** `regionMap`: the only five tokens the endpoint accepts. */
  const RegionMap: map<string, Region> := map[
    "eune" := Region("eun1", "europe"),
    "eun1" := Region("eun1", "europe"),
    "euw" := Region("euw1", "europe"),
    "na" := Region("na1", "americas"),
    "kr" := Region("kr", "asia")
  ]

  /** The host the Riot ID lookup is sent to, whatever the region. */
  const AccountHost := "europe"

  /** The region a token resolves to: an own entry of the table, None when the
      token is absent or has no entry. */
  function ResolveRegion(token: Option<string>): (r: Option<Region>)
    ensures r.Some? <==> token.Some? && token.value in {"eune", "eun1", "euw", "na", "kr"}
    ensures r.Some? ==> r.value.platform in {"eun1", "euw1", "na1", "kr"}
    ensures r.Some? ==> r.value.routing in {"europe", "americas", "asia"}
  {
    if token.Some? && token.value in RegionMap then Some(RegionMap[token.value]) else None
  }

  /** The routing cluster Riot serves each platform cluster from: an
      independent statement of which pairs belong together. */
  function ClusterOf(platform: string): Option<string> {
    if platform in {"eun1", "euw1", "tr1", "ru"} then Some("europe")
    else if platform in {"na1", "br1", "la1", "la2"} then Some("americas")
    else if platform in {"kr", "jp1"} then Some("asia")
    else None
  }

  /** Every token resolves to a platform and a routing cluster that belong
      together, so summoner and match calls of one request go to the same
      part of the world. */
  lemma RegionClustersAgree(token: Option<string>)
    ensures ResolveRegion(token).Some? ==>
      ClusterOf(ResolveRegion(token).value.platform) == Some(ResolveRegion(token).value.routing)
  {
  }

  /** The values the search form offers: "euw1" and "na1" have no entry and
      are rejected; "eun1" and "kr" resolve; an absent region does not. */
  lemma SearchFormTokens()
    ensures ResolveRegion(Some("euw1")).None? && ResolveRegion(Some("na1")).None?
    ensures ResolveRegion(Some("eun1")) == Some(Region("eun1", "europe"))
    ensures ResolveRegion(Some("kr")) == Some(Region("kr", "asia"))
    ensures ResolveRegion(None).None?
  {
  }

  /** Names every plain object inherits from `Object.prototype`; looking one
      of them up in `regionMap` yields a function or an object, both truthy. */
  const ObjectPrototypeNames: set<string> := {
    "constructor", "__defineGetter__", "__defineSetter__", "hasOwnProperty",
    "__lookupGetter__", "__lookupSetter__", "isPrototypeOf",
    "propertyIsEnumerable", "toString", "valueOf", "__proto__", "toLocaleString"
  }

  /** The guard `!regionInfo` as written: the lookup `regionMap[region]` is
      truthy for the table's own keys and for every inherited name. An absent
      region is looked up as the key "undefined". */
  predicate RegionGuardPassesAsWritten(token: Option<string>) {
    var key := if token.Some? then token.value else "undefined";
    key in RegionMap || key in ObjectPrototypeNames
  }

  /** `regionMap[region]?.platform || region` as written: the platform host
      falls back to the raw token when the looked-up value has no platform. */
  function PlatformAsWritten(token: Option<string>): string {
    var key := if token.Some? then token.value else "undefined";
    if key in RegionMap then RegionMap[key].platform else key
  }

  /** As written, the token "constructor" passes the region guard although it
      is no region: the handler goes on to the account lookup and then sends
      the summoner lookup to the host "constructor", which fails as a network
      error (500) instead of the intended 400. The corrected resolution,
      ResolveRegion, rejects it, as it rejects every inherited name. */
  lemma InheritedNamePassesGuard()
    ensures RegionGuardPassesAsWritten(Some("constructor"))
    ensures PlatformAsWritten(Some("constructor")) == "constructor"
    ensures ResolveRegion(Some("constructor")).None?
    ensures forall name :: name in ObjectPrototypeNames ==> ResolveRegion(Some(name)).None?
  {
  }
}
