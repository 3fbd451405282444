/** The `GET /api/stats` handler: region and parameter checks, then six
    awaited stages (account, summoner, league, mastery, match ids, one detail
    fetch per match id) inside one try/catch. Stats is its specification as
    a function of the query, the world and the catalog state; HandleStats is
    the handler itself, which returns the reply and a ghost record of the
    calls it issued. */
module StatsEndpoint {
  import opened Js
  import opened Axios
  import opened Regions
  import opened Labels
  import opened Catalog
  import opened Riot

  /** The query string: each parameter may be absent. */
  datatype Query = Query(name: Option<string>, tagline: Option<string>, region: Option<string>)

  datatype TopChampion = TopChampion(id: int, points: int, name: string, image: Option<string>)

  datatype MatchSummary = MatchSummary(
    matchId: string, championName: string,
    kills: int, deaths: int, assists: int, win: bool,
    date: string, gameMode: string, queueType: string)

  /** The HTTP reply: an error status with the `error` member of its body,
      or the 200 snapshot. */
  datatype Reply =
    | Failed(status: int, error: Json)
    | Snapshot(
        name: string, tagline: string, profileIconId: int, summonerLevel: int,
        rank: Option<LeagueEntry>, topChampion: Option<TopChampion>,
        recentMatches: seq<MatchSummary>)

  /** Control flow inside the try block: go on with a value, or throw an
      error whose `response` may be absent (a network error or a TypeError). */
  datatype Step<+T> = Next(value: T) | Throw(response: Option<ErrorResponse>)

  /** A reply together with the calls issued to produce it, in order. */
  datatype Run = Run(reply: Reply, calls: seq<Call>)

  datatype Staged<+T> = Staged(step: Step<T>, calls: seq<Call>)

  const SoloQueue := "RANKED_SOLO_5x5"
  const MissingParameters := "Brak wymaganych parametrów"
  const BackendError := "Błąd backendu"
  /** The `count` of the match-id request. */
  const MatchWindow: nat := 5

  function UnknownRegionMessage(region: Option<string>): string {
    "Nieznany region: " + (if region.Some? then region.value else "undefined")
  }

  /** The catch block: the upstream status, or 500 when there is none (or it
      is 0); the upstream body, or "Błąd backendu" when it is falsy. */
  function Caught(response: Option<ErrorResponse>): (r: Reply)
    ensures r.Failed? && r.status != 0
    ensures response.None? ==> r == Failed(500, JStr(BackendError))
    ensures response.Some? && response.value.status != 0 ==> r.status == response.value.status
    ensures response.Some? && response.value.status == 0 ==> r.status == 500
    ensures response.Some? && Truthy(response.value.data) ==> r.error == response.value.data
    ensures response.Some? && !Truthy(response.value.data) ==> r.error == JStr(BackendError)
  {
    Failed(
      if response.Some? && response.value.status != 0 then response.value.status else 500,
      if response.Some? && Truthy(response.value.data) then response.value.data else JStr(BackendError))
  }

  /** `e.response && e.response.status === 403`. */
  predicate IsForbidden(response: Option<ErrorResponse>) {
    response.Some? && response.value.status == 403
  }

  predicate IsSoloQueue(entry: LeagueEntry) {
    entry.queueType == SoloQueue
  }

  /** `leagueRes.data.find(q => q.queueType === "RANKED_SOLO_5x5") || null`. */
  function RankedSolo(entries: seq<LeagueEntry>): (r: Option<LeagueEntry>)
    ensures r.None? <==> forall i :: 0 <= i < |entries| ==> !IsSoloQueue(entries[i])
    ensures r.Some? ==>
      exists i :: 0 <= i < |entries| && entries[i] == r.value && IsSoloQueue(entries[i])
        && forall j :: 0 <= j < i ==> !IsSoloQueue(entries[j])
  {
    match FindIndex(entries, IsSoloQueue)
    case None => None
    case Some(i) => Some(entries[i])
  }

  /** Index of the player in a match: `participants.find(p => p.puuid === puuid)`. */
  function ParticipantIndex(info: MatchInfo, puuid: string): Option<nat> {
    FindIndex(info.participants, (p: Participant) => p.puuid == puuid)
  }

  /** The mastery stage (the inner try/catch): an empty list gives no top
      champion; otherwise only element 0 is kept, named from the catalog or
      "Unknown" with no image when the catalog has no such champion; a 403
      is swallowed as "no top champion"; any other failure is rethrown. */
  function MasteryStage(response: Response<seq<MasteryEntry>>, champions: Option<seq<ChampionRecord>>): (r: Step<Option<TopChampion>>)
    ensures response.Ok? && response.data == [] ==> r == Next(None)
    ensures response.Ok? && response.data != [] ==>
      var top := response.data[0];
      var info := ChampionInfoOf(champions, top.championId);
      r.Next? && r.value.Some? && r.value.value.id == top.championId
      && r.value.value.points == top.championPoints
      && (info.None? ==> r.value.value.name == "Unknown" && r.value.value.image.None?)
      && (info.Some? ==> r.value.value.name == info.value.name && r.value.value.image == Some(info.value.image))
    ensures response.Fail? ==>
      (IsForbidden(response.response) ==> r == Next(None))
      && (!IsForbidden(response.response) ==> r == Throw(response.response))
  {
    match response
    case Fail(e) => if IsForbidden(e) then Next(None) else Throw(e)
    case Ok(entries) =>
      if |entries| > 0 then
        var top := entries[0];
        var info := ChampionInfoOf(champions, top.championId);
        Next(Some(TopChampion(
          top.championId, top.championPoints,
          if info.Some? then info.value.name else "Unknown",
          if info.Some? then Some(info.value.image) else None)))
      else Next(None)
  }

  /** The summary pushed for one fetched match; a TypeError (no response)
      when the player is not among its participants. */
  function Summarize(w: World, puuid: string, matchId: string, detail: MatchDetail): Step<MatchSummary>
  {
    var info := detail.info;
    match ParticipantIndex(info, puuid)
    case None => Throw(None)
    case Some(i) =>
      var p := info.participants[i];
      Next(MatchSummary(
        matchId, p.championName, p.kills, p.deaths, p.assists, p.win,
        w.formatDate(info.gameStartTimestamp),
        GameModeLabel(info.gameMode), QueueTypeLabel(info.queueId)))
  }

  /** The summary reports the first participant carrying the player's id,
      as `find` does, with the labelled mode and queue; with no such
      participant the handler throws a TypeError, which has no response. */
  lemma SummarizeFindsPlayer(w: World, puuid: string, matchId: string, detail: MatchDetail)
    ensures var r := Summarize(w, puuid, matchId, detail);
      var ps := detail.info.participants;
      (r.Throw? <==> forall j :: 0 <= j < |ps| ==> ps[j].puuid != puuid)
      && (r.Throw? ==> r.response.None?)
      && (r.Next? ==>
        var i := ParticipantIndex(detail.info, puuid).value;
        i < |ps| && ps[i].puuid == puuid && (forall j :: 0 <= j < i ==> ps[j].puuid != puuid)
        && r.value.matchId == matchId && r.value.championName == ps[i].championName
        && r.value.kills == ps[i].kills && r.value.deaths == ps[i].deaths
        && r.value.assists == ps[i].assists && r.value.win == ps[i].win
        && r.value.date == w.formatDate(detail.info.gameStartTimestamp)
        && r.value.gameMode == GameModeLabel(detail.info.gameMode)
        && r.value.queueType == QueueTypeLabel(detail.info.queueId))
  {
  }

  /** The match loop over `ids`, one awaited detail fetch per id, stopping at
      the first failure. */
  function Details(w: World, routing: string, puuid: string, ids: seq<string>): Staged<seq<MatchSummary>>
    decreases |ids|
  {
    if ids == [] then Staged(Next([]), [])
    else DetailStep(w, routing, puuid, Details(w, routing, puuid, ids[..|ids| - 1]), ids[|ids| - 1])
  }

  /** One iteration of the match loop for `id`, after the iterations that
      produced `before`: nothing once the loop has thrown; otherwise the
      fetch, then either its summary or a throw. */
  function DetailStep(w: World, routing: string, puuid: string, before: Staged<seq<MatchSummary>>, id: string): Staged<seq<MatchSummary>> {
    if before.step.Throw? then before
    else
      var calls := before.calls + [MatchById(routing, id)];
      match w.matchDetail(routing, id)
      case Fail(e) => Staged(Throw(e), calls)
      case Ok(detail) =>
        match Summarize(w, puuid, id, detail)
        case Throw(e) => Staged(Throw(e), calls)
        case Next(summary) => Staged(Next(before.step.value + [summary]), calls)
  }

  /** The try block, entered with a known region and present name and tag. */
  function Fetch(name: string, tagline: string, region: Region, w: World, champions: Option<seq<ChampionRecord>>): Run {
    var platform := region.platform;
    var routing := region.routing;
    var c1 := AccountByRiotId(AccountHost, name, tagline);
    match w.account(AccountHost, name, tagline)
    case Fail(e) => Run(Caught(e), [c1])
    case Ok(account) =>
      var c2 := SummonerByPuuid(platform, account.puuid);
      match w.summoner(platform, account.puuid)
      case Fail(e) => Run(Caught(e), [c1, c2])
      case Ok(summoner) =>
        var c3 := LeagueBySummoner(platform, summoner.id);
        match w.league(platform, summoner.id)
        case Fail(e) => Run(Caught(e), [c1, c2, c3])
        case Ok(entries) =>
          var c4 := MasteryBySummoner(platform, summoner.id);
          match MasteryStage(w.mastery(platform, summoner.id), champions)
          case Throw(e) => Run(Caught(e), [c1, c2, c3, c4])
          case Next(topChampion) =>
            var c5 := MatchIdsByPuuid(routing, account.puuid, 0, MatchWindow);
            match w.matchIds(routing, account.puuid, 0, MatchWindow)
            case Fail(e) => Run(Caught(e), [c1, c2, c3, c4, c5])
            case Ok(ids) =>
              var details := Details(w, routing, account.puuid, ids);
              var calls := [c1, c2, c3, c4, c5] + details.calls;
              match details.step
              case Throw(e) => Run(Caught(e), calls)
              case Next(summaries) =>
                Run(Snapshot(
                  name, tagline, summoner.profileIconId, summoner.summonerLevel,
                  RankedSolo(entries), topChampion, summaries), calls)
  }

  /** The whole handler: an unknown region is rejected first, then missing
      parameters, and only then is anything fetched. */
  function Stats(q: Query, w: World, champions: Option<seq<ChampionRecord>>): (r: Run)
    ensures ResolveRegion(q.region).None? ==> r.calls == []
    ensures r.calls == [] ==> r.reply.Failed? && r.reply.status == 400
    ensures r.calls != [] ==>
      Present(q.name) && Present(q.tagline)
      && r.calls[0] == AccountByRiotId(AccountHost, q.name.value, q.tagline.value)
  {
    match ResolveRegion(q.region)
    case None => Run(Failed(400, JStr(UnknownRegionMessage(q.region))), [])
    case Some(region) =>
      if !Present(q.name) || !Present(q.tagline) || !Present(q.region) then
        Run(Failed(400, JStr(MissingParameters)), [])
      else
        Fetch(q.name.value, q.tagline.value, region, w, champions)
  }

  /** Once the match loop has thrown on a prefix of the ids, it has thrown
      on all of them, with the same calls. */
  lemma {:induction false} DetailsStopAtFailure(w: World, routing: string, puuid: string, ids: seq<string>, k: nat)
    requires k <= |ids|
    requires Details(w, routing, puuid, ids[..k]).step.Throw?
    ensures Details(w, routing, puuid, ids) == Details(w, routing, puuid, ids[..k])
    decreases |ids| - k
  {
    if k == |ids| {
      assert ids[..k] == ids;
    } else {
      assert ids[..k + 1][..k] == ids[..k];
      DetailsStopAtFailure(w, routing, puuid, ids, k + 1);
    }
  }

  /** The handler: the region check, then the parameter check, then the
      try block. */
  method HandleStats(q: Query, w: World, catalog: ChampionCatalog) returns (reply: Reply, ghost calls: seq<Call>)
    ensures reply == Stats(q, w, catalog.champions).reply
    ensures calls == Stats(q, w, catalog.champions).calls
  {
    var regionInfo := ResolveRegion(q.region);
    if regionInfo.None? {
      return Failed(400, JStr(UnknownRegionMessage(q.region))), [];
    }
    if !Present(q.name) || !Present(q.tagline) || !Present(q.region) {
      return Failed(400, JStr(MissingParameters)), [];
    }
    reply, calls := FetchStats(q.name.value, q.tagline.value, regionInfo.value, w, catalog);
  }

  /** The try block: each upstream call is awaited before the next one, and
      the first failure ends the request in the catch block. */
  method FetchStats(name: string, tagline: string, region: Region, w: World, catalog: ChampionCatalog)
    returns (reply: Reply, ghost calls: seq<Call>)
    ensures reply == Fetch(name, tagline, region, w, catalog.champions).reply
    ensures calls == Fetch(name, tagline, region, w, catalog.champions).calls
  {
    var platform := region.platform;
    var routing := region.routing;

    ghost var c1 := AccountByRiotId(AccountHost, name, tagline);
    calls := [c1];
    var accountRes := w.account(AccountHost, name, tagline);
    if accountRes.Fail? {
      return Caught(accountRes.response), calls;
    }
    var puuid := accountRes.data.puuid;

    ghost var c2 := SummonerByPuuid(platform, puuid);
    calls := [c1, c2];
    var summonerRes := w.summoner(platform, puuid);
    if summonerRes.Fail? {
      return Caught(summonerRes.response), calls;
    }
    var summoner := summonerRes.data;

    ghost var c3 := LeagueBySummoner(platform, summoner.id);
    calls := [c1, c2, c3];
    var leagueRes := w.league(platform, summoner.id);
    if leagueRes.Fail? {
      return Caught(leagueRes.response), calls;
    }
    var rankedSolo := RankedSolo(leagueRes.data);

    ghost var c4 := MasteryBySummoner(platform, summoner.id);
    calls := [c1, c2, c3, c4];
    var masteryRes := w.mastery(platform, summoner.id);
    var mastery := TopChampionOf(masteryRes, catalog);
    if mastery.Throw? {
      return Caught(mastery.response), calls;
    }
    var topChampion := mastery.value;

    ghost var c5 := MatchIdsByPuuid(routing, puuid, 0, MatchWindow);
    calls := [c1, c2, c3, c4, c5];
    var matchesRes := w.matchIds(routing, puuid, 0, MatchWindow);
    if matchesRes.Fail? {
      return Caught(matchesRes.response), calls;
    }

    var details;
    ghost var detailCalls;
    details, detailCalls := FetchMatchDetails(w, routing, puuid, matchesRes.data);
    calls := calls + detailCalls;
    match details
    case Throw(e) =>
      reply := Caught(e);
    case Next(matchesDetails) =>
      reply := Snapshot(
        name, tagline, summoner.profileIconId, summoner.summonerLevel,
        rankedSolo, topChampion, matchesDetails);
  }

  /** The inner try/catch around the mastery request: `topChampion` starts
      as null and is set from element 0 of a non-empty list; a 403 is
      swallowed and any other failure rethrown. */
  method TopChampionOf(masteryRes: Response<seq<MasteryEntry>>, catalog: ChampionCatalog)
    returns (result: Step<Option<TopChampion>>)
    ensures result == MasteryStage(masteryRes, catalog.champions)
  {
    var topChampion: Option<TopChampion> := None;
    if masteryRes.Ok? {
      if |masteryRes.data| > 0 {
        var top := masteryRes.data[0];
        var champInfo := catalog.GetChampionInfo(top.championId);
        topChampion := Some(TopChampion(
          top.championId, top.championPoints,
          if champInfo.Some? then champInfo.value.name else "Unknown",
          if champInfo.Some? then Some(champInfo.value.image) else None));
      }
    } else if !IsForbidden(masteryRes.response) {
      return Throw(masteryRes.response);
    }
    return Next(topChampion);
  }

  /** The match loop: fetch the details of each id in turn and push its
      summary; a failed fetch or a missing participant throws. */
  method FetchMatchDetails(w: World, routing: string, puuid: string, matchIds: seq<string>)
    returns (result: Step<seq<MatchSummary>>, ghost calls: seq<Call>)
    ensures result == Details(w, routing, puuid, matchIds).step
    ensures calls == Details(w, routing, puuid, matchIds).calls
  {
    calls := [];
    var matchesDetails: seq<MatchSummary> := [];
    var i := 0;
    while i < |matchIds|
      invariant 0 <= i <= |matchIds|
      invariant Details(w, routing, puuid, matchIds[..i]) == Staged(Next(matchesDetails), calls)
    {
      var matchId := matchIds[i];
      assert matchIds[..i + 1][..i] == matchIds[..i];
      calls := calls + [MatchById(routing, matchId)];
      var matchRes := w.matchDetail(routing, matchId);
      if matchRes.Fail? {
        DetailsStopAtFailure(w, routing, puuid, matchIds, i + 1);
        return Throw(matchRes.response), calls;
      }
      var info := matchRes.data.info;
      var index := ParticipantIndex(info, puuid);
      if index.None? {
        DetailsStopAtFailure(w, routing, puuid, matchIds, i + 1);
        return Throw(None), calls;
      }
      var participant := info.participants[index.value];
      matchesDetails := matchesDetails + [MatchSummary(
        matchId, participant.championName,
        participant.kills, participant.deaths, participant.assists, participant.win,
        w.formatDate(info.gameStartTimestamp),
        GameModeLabel(info.gameMode), QueueTypeLabel(info.queueId))];
      i := i + 1;
    }
    assert matchIds[..i] == matchIds;
    result := Next(matchesDetails);
  }
}
