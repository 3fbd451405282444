/** What the stats handler guarantees, stated over its specification Stats
    (which HandleStats is proved to compute): the checks before any call,
    the order of the calls, the first failure deciding the reply, and the
    contents of a snapshot. */
module StatsProperties {
  import opened Js
  import opened Axios
  import opened Regions
  import opened Catalog
  import opened Riot
  import opened StatsEndpoint

  /** The detail fetches for `ids`, in order. */
  function MatchFetches(routing: string, ids: seq<string>): (calls: seq<Call>)
    ensures |calls| == |ids|
    ensures forall k :: 0 <= k < |ids| ==> calls[k] == MatchById(routing, ids[k])
  {
    seq(|ids|, k requires 0 <= k < |ids| => MatchById(routing, ids[k]))
  }

  /** The player id the account lookup yields ("" when it fails). */
  function PlayerId(w: World, name: string, tagline: string): string {
    var account := w.account(AccountHost, name, tagline);
    if account.Ok? then account.data.puuid else ""
  }

  /** The summoner id the profile lookup yields ("" when it fails). */
  function SummonerId(w: World, region: Region, puuid: string): string {
    var summoner := w.summoner(region.platform, puuid);
    if summoner.Ok? then summoner.data.id else ""
  }

  /** Every call the try block issues when nothing fails: account (always on
      the "europe" host), summoner, league and mastery on the platform host,
      then the match-id list and one detail fetch per id on the routing host,
      all keyed by this request's player and summoner ids. The placeholder ""
      only stands in after a failed lookup, where no later call is issued. */
  function Plan(name: string, tagline: string, region: Region, w: World): seq<Call> {
    var puuid := PlayerId(w, name, tagline);
    var summonerId := SummonerId(w, region, puuid);
    var ids := w.matchIds(region.routing, puuid, 0, MatchWindow);
    [ AccountByRiotId(AccountHost, name, tagline),
      SummonerByPuuid(region.platform, puuid),
      LeagueBySummoner(region.platform, summonerId),
      MasteryBySummoner(region.platform, summonerId),
      MatchIdsByPuuid(region.routing, puuid, 0, MatchWindow) ]
    + MatchFetches(region.routing, if ids.Ok? then ids.data else [])
  }

  function Settle<T>(r: Response<T>): Step<()> {
    match r
    case Ok(_) => Next(())
    case Fail(e) => Throw(e)
  }

  /** Whether the handler carries on after the awaited call `c` or throws,
      judged from that call alone: a rejection throws, except a mastery 403;
      a match whose participants lack the player throws a TypeError. */
  function Effect(w: World, puuid: string, c: Call): Step<()> {
    match c
    case AccountByRiotId(h, n, t) => Settle(w.account(h, n, t))
    case SummonerByPuuid(h, p) => Settle(w.summoner(h, p))
    case LeagueBySummoner(h, id) => Settle(w.league(h, id))
    case MasteryBySummoner(h, id) =>
      var r := w.mastery(h, id);
      if r.Fail? && IsForbidden(r.response) then Next(()) else Settle(r)
    case MatchIdsByPuuid(h, p, s, n) => Settle(w.matchIds(h, p, s, n))
    case MatchById(h, id) =>
      match w.matchDetail(h, id)
      case Fail(e) => Throw(e)
      case Ok(d) => if ParticipantIndex(d.info, puuid).Some? then Next(()) else Throw(None)
  }

  /** The region is checked first and the parameters second; both reject
      with 400 before any call. Otherwise the reply is that of the try block.
      A present region is a non-empty token, so the `!region` test never
      decides. */
  lemma RequestGuards(q: Query, w: World, champions: Option<seq<ChampionRecord>>)
    ensures ResolveRegion(q.region).None? ==>
      Stats(q, w, champions) == Run(Failed(400, JStr(UnknownRegionMessage(q.region))), [])
    ensures ResolveRegion(q.region).Some? && !(Present(q.name) && Present(q.tagline)) ==>
      Stats(q, w, champions) == Run(Failed(400, JStr(MissingParameters)), [])
    ensures ResolveRegion(q.region).Some? && Present(q.name) && Present(q.tagline) ==>
      Stats(q, w, champions) == Fetch(q.name.value, q.tagline.value, ResolveRegion(q.region).value, w, champions)
  {
  }

  /** The calls of the match loop are the detail fetches of a prefix of the
      ids, in order, and all of them when the loop completes. */
  lemma {:induction false} DetailsCalls(w: World, routing: string, puuid: string, ids: seq<string>)
    ensures var d := Details(w, routing, puuid, ids);
      |d.calls| <= |ids|
      && (forall k :: 0 <= k < |d.calls| ==> d.calls[k] == MatchById(routing, ids[k]))
      && (d.step.Next? ==> |d.calls| == |ids|)
  {
    if ids != [] {
      var init := ids[..|ids| - 1];
      DetailsCalls(w, routing, puuid, init);
      var before := Details(w, routing, puuid, init);
      var d := Details(w, routing, puuid, ids);
      if before.step.Next? {
        assert d.calls == before.calls + [MatchById(routing, ids[|ids| - 1])];
        forall k | 0 <= k < |d.calls|
          ensures d.calls[k] == MatchById(routing, ids[k])
        {
          if k < |before.calls| {
            assert init[k] == ids[k];
          }
        }
      } else {
        assert d == before;
        forall k | 0 <= k < |d.calls|
          ensures d.calls[k] == MatchById(routing, ids[k])
        {
          assert init[k] == ids[k];
        }
      }
    }
  }

  /** `summary` is what the match loop pushes for `id`: the id's details
      were fetched and name the player. */
  predicate SummaryOf(w: World, routing: string, puuid: string, id: string, summary: MatchSummary) {
    var detail := w.matchDetail(routing, id);
    summary.matchId == id && detail.Ok? && Summarize(w, puuid, id, detail.data) == Next(summary)
  }

  /** A completed match loop holds exactly one summary per id, in the order
      of the ids, each made from that id's fetched details. */
  lemma {:induction false} DetailsSummaries(w: World, routing: string, puuid: string, ids: seq<string>)
    requires Details(w, routing, puuid, ids).step.Next?
    ensures var s := Details(w, routing, puuid, ids).step.value;
      |s| == |ids| && forall k :: 0 <= k < |ids| ==> SummaryOf(w, routing, puuid, ids[k], s[k])
  {
    if ids != [] {
      var init := ids[..|ids| - 1];
      var id := ids[|ids| - 1];
      var before := Details(w, routing, puuid, init);
      assert Details(w, routing, puuid, ids) == DetailStep(w, routing, puuid, before, id);
      SummaryStep(w, routing, puuid, before, id);
      DetailsSummaries(w, routing, puuid, init);
      var s := Details(w, routing, puuid, ids).step.value;
      forall k | 0 <= k < |ids|
        ensures SummaryOf(w, routing, puuid, ids[k], s[k])
      {
        if k < |init| {
          assert s[k] == before.step.value[k] && ids[k] == init[k];
        }
      }
    }
  }

  /** An iteration of the match loop that goes on appends the summary of the
      fetched match for its id. */
  lemma SummaryStep(w: World, routing: string, puuid: string, before: Staged<seq<MatchSummary>>, id: string)
    requires DetailStep(w, routing, puuid, before, id).step.Next?
    ensures before.step.Next?
    ensures var s := DetailStep(w, routing, puuid, before, id).step.value;
      |s| > 0 && s[..|s| - 1] == before.step.value && SummaryOf(w, routing, puuid, id, s[|s| - 1])
  {
  }

  /** In the match loop every fetch but the last let the loop go on; the
      loop throws exactly when its last fetch did, with that fetch's error. */
  lemma {:induction false} DetailsEffects(w: World, routing: string, puuid: string, ids: seq<string>)
    ensures var d := Details(w, routing, puuid, ids);
      (forall k :: 0 <= k < |d.calls| - 1 ==> Effect(w, puuid, d.calls[k]).Next?)
      && (d.step.Throw? ==> d.calls != [] && Effect(w, puuid, d.calls[|d.calls| - 1]) == Throw(d.step.response))
      && (d.step.Next? && d.calls != [] ==> Effect(w, puuid, d.calls[|d.calls| - 1]).Next?)
  {
    if ids != [] {
      var init := ids[..|ids| - 1];
      var id := ids[|ids| - 1];
      var before := Details(w, routing, puuid, init);
      var d := Details(w, routing, puuid, ids);
      assert d == DetailStep(w, routing, puuid, before, id);
      DetailsEffects(w, routing, puuid, init);
      if before.step.Next? {
        EffectStep(w, routing, puuid, before, id);
        forall k | 0 <= k < |d.calls| - 1
          ensures Effect(w, puuid, d.calls[k]).Next?
        {
          assert d.calls[k] == before.calls[k];
        }
      }
    }
  }

  /** An iteration of the match loop that runs issues one fetch, and throws
      exactly when that fetch's effect throws, with the same error. */
  lemma EffectStep(w: World, routing: string, puuid: string, before: Staged<seq<MatchSummary>>, id: string)
    requires before.step.Next?
    ensures var d := DetailStep(w, routing, puuid, before, id);
      var effect := Effect(w, puuid, MatchById(routing, id));
      d.calls == before.calls + [MatchById(routing, id)]
      && (d.step.Throw? <==> effect.Throw?)
      && (d.step.Throw? ==> effect == Throw(d.step.response))
  {
  }

  /** The calls of a request are always a prefix of the plan: the stages run
      in order (account, summoner, league, mastery, match ids, details) and
      nothing is issued after the first failure; a snapshot issued the whole
      plan. */
  lemma CallsFollowPlan(name: string, tagline: string, region: Region, w: World, champions: Option<seq<ChampionRecord>>)
    ensures var r := Fetch(name, tagline, region, w, champions);
      r.calls <= Plan(name, tagline, region, w)
      && (r.reply.Snapshot? ==> r.calls == Plan(name, tagline, region, w))
  {
    var r := Fetch(name, tagline, region, w, champions);
    var plan := Plan(name, tagline, region, w);
    var platform := region.platform;
    var puuid := PlayerId(w, name, tagline);
    var summonerId := SummonerId(w, region, puuid);
    var ids := w.matchIds(region.routing, puuid, 0, MatchWindow);
    var head := [
      AccountByRiotId(AccountHost, name, tagline),
      SummonerByPuuid(platform, puuid),
      LeagueBySummoner(platform, summonerId),
      MasteryBySummoner(platform, summonerId),
      MatchIdsByPuuid(region.routing, puuid, 0, MatchWindow) ];
    var fetches := MatchFetches(region.routing, if ids.Ok? then ids.data else []);
    assert plan == head + fetches;
    var n := 5;
    if w.account(AccountHost, name, tagline).Fail? {
      n := 1;
    } else if w.summoner(platform, puuid).Fail? {
      n := 2;
    } else if w.league(platform, summonerId).Fail? {
      n := 3;
    } else if MasteryStage(w.mastery(platform, summonerId), champions).Throw? {
      n := 4;
    }
    if n < 5 || ids.Fail? {
      assert r.calls == head[..n];
      assert plan[..n] == head[..n];
    } else {
      DetailsCalls(w, region.routing, puuid, ids.data);
      var d := Details(w, region.routing, puuid, ids.data);
      assert r.calls == head + d.calls;
      assert d.calls == fetches[..|d.calls|];
      assert plan[..|r.calls|] == head + fetches[..|d.calls|];
    }
  }

  /** The first failing call decides the request: every call before the last
      one carried on, and the reply is an error exactly when the last call
      threw, with that call's status (or 500) and body (or "Błąd backendu"). */
  lemma FirstFailureDecides(name: string, tagline: string, region: Region, w: World, champions: Option<seq<ChampionRecord>>)
    ensures var r := Fetch(name, tagline, region, w, champions);
      var puuid := PlayerId(w, name, tagline);
      r.calls != []
      && (forall k :: 0 <= k < |r.calls| - 1 ==> Effect(w, puuid, r.calls[k]).Next?)
      && (r.reply.Failed? <==> Effect(w, puuid, r.calls[|r.calls| - 1]).Throw?)
      && (r.reply.Failed? ==> r.reply == Caught(Effect(w, puuid, r.calls[|r.calls| - 1]).response))
  {
    var r := Fetch(name, tagline, region, w, champions);
    var puuid := PlayerId(w, name, tagline);
    var platform := region.platform;
    var c1 := AccountByRiotId(AccountHost, name, tagline);
    var account := w.account(AccountHost, name, tagline);
    if account.Fail? {
      assert r == Run(Caught(account.response), [c1]);
      return;
    }
    assert Effect(w, puuid, c1) == Next(());
    var c2 := SummonerByPuuid(platform, puuid);
    var summoner := w.summoner(platform, puuid);
    if summoner.Fail? {
      assert r == Run(Caught(summoner.response), [c1, c2]);
      return;
    }
    assert Effect(w, puuid, c2) == Next(());
    var summonerId := summoner.data.id;
    var c3 := LeagueBySummoner(platform, summonerId);
    var league := w.league(platform, summonerId);
    if league.Fail? {
      assert r == Run(Caught(league.response), [c1, c2, c3]);
      return;
    }
    assert Effect(w, puuid, c3) == Next(());
    var c4 := MasteryBySummoner(platform, summonerId);
    var mastery := w.mastery(platform, summonerId);
    var top := MasteryStage(mastery, champions);
    if top.Throw? {
      assert r == Run(Caught(top.response), [c1, c2, c3, c4]);
      assert Effect(w, puuid, c4) == Throw(top.response);
      return;
    }
    assert Effect(w, puuid, c4) == Next(());
    var c5 := MatchIdsByPuuid(region.routing, puuid, 0, MatchWindow);
    var ids := w.matchIds(region.routing, puuid, 0, MatchWindow);
    if ids.Fail? {
      assert r == Run(Caught(ids.response), [c1, c2, c3, c4, c5]);
      return;
    }
    assert Effect(w, puuid, c5) == Next(());
    var head := [c1, c2, c3, c4, c5];
    DetailsEffects(w, region.routing, puuid, ids.data);
    var d := Details(w, region.routing, puuid, ids.data);
    assert r.calls == head + d.calls;
    forall k | 0 <= k < |r.calls| - 1
      ensures Effect(w, puuid, r.calls[k]).Next?
    {
      if k >= 5 {
        assert r.calls[k] == d.calls[k - 5];
      }
    }
    if d.calls != [] {
      assert r.calls[|r.calls| - 1] == d.calls[|d.calls| - 1];
    }
  }

  /** No partial list: when the fetch of any listed match fails, or its
      details do not name the player, the match loop throws. */
  lemma BadMatchThrows(w: World, routing: string, puuid: string, ids: seq<string>, k: nat)
    requires k < |ids|
    requires Effect(w, puuid, MatchById(routing, ids[k])).Throw?
    ensures Details(w, routing, puuid, ids).step.Throw?
  {
    if Details(w, routing, puuid, ids).step.Next? {
      DetailsSummaries(w, routing, puuid, ids);
      var s := Details(w, routing, puuid, ids).step.value;
      SummaryCarriesOn(w, routing, puuid, ids[k], s[k]);
    }
  }

  /** A match the loop could summarise is a fetch that carries on. */
  lemma SummaryCarriesOn(w: World, routing: string, puuid: string, id: string, summary: MatchSummary)
    requires SummaryOf(w, routing, puuid, id, summary)
    ensures Effect(w, puuid, MatchById(routing, id)).Next?
  {
    var detail := w.matchDetail(routing, id);
    assert ParticipantIndex(detail.data.info, puuid).Some?;
  }

  /** A request that ends at a match whose details do not name the player
      fails with 500 and the generic body: the TypeError carries no
      response. */
  lemma MissingParticipantFails(name: string, tagline: string, region: Region, w: World, champions: Option<seq<ChampionRecord>>)
    ensures var r := Fetch(name, tagline, region, w, champions);
      var last := r.calls[|r.calls| - 1];
      last.MatchById? && w.matchDetail(last.host, last.matchId).Ok?
      && ParticipantIndex(w.matchDetail(last.host, last.matchId).data.info, PlayerId(w, name, tagline)).None?
      ==> r.reply == Failed(500, JStr(BackendError))
  {
    FirstFailureDecides(name, tagline, region, w, champions);
  }

  /** A snapshot echoes the query's name and tag, takes icon and level from
      the summoner, reports the first solo-queue entry as the rank (null when
      there is none, an empty league list included), the mastery stage's top
      champion, and one summary per match id in the order of the ids. */
  lemma SnapshotContents(name: string, tagline: string, region: Region, w: World, champions: Option<seq<ChampionRecord>>)
    requires Fetch(name, tagline, region, w, champions).reply.Snapshot?
    ensures var s := Fetch(name, tagline, region, w, champions).reply;
      var puuid := PlayerId(w, name, tagline);
      var summoner := w.summoner(region.platform, puuid);
      var league := w.league(region.platform, SummonerId(w, region, puuid));
      var ids := w.matchIds(region.routing, puuid, 0, MatchWindow);
      s.name == name && s.tagline == tagline
      && summoner.Ok? && s.profileIconId == summoner.data.profileIconId
      && s.summonerLevel == summoner.data.summonerLevel
      && league.Ok? && s.rank == RankedSolo(league.data)
      && MasteryStage(w.mastery(region.platform, SummonerId(w, region, puuid)), champions) == Next(s.topChampion)
      && ids.Ok? && |s.recentMatches| == |ids.data|
      && forall k :: 0 <= k < |ids.data| ==>
        SummaryOf(w, region.routing, puuid, ids.data[k], s.recentMatches[k])
  {
    var puuid := PlayerId(w, name, tagline);
    var ids := w.matchIds(region.routing, puuid, 0, MatchWindow);
    DetailsSummaries(w, region.routing, puuid, ids.data);
  }

  /** A mastery failure other than 403 fails the whole request after the
      first four calls, with that failure's status and body. */
  lemma OtherMasteryErrorFails(name: string, tagline: string, region: Region, w: World, champions: Option<seq<ChampionRecord>>)
    requires w.account(AccountHost, name, tagline).Ok?
    requires w.summoner(region.platform, PlayerId(w, name, tagline)).Ok?
    requires w.league(region.platform, SummonerId(w, region, PlayerId(w, name, tagline))).Ok?
    requires w.mastery(region.platform, SummonerId(w, region, PlayerId(w, name, tagline))).Fail?
    requires !IsForbidden(w.mastery(region.platform, SummonerId(w, region, PlayerId(w, name, tagline))).response)
    ensures Fetch(name, tagline, region, w, champions) == Run(
      Caught(w.mastery(region.platform, SummonerId(w, region, PlayerId(w, name, tagline))).response),
      Plan(name, tagline, region, w)[..4])
  {
  }

  /** The match loop reads only the match endpoint and the date formatting,
      so worlds that agree on those give the same loop. */
  lemma {:induction false} DetailsReadOnlyMatches(w1: World, w2: World, routing: string, puuid: string, ids: seq<string>)
    requires w1.matchDetail == w2.matchDetail && w1.formatDate == w2.formatDate
    ensures Details(w1, routing, puuid, ids) == Details(w2, routing, puuid, ids)
  {
    if ids != [] {
      DetailsReadOnlyMatches(w1, w2, routing, puuid, ids[..|ids| - 1]);
    }
  }

  /** A mastery endpoint that answers 403 gives the same request, calls and
      reply, as one that answers an empty list: no top champion and the
      pipeline goes on. */
  lemma ForbiddenMasteryLikeEmpty(name: string, tagline: string, region: Region, w: World,
                                  champions: Option<seq<ChampionRecord>>, body: Json)
    ensures
      var forbidden := w.(mastery := (h: string, id: string) => Fail(Some(ErrorResponse(403, body))));
      var empty := w.(mastery := (h: string, id: string) => Ok([]));
      Fetch(name, tagline, region, forbidden, champions) == Fetch(name, tagline, region, empty, champions)
  {
    var forbidden := w.(mastery := (h: string, id: string) => Fail(Some(ErrorResponse(403, body))));
    var empty := w.(mastery := (h: string, id: string) => Ok([]));
    forall routing: string, puuid: string, ids: seq<string>
      ensures Details(forbidden, routing, puuid, ids) == Details(empty, routing, puuid, ids)
    {
      DetailsReadOnlyMatches(forbidden, empty, routing, puuid, ids);
    }
  }

  /** A failed Riot ID lookup (a 404 for an unknown player, say) fails the
      request with that status and body, and no other call is issued. */
  lemma AccountFailureStopsAll(q: Query, w: World, champions: Option<seq<ChampionRecord>>)
    requires ResolveRegion(q.region).Some? && Present(q.name) && Present(q.tagline)
    requires w.account(AccountHost, q.name.value, q.tagline.value).Fail?
    ensures Stats(q, w, champions) == Run(
      Caught(w.account(AccountHost, q.name.value, q.tagline.value).response),
      [AccountByRiotId("europe", q.name.value, q.tagline.value)])
  {
  }

  /** A world for a player "X" on the "kr" region: a flex entry before the
      solo-queue one, two mastery entries, and two matches in which "X" is
      the second participant. */
  function ChallengerWorld(): World {
    World(
      (h: string, n: string, t: string) => Ok(Account("X")),
      (h: string, p: string) => Ok(Summoner("S", 1, 500)),
      (h: string, id: string) => Ok(ChallengerLeague()),
      (h: string, id: string) => Ok([MasteryEntry(7, 500000), MasteryEntry(1, 10)]),
      (h: string, p: string, s: nat, n: nat) => Ok(["KR_1", "KR_2"]),
      (h: string, id: string) => Ok(MatchDetail(ChallengerMatch())),
      (t: int) => "01.01.1970, 00:00")
  }

  function ChallengerLeague(): seq<LeagueEntry> {
    [ LeagueEntry("RANKED_FLEX_SR", "GOLD", "II", 10, 1, 1),
      LeagueEntry(SoloQueue, "CHALLENGER", "I", 1500, 300, 200) ]
  }

  function ChallengerMatch(): MatchInfo {
    MatchInfo(
      [ Participant("Y", "Zed", 2, 10, 1, false),
        Participant("X", "Ahri", 10, 2, 7, true) ],
      0, "CLASSIC", 420)
  }

  /** The match loop of that world completes with one summary per id. */
  lemma ChallengerDetails()
    ensures var d := Details(ChallengerWorld(), "asia", "X", ["KR_1", "KR_2"]);
      d.step.Next? && |d.step.value| == 2
      && d.step.value[0].matchId == "KR_1" && d.step.value[1].matchId == "KR_2"
      && d.calls == [MatchById("asia", "KR_1"), MatchById("asia", "KR_2")]
  {
    var w := ChallengerWorld();
    var ids := ["KR_1", "KR_2"];
    var first := ["KR_1"];
    assert ParticipantIndex(ChallengerMatch(), "X") == Some(1);
    var s1 := Summarize(w, "X", "KR_1", MatchDetail(ChallengerMatch()));
    var s2 := Summarize(w, "X", "KR_2", MatchDetail(ChallengerMatch()));
    assert s1.Next? && s1.value.matchId == "KR_1";
    assert s2.Next? && s2.value.matchId == "KR_2";
    assert w.matchDetail("asia", "KR_1") == Ok(MatchDetail(ChallengerMatch()));
    assert w.matchDetail("asia", "KR_2") == Ok(MatchDetail(ChallengerMatch()));
    var d0 := Details(w, "asia", "X", []);
    assert d0.step == Next([]) && d0.calls == [];
    assert first[..0] == [] && ids[..1] == first;
    var d1 := DetailStep(w, "asia", "X", d0, "KR_1");
    assert Details(w, "asia", "X", first) == d1;
    assert d1.step == Next(d0.step.value + [s1.value]);
    assert d1.calls == d0.calls + [MatchById("asia", "KR_1")];
    assert d1.step.value == [s1.value];
    assert d1.calls == [MatchById("asia", "KR_1")];
    var d2 := DetailStep(w, "asia", "X", d1, "KR_2");
    assert Details(w, "asia", "X", ids) == d2;
    assert d2.step == Next(d1.step.value + [s2.value]);
    assert d2.calls == d1.calls + [MatchById("asia", "KR_2")];
  }

  /** With that world, the request name=Faker, tagline=KR1, region=kr
      yields a snapshot with the CHALLENGER entry as rank, the first mastery
      entry's points, and both matches in order; seven calls are issued. */
  lemma ChallengerScenario(champions: Option<seq<ChampionRecord>>)
    ensures
      var r := Stats(Query(Some("Faker"), Some("KR1"), Some("kr")), ChallengerWorld(), champions);
      r.reply.Snapshot?
      && r.reply.rank.Some? && r.reply.rank.value.tier == "CHALLENGER"
      && r.reply.topChampion.Some? && r.reply.topChampion.value.points == 500000
      && |r.reply.recentMatches| == 2
      && r.reply.recentMatches[0].matchId == "KR_1" && r.reply.recentMatches[1].matchId == "KR_2"
      && |r.calls| == 7
  {
    var w := ChallengerWorld();
    var ids := ["KR_1", "KR_2"];
    ChallengerDetails();
    var d := Details(w, "asia", "X", ids);
    assert RankedSolo(ChallengerLeague()) == Some(ChallengerLeague()[1]);
    var masteries := [MasteryEntry(7, 500000), MasteryEntry(1, 10)];
    var top := MasteryStage(Ok(masteries), champions);
    assert top.Next? && top.value.Some? && top.value.value.points == 500000;
    assert w.account("europe", "Faker", "KR1") == Ok(Account("X"));
    assert w.summoner("kr", "X") == Ok(Summoner("S", 1, 500));
    assert w.league("kr", "S") == Ok(ChallengerLeague());
    assert w.mastery("kr", "S") == Ok(masteries);
    assert w.matchIds("asia", "X", 0, MatchWindow) == Ok(ids);
    RequestGuards(Query(Some("Faker"), Some("KR1"), Some("kr")), w, champions);
    var r := Fetch("Faker", "KR1", Region("kr", "asia"), w, champions);
    assert |r.calls| == 7;
    assert r.reply == Snapshot("Faker", "KR1", 1, 500, Some(ChallengerLeague()[1]), top.value, d.step.value);
  }
}
