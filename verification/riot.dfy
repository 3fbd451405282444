/** The Riot API as the stats endpoint uses it: the records it reads from
    each response, the outbound calls it issues, and a world of canned
    responses standing for the network. */
module Riot {
  import opened Js
  import opened Axios

  /** account-v1 Riot ID lookup: the stable player id. */
  datatype Account = Account(puuid: string)

  /** summoner-v4 profile. */
  datatype Summoner = Summoner(id: string, profileIconId: int, summonerLevel: int)

  /** One league-v4 entry, returned to the client unchanged as `rank`. */
  datatype LeagueEntry = LeagueEntry(
    queueType: string, tier: string, rank: string,
    leaguePoints: int, wins: int, losses: int)

  /** One champion-mastery-v4 entry (the list comes highest points first). */
  datatype MasteryEntry = MasteryEntry(championId: int, championPoints: int)

  datatype Participant = Participant(
    puuid: string, championName: string,
    kills: int, deaths: int, assists: int, win: bool)

  datatype MatchInfo = MatchInfo(
    participants: seq<Participant>, gameStartTimestamp: int,
    gameMode: string, queueId: int)

  /** match-v5 match body. */
  datatype MatchDetail = MatchDetail(info: MatchInfo)

  /** An outbound request: the host cluster it is sent to and what it asks for. */
  datatype Call =
    | AccountByRiotId(host: string, gameName: string, tagLine: string)
    | SummonerByPuuid(host: string, puuid: string)
    | LeagueBySummoner(host: string, summonerId: string)
    | MasteryBySummoner(host: string, summonerId: string)
    | MatchIdsByPuuid(host: string, puuid: string, start: nat, count: nat)
    | MatchById(host: string, matchId: string)

  /** The answer every endpoint would give to each request, and the
      locale-dependent formatting of a match start time. */
  datatype World = World(
    account: (string, string, string) -> Response<Account>,
    summoner: (string, string) -> Response<Summoner>,
    league: (string, string) -> Response<seq<LeagueEntry>>,
    mastery: (string, string) -> Response<seq<MasteryEntry>>,
    matchIds: (string, string, nat, nat) -> Response<seq<string>>,
    matchDetail: (string, string) -> Response<MatchDetail>,
    formatDate: int -> string)
}
