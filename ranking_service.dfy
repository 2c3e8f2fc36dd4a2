/** The leaderboard service (app/api/services/rankingService.ts). It has no
    try/catch: every request failure reaches the caller. */
module RankingService {
  import opened Wrappers
  import opened JsRuntime
  import opened ApiClient

  datatype RankingItem = RankingItem(
    id: string,
    name: string,
    date: string,
    time: string,
    position: int,
    avatarUrl: Option<string>)

  const ResultSearch: string := "/result/search"

  /** Sorted by play time; the server is trusted to return that order. */
  const DefaultSearchParams: SearchParams := SearchParams(1, 20, "duration", None, [])

  /** `getUserRanking(userId)`: GET `/result/user/{userId}`, the outcome
      passed on unchanged (a `null` body is a successful `None`). */
  function GetUserRanking(config: Option<string>, userId: string, server: Server<Option<RankingItem>>): (r: Result<Option<RankingItem>, JsError>)
    ensures r == Settle(server(MakeRequest(config, "/result/user/" + userId, GetOptions(None))))
  {
    Get(config, "/result/user/" + userId, None, server)
  }

  /** `getAllRankings()`: POST exactly the defaults to `/result/search`. */
  function GetAllRankings(config: Option<string>, server: Server<seq<RankingItem>>): (r: Result<seq<RankingItem>, JsError>)
    ensures r == Settle(server(MakeRequest(config, ResultSearch, PostOptions(Some(DefaultSearchParams), None))))
  {
    Post(config, ResultSearch, Some(DefaultSearchParams), None, server)
  }

  /** `getTopRankings(limit = 3)`: `allRankings.slice(0, limit)`, no re-sort. */
  function GetTopRankings(config: Option<string>, server: Server<seq<RankingItem>>, limit: int := 3): (r: Result<seq<RankingItem>, JsError>)
    ensures GetAllRankings(config, server).Failure? ==> r == GetAllRankings(config, server)
    ensures GetAllRankings(config, server).Success? ==>
      var all := GetAllRankings(config, server).value;
      && r.Success?
      && r.value <= all
      && (limit >= 0 ==> |r.value| == Min(limit, |all|))
  {
    match GetAllRankings(config, server)
    case Failure(e) => Failure(e)
    case Success(all) => Success(SliceTo(all, limit))
  }

  /** Without an argument the top three are taken. */
  lemma TopRankingsDefaultsToThree(config: Option<string>, server: Server<seq<RankingItem>>)
    ensures GetTopRankings(config, server) == GetTopRankings(config, server, 3)
    ensures GetAllRankings(config, server).Success? ==>
      GetTopRankings(config, server).value == SliceTo(GetAllRankings(config, server).value, 3)
  {
  }

  /** A failed request is never turned into an empty list. */
  lemma RankingFailuresPropagate(config: Option<string>, server: Server<seq<RankingItem>>, limit: int)
    requires !server(MakeRequest(config, ResultSearch, PostOptions(Some(DefaultSearchParams), None))).Ok?
    ensures GetAllRankings(config, server).Failure?
    ensures GetTopRankings(config, server, limit).Failure?
  {
  }
}
