/** The personal-result service (app/api/services/resultService.ts): the
    player record, its aggregation into one best attempt with every species
    met, and the rank and player-count lookups with their defaults. */
module ResultService {
  import opened Wrappers
  import opened JsRuntime
  import opened ApiClient
  import opened Seqs

  /** One play-through. `other_organism_id` is the outcome of
      `Object.values(JSON.parse(...))` on the stored JSON text: `None` when
      that throws. */
  datatype Attempt = Attempt(
    id: int,
    organism_id: string,
    other_organism_id: Option<seq<string>>,
    duration: int)

  /** A player record; `result` is `None` when the field is missing. */
  datatype UserData = UserData(
    id: string,
    username: string,
    level: string,
    duration: int,
    result: Option<seq<Attempt>>)

  datatype ParsedResult = ParsedResult(
    id: int,
    organism_id: string,
    other_organism_id: seq<string>,
    duration: int)

  /** `getUserData(id)`: GET `/player/{id}?expand=result`, `null` on failure. */
  function GetUserData(config: Option<string>, id: string, server: Server<Option<UserData>>): (r: Option<UserData>)
    ensures var outcome := Settle(server(MakeRequest(config, "/player/" + id + "?expand=result", GetOptions(None))));
      && (outcome.Failure? ==> r.None?)
      && (outcome.Success? ==> r == outcome.value)
  {
    match Get(config, "/player/" + id + "?expand=result", None, server)
    case Failure(_) => None
    case Success(data) => data
  }

  /** The attempts `parseUserResult` scans; none when the record or its
      `result` field is missing. */
  function AttemptsOf(userData: Option<UserData>): seq<Attempt>
  {
    if userData.Some? && userData.value.result.Some? then userData.value.result.value else []
  }

  /** `k` is the attempt a strict `<` scan ends on: no attempt is shorter,
      and every earlier one is strictly longer. */
  ghost predicate IsFirstShortest(attempts: seq<Attempt>, k: int)
  {
    && 0 <= k < |attempts|
    && (forall j :: 0 <= j < |attempts| ==> attempts[k].duration <= attempts[j].duration)
    && (forall j :: 0 <= j < k ==> attempts[j].duration > attempts[k].duration)
  }

  lemma FirstShortestIsUnique(attempts: seq<Attempt>, k1: int, k2: int)
    requires IsFirstShortest(attempts, k1) && IsFirstShortest(attempts, k2)
    ensures k1 == k2
  {
    assert attempts[k1].duration <= attempts[k2].duration && attempts[k2].duration <= attempts[k1].duration;
  }

  /** The identifiers one attempt contributes: none when its field failed to parse. */
  function Organisms(attempt: Attempt): seq<string>
  {
    if attempt.other_organism_id.Some? then attempt.other_organism_id.value else []
  }

  /** Every identifier of every attempt, in scan order, repeats included. */
  function AllOrganisms(attempts: seq<Attempt>): seq<string>
  {
    if attempts == [] then []
    else AllOrganisms(attempts[..|attempts| - 1]) + Organisms(attempts[|attempts| - 1])
  }

  /** The contents of `allOtherOrganisms` after the scan, as `Array.from` lists it. */
  function OtherOrganisms(attempts: seq<Attempt>): (r: seq<string>)
    ensures |r| <= |AllOrganisms(attempts)|
  {
    Dedup(AllOrganisms(attempts))
  }

  function Summary(best: Attempt, others: seq<string>): ParsedResult
  {
    ParsedResult(best.id, best.organism_id, others, best.duration)
  }

  /** `parseUserResult(userData)`: no data, no `result` field or no attempts
      give `[]`; otherwise one record carrying the id, species and duration
      of the first shortest attempt and the organisms of all attempts. */
  method ParseUserResult(userData: Option<UserData>) returns (r: seq<ParsedResult>)
    ensures AttemptsOf(userData) == [] ==> r == []
    ensures AttemptsOf(userData) != [] ==>
      var attempts := AttemptsOf(userData);
      |r| == 1 &&
      exists k :: IsFirstShortest(attempts, k) && r[0] == Summary(attempts[k], OtherOrganisms(attempts))
  {
    if userData.None? || userData.value.result.None? || |userData.value.result.value| == 0 {
      return [];
    }
    var results := userData.value.result.value;
    var shortestResult := results[0];
    ghost var k := 0;
    var allOtherOrganisms: seq<string> := [];
    ghost var seen: seq<string> := [];
    var i := 0;
    while i < |results|
      invariant 0 <= i <= |results|
      invariant ScannedUpTo(results, i, k) && shortestResult == results[k]
      invariant seen == AllOrganisms(results[..i])
      invariant allOtherOrganisms == Dedup(seen)
    {
      var result := results[i];
      ScanStep(results, i, k);
      if result.duration < shortestResult.duration {
        shortestResult := result;
        k := i;
      }
      AllOrganismsStep(results, i);
      match result.other_organism_id {
        case None =>
          // the parse error is logged and this attempt adds nothing
          assert seen + Organisms(result) == seen;
        case Some(orgs) =>
          allOtherOrganisms := AddAll(allOtherOrganisms, seen, orgs);
      }
      seen := seen + Organisms(result);
      assert seen == AllOrganisms(results[..i + 1]);
      i := i + 1;
    }
    assert results[..|results|] == results;
    r := [ParsedResult(shortestResult.id, shortestResult.organism_id, allOtherOrganisms, shortestResult.duration)];
    assert IsFirstShortest(results, k);
  }

  /** After scanning `attempts[..i]` the strict `<` comparison holds the
      first shortest attempt of that prefix at index `k`. */
  ghost predicate ScannedUpTo(attempts: seq<Attempt>, i: int, k: int)
  {
    && 0 <= k < |attempts| && k <= i <= |attempts|
    && (forall j :: 0 <= j < i ==> attempts[k].duration <= attempts[j].duration)
    && (forall j :: 0 <= j < k ==> attempts[j].duration > attempts[k].duration)
  }

  lemma ScanStep(attempts: seq<Attempt>, i: int, k: int)
    requires i < |attempts| && ScannedUpTo(attempts, i, k)
    ensures attempts[i].duration < attempts[k].duration ==> ScannedUpTo(attempts, i + 1, i)
    ensures attempts[i].duration >= attempts[k].duration ==> ScannedUpTo(attempts, i + 1, k)
  {
  }

  /** `orgs.forEach(org => allOtherOrganisms.add(org))` on a set that holds
      the de-duplicated `seen` stream. */
  method AddAll(acc: seq<string>, ghost seen: seq<string>, orgs: seq<string>) returns (r: seq<string>)
    requires acc == Dedup(seen)
    ensures r == Dedup(seen + orgs)
  {
    r := acc;
    var j := 0;
    assert seen + orgs[..0] == seen;
    while j < |orgs|
      invariant 0 <= j <= |orgs|
      invariant r == Dedup(seen + orgs[..j])
    {
      ghost var before := seen + orgs[..j];
      assert (before + [orgs[j]])[..|before|] == before;
      assert seen + orgs[..j + 1] == before + [orgs[j]];
      DedupSpec(before);
      if orgs[j] !in r {
        r := r + [orgs[j]];
      }
      j := j + 1;
    }
    assert orgs[..|orgs|] == orgs;
  }

  lemma AllOrganismsStep(attempts: seq<Attempt>, i: int)
    requires 0 <= i < |attempts|
    ensures AllOrganisms(attempts[..i + 1]) == AllOrganisms(attempts[..i]) + Organisms(attempts[i])
  {
    assert attempts[..i + 1][..i] == attempts[..i];
  }

  lemma {:induction false} AllOrganismsAppend(a: seq<Attempt>, b: seq<Attempt>)
    ensures AllOrganisms(a + b) == AllOrganisms(a) + AllOrganisms(b)
    decreases |b|
  {
    if b == [] {
      assert a + b == a;
    } else {
      var init := b[..|b| - 1];
      assert (a + b)[..|a + b| - 1] == a + init;
      assert (a + b)[|a + b| - 1] == b[|b| - 1];
      AllOrganismsAppend(a, init);
    }
  }

  lemma {:induction false} AllOrganismsMembers(attempts: seq<Attempt>, x: string)
    ensures x in AllOrganisms(attempts) <==>
      exists i :: 0 <= i < |attempts| && x in Organisms(attempts[i])
  {
    if attempts != [] {
      var init := attempts[..|attempts| - 1];
      AllOrganismsMembers(init, x);
      assert forall i :: 0 <= i < |init| ==> init[i] == attempts[i];
    }
  }

  /** The organism list is the set union of every parsed attempt's values,
      winners and non-winners alike, each listed once. */
  lemma OtherOrganismsIsUnion(attempts: seq<Attempt>)
    ensures NoDuplicates(OtherOrganisms(attempts))
    ensures forall x :: x in OtherOrganisms(attempts) <==>
      exists i :: 0 <= i < |attempts| && x in Organisms(attempts[i])
  {
    DedupSpec(AllOrganisms(attempts));
    forall x
      ensures x in OtherOrganisms(attempts) <==> exists i :: 0 <= i < |attempts| && x in Organisms(attempts[i])
    {
      AllOrganismsMembers(attempts, x);
    }
  }

  /** An attempt whose field failed to parse adds no organisms: the scan
      result is that of the attempts around it. */
  lemma FailedParseContributesNothing(attempts: seq<Attempt>, i: int)
    requires 0 <= i < |attempts| && attempts[i].other_organism_id.None?
    ensures OtherOrganisms(attempts) == Dedup(AllOrganisms(attempts[..i]) + AllOrganisms(attempts[i + 1..]))
  {
    var before, after := attempts[..i], attempts[i + 1..];
    assert attempts == (before + [attempts[i]]) + after;
    AllOrganismsAppend(before + [attempts[i]], after);
    AllOrganismsStep(attempts, i);
    assert attempts[..i + 1] == before + [attempts[i]];
    assert AllOrganisms(before + [attempts[i]]) == AllOrganisms(before);
  }

  /** Whether an attempt's field parses plays no part in choosing the winner. */
  lemma ShortestIgnoresParseOutcome(attempts: seq<Attempt>, i: int, v: Option<seq<string>>, k: int)
    requires 0 <= i < |attempts|
    ensures IsFirstShortest(attempts, k) <==>
      IsFirstShortest(attempts[i := attempts[i].(other_organism_id := v)], k)
  {
    var changed := attempts[i := attempts[i].(other_organism_id := v)];
    assert forall j :: 0 <= j < |attempts| ==> changed[j].duration == attempts[j].duration;
  }

  /** The example of durations 30, 10, 20 with organisms {a: X}, {b: Y}, {c: X}:
      attempt 2 wins and the organisms are X then Y. */
  lemma ThreeAttemptsExample()
    ensures var attempts := [Attempt(1, "p", Some(["X"]), 30), Attempt(2, "q", Some(["Y"]), 10), Attempt(3, "s", Some(["X"]), 20)];
      IsFirstShortest(attempts, 1) && OtherOrganisms(attempts) == ["X", "Y"]
  {
    var attempts := [Attempt(1, "p", Some(["X"]), 30), Attempt(2, "q", Some(["Y"]), 10), Attempt(3, "s", Some(["X"]), 20)];
    assert attempts[..2][..1] == attempts[..1] && attempts[..1][..0] == [];
    assert AllOrganisms(attempts[..1]) == ["X"];
    assert AllOrganisms(attempts[..2]) == ["X", "Y"];
    assert AllOrganisms(attempts) == ["X", "Y", "X"];
    assert ["X", "Y", "X"][..2] == ["X", "Y"] && ["X", "Y"][..1] == ["X"] && ["X"][..0] == [];
  }

  /** The reply of `/result/rank/{id}`: `None` for a `null` body. */
  datatype RankReply = RankReply(rank: Option<int>)

  /** `response?.rank || 1`. */
  function RankOrDefault(reply: Option<RankReply>): (r: int)
    ensures r != 0
    ensures reply.Some? && reply.value.rank.Some? && reply.value.rank.value != 0 ==> r == reply.value.rank.value
    ensures reply.None? || reply.value.rank.None? || reply.value.rank.value == 0 ==> r == 1
  {
    if reply.Some? && reply.value.rank.Some? && reply.value.rank.value != 0 then reply.value.rank.value else 1
  }

  /** `getRanking(resultId)`: the rank, 1 when it is missing or 0, `null`
      when the request fails. */
  function GetRanking(config: Option<string>, resultId: string, server: Server<Option<RankReply>>): (r: Option<int>)
    ensures var outcome := Settle(server(MakeRequest(config, "/result/rank/" + resultId, GetOptions(None))));
      && (r.None? <==> outcome.Failure?)
      && (r.Some? ==> r.value == RankOrDefault(outcome.value) && r.value != 0)
  {
    match Get(config, "/result/rank/" + resultId, None, server)
    case Failure(_) => None
    case Success(reply) => Some(RankOrDefault(reply))
  }

  datatype Meta = Meta(totalCount: Option<int>)

  /** The reply of a search: its `_meta` object, when present. */
  datatype SearchMeta = SearchMeta(meta: Option<Meta>)

  /** A one-record search, sent only to read the metadata. */
  const TotalCountParams: SearchParams :=
    SearchParams(1, 1, "-id", None, ["fields", "expand", "keyword", "statusValues"])

  /** `response._meta?.totalCount || 0`; reading `_meta` of a `null` body
      throws, which the caller's catch also turns into 0. */
  function CountOrZero(reply: Option<SearchMeta>): (r: int)
    ensures r == 0 || (reply.Some? && reply.value.meta.Some? && reply.value.meta.value.totalCount == Some(r))
    ensures reply.Some? && reply.value.meta.Some? && reply.value.meta.value.totalCount.Some? ==>
      r == reply.value.meta.value.totalCount.value
  {
    if reply.Some? && reply.value.meta.Some? && reply.value.meta.value.totalCount.Some?
    then reply.value.meta.value.totalCount.value
    else 0
  }

  /** `getTotalPlayerCount()`: POST a page-size-1 search to `/result/search`
      and read the total, 0 on any failure. */
  function GetTotalPlayerCount(config: Option<string>, server: Server<Option<SearchMeta>>): (r: int)
    ensures var outcome := Settle(server(MakeRequest(config, "/result/search", PostOptions(Some(TotalCountParams), None))));
      && (outcome.Failure? ==> r == 0)
      && (outcome.Success? ==> r == CountOrZero(outcome.value))
  {
    match Post(config, "/result/search", Some(TotalCountParams), None, server)
    case Failure(_) => 0
    case Success(reply) => CountOrZero(reply)
  }
}
