/** The species encyclopedia service (app/api/services/speciesService.ts):
    envelope unwrapping, image-URL derivation and the category table. */
module SpeciesService {
  import opened Wrappers
  import opened JsRuntime
  import opened ApiClient
  import Seqs

  /** An organism record as the API returns it; `imageUrl` is added here. */
  datatype Species = Species(
    id: int,
    name: string,
    organism_type: string,
    level: int,
    description: string,
    short_description: string,
    image_id: string,
    sound_id: string,
    species_type: string,
    status: string,
    created_at: int,
    updated_at: int,
    imageUrl: Option<string>)

  /** The value under one envelope key: missing, present but not an array,
      or an array of records. */
  datatype Field<T> = Absent | NonArray | ArrayOf(items: seq<T>)

  /** A decoded response body: a bare array, an object (its three envelope
      keys and the object itself read as a record), or `null`. */
  datatype ApiResponse<T> =
    | ArrayBody(items: seq<T>)
    | ObjectBody(underscoreData: Field<T>, data: Field<T>, results: Field<T>, record: T)
    | NullBody

  const All: string := "全部"
  const Bird: string := "鳥類"
  const Bug: string := "蟲類"
  const Other: string := "其他"

  const OrganismSearch: string := "/organism/search"
  const DefaultImage: string := "/species/default.jpg"

  const DefaultSearchParams: SearchParams := SearchParams(1, 20, "-id", None, [])

  /** `CATEGORY_TO_ORGANISM_TYPE[category]`: the three labels of the table
      and nothing else; the "all" label is not in it. */
  function CategoryToOrganismType(category: string): (r: Option<string>)
    ensures r == Some("0") <==> category == Bird
    ensures r == Some("1") <==> category == Bug
    ensures r == Some("2") <==> category == Other
    ensures r.None? <==> category != Bird && category != Bug && category != Other
  {
    if category == Bird then Some("0")
    else if category == Bug then Some("1")
    else if category == Other then Some("2")
    else None
  }

  lemma AllIsNotACategory()
    ensures CategoryToOrganismType(All).None?
  {
  }

  /** `getDataFromResponse`: the first array among `_data`, `data` and
      `results`, else the response itself when it is an array, else `[]`.
      Reading a key of `null` throws (`None`). */
  function GetDataFromResponse<T>(response: ApiResponse<T>): (r: Option<seq<T>>)
    ensures r.None? <==> response.NullBody?
    ensures response.ArrayBody? ==> r == Some(response.items)
    ensures response.ObjectBody? ==>
      r == Some(if response.underscoreData.ArrayOf? then response.underscoreData.items
                else if response.data.ArrayOf? then response.data.items
                else if response.results.ArrayOf? then response.results.items
                else [])
  {
    match response
    case NullBody => None
    case ArrayBody(items) => Some(items)
    case ObjectBody(underscoreData, data, results, _) =>
      if underscoreData.ArrayOf? then Some(underscoreData.items)
      else if data.ArrayOf? then Some(data.items)
      else if results.ArrayOf? then Some(results.items)
      else Some([])
  }

  /** The priority order restated as a search: the result is the items of
      the first of `[_data, data, results]` that holds an array. */
  lemma GetDataFromResponseFindsFirstArrayKey<T>(u: Field<T>, d: Field<T>, res: Field<T>, record: T)
    ensures var first := Seqs.Find([u, d, res], (f: Field<T>) => f.ArrayOf?);
      GetDataFromResponse(ObjectBody(u, d, res, record)) == Some(if first.Some? then first.value.items else [])
  {
    var isArray := (f: Field<T>) => f.ArrayOf?;
    var fields := [u, d, res];
    assert fields[1..] == [d, res] && fields[1..][1..] == [res] && [res][1..] == [];
    if !u.ArrayOf? {
      assert Seqs.Find(fields, isArray) == Seqs.Find([d, res], isArray);
      if !d.ArrayOf? {
        assert Seqs.Find([d, res], isArray) == Seqs.Find([res], isArray);
        assert Seqs.Find([res], isArray) == if res.ArrayOf? then Some(res) else Seqs.Find([], isArray);
      }
    }
  }

  /** A key holding a non-array value is passed over exactly like a missing key. */
  lemma NonArrayKeyIsSkipped<T>(u: Field<T>, d: Field<T>, res: Field<T>, record: T)
    requires !u.ArrayOf?
    ensures GetDataFromResponse(ObjectBody(u, d, res, record)) == GetDataFromResponse(ObjectBody(Absent, d, res, record))
    ensures !d.ArrayOf? ==>
      GetDataFromResponse(ObjectBody(u, d, res, record)) == GetDataFromResponse(ObjectBody(Absent, Absent, res, record))
  {
  }

  /** An earlier envelope key wins whatever the later keys hold. */
  lemma EarlierKeyWins<T>(items: seq<T>, d: Field<T>, res: Field<T>, record: T)
    ensures GetDataFromResponse(ObjectBody(ArrayOf(items), d, res, record)) == Some(items)
    ensures !d.ArrayOf? ==> GetDataFromResponse(ObjectBody(d, ArrayOf(items), res, record)) == Some(items)
  {
  }

  /** `species.image_id ? `${getBaseUrl()}/file/${image_id}/download` : '/species/default.jpg'`. */
  function ImageUrlFor(config: Option<string>, imageId: string): (url: string)
    ensures imageId == "" ==> url == DefaultImage
    ensures imageId != "" ==> url == BaseUrl(config) + "/file/" + imageId + "/download"
  {
    if imageId != "" then BaseUrl(config) + "/file/" + imageId + "/download" else DefaultImage
  }

  /** `processSpeciesData`: `{ ...species, imageUrl }`. */
  function ProcessSpeciesData(config: Option<string>, species: Species): (r: Species)
    ensures r.imageUrl == Some(ImageUrlFor(config, species.image_id))
    ensures r.(imageUrl := species.imageUrl) == species
  {
    species.(imageUrl := Some(ImageUrlFor(config, species.image_id)))
  }

  /** Processing a processed record again changes nothing. */
  lemma ProcessSpeciesDataIdempotent(config: Option<string>, species: Species)
    ensures ProcessSpeciesData(config, ProcessSpeciesData(config, species)) == ProcessSpeciesData(config, species)
  {
  }

  /** The asset id of a derived download URL. */
  function DownloadAssetId(base: string, url: string): string
    requires |url| >= |base| + |"/file/"| + |"/download"|
  {
    url[|base| + |"/file/"|..|url| - |"/download"|]
  }

  /** Round trip: the asset id can be read back from the derived URL, and a
      derived URL is never the local default image. */
  lemma ImageUrlRoundTrip(config: Option<string>, species: Species)
    requires species.image_id != ""
    ensures var url := ProcessSpeciesData(config, species).imageUrl.value;
      && |url| >= |BaseUrl(config)| + |"/file/"| + |"/download"|
      && DownloadAssetId(BaseUrl(config), url) == species.image_id
      && url != DefaultImage
  {
    var base, id := BaseUrl(config), species.image_id;
    var url := base + "/file/" + id + "/download";
    assert url[|base| + 6..|url| - 9] == id;
    assert url[|url| - 9..] == "/download";
    assert DefaultImage[|DefaultImage| - 9..] != "/download";
  }

  lemma ImageUrlExample(s: Species)
    requires s.image_id == "42"
    ensures ProcessSpeciesData(Some("https://api.example.com"), s).imageUrl
      == Some("https://api.example.com/file/42/download")
    ensures ProcessSpeciesData(Some("https://api.example.com"), s.(image_id := "")).imageUrl
      == Some(DefaultImage)
  {
    assert "https://api.example.com" + "/file/" + "42" + "/download" == "https://api.example.com/file/42/download";
  }

  /** `speciesData.map(processSpeciesData)`. */
  function ProcessAll(config: Option<string>, items: seq<Species>): (r: seq<Species>)
    ensures |r| == |items|
    ensures forall i :: 0 <= i < |items| ==> r[i] == ProcessSpeciesData(config, items[i])
  {
    seq(|items|, i requires 0 <= i < |items| => ProcessSpeciesData(config, items[i]))
  }

  /** The shared tail of the list operations: unwrap, process, and degrade
      every failure (request error or a `null` body) to `[]`. */
  function SpeciesList(config: Option<string>, outcome: Result<ApiResponse<Species>, JsError>): (r: seq<Species>)
    ensures outcome.Failure? ==> r == []
    ensures outcome.Success? && outcome.value.NullBody? ==> r == []
    ensures outcome.Success? && GetDataFromResponse(outcome.value).Some? ==>
      var items := GetDataFromResponse(outcome.value).value;
      |r| == |items| && forall i :: 0 <= i < |items| ==> r[i] == ProcessSpeciesData(config, items[i])
  {
    match outcome
    case Failure(_) => []
    case Success(response) =>
      match GetDataFromResponse(response)
      case None => []
      case Some(items) => ProcessAll(config, items)
  }

  /** `getAllSpecies()`: POST the default search to `/organism/search`. */
  function GetAllSpecies(config: Option<string>, server: Server<ApiResponse<Species>>): (r: seq<Species>)
    ensures r == SpeciesList(config, Settle(server(MakeRequest(config, OrganismSearch, PostOptions(Some(DefaultSearchParams), None)))))
  {
    SpeciesList(config, Post(config, OrganismSearch, Some(DefaultSearchParams), None, server))
  }

  /** `getSpeciesByCategory(category)`: the "all" label delegates to the
      unfiltered search, an unknown label gives `[]`, a known label posts
      the defaults plus `organismTypes: [code]`. */
  function GetSpeciesByCategory(config: Option<string>, category: string, server: Server<ApiResponse<Species>>): (r: seq<Species>)
    ensures category == All ==> r == GetAllSpecies(config, server)
    ensures category != All && CategoryToOrganismType(category).None? ==> r == []
    ensures CategoryToOrganismType(category).Some? ==>
      var params := DefaultSearchParams.(organismTypes := Some([CategoryToOrganismType(category).value]));
      r == SpeciesList(config, Settle(server(MakeRequest(config, OrganismSearch, PostOptions(Some(params), None)))))
  {
    if category == All then GetAllSpecies(config, server)
    else
      match CategoryToOrganismType(category)
      case None => []
      case Some(organismType) =>
        var params := DefaultSearchParams.(organismTypes := Some([organismType]));
        SpeciesList(config, Post(config, OrganismSearch, Some(params), None, server))
  }

  /** An unknown label never consults the server: the answer is `[]`
      whatever the server would have said. */
  lemma UnknownCategoryIssuesNoRequest(config: Option<string>, category: string, s1: Server<ApiResponse<Species>>, s2: Server<ApiResponse<Species>>)
    requires category != All && CategoryToOrganismType(category).None?
    ensures GetSpeciesByCategory(config, category, s1) == GetSpeciesByCategory(config, category, s2) == []
  {
  }

  /** `getSpeciesById(id)`: GET `/organism/{id}`; an object is processed,
      an array, `null` or a failed request gives `null`. */
  function GetSpeciesById(config: Option<string>, id: int, server: Server<ApiResponse<Species>>): (r: Option<Species>)
    ensures var outcome := Settle(server(MakeRequest(config, "/organism/" + IntToString(id), GetOptions(None))));
      && (r.Some? <==> outcome.Success? && outcome.value.ObjectBody?)
      && (r.Some? ==> r.value == ProcessSpeciesData(config, outcome.value.record))
  {
    match Get(config, "/organism/" + IntToString(id), None, server)
    case Failure(_) => None
    case Success(response) =>
      if response.ObjectBody? then Some(ProcessSpeciesData(config, response.record)) else None
  }
}
