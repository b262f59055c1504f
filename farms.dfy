/** The farm directory and the resolvers that turn a caller's FarmAccess and
    the request's `farm_url` / `farm_id` parameters into the farms the
    request may act on. The directory is the farm table, in table order. */
module Farms {
  import opened Common

  /** A row of the farm table, with the fields the farm utilities read or
      write. */
  datatype Farm = Farm(
    id: int,
    url: string,
    farmName: string,
    active: bool,
    scope: Option<string>,
    isAuthorized: bool,
    authError: Option<string>,
    lastAccessed: Option<int>
  )

  /** The caller's access grant: every farm, or the farms of an optional id
      list. */
  datatype FarmAccess = FarmAccess(allFarms: bool, farmIdList: Option<seq<int>>)

  /** `FarmAccess.can_access_farm`. Its definition lives in
      app/schemas/token.py, which is not part of this model; it is taken to
      be: every farm when `all_farms`, otherwise membership in
      `farm_id_list`. */
  predicate CanAccessFarm(access: FarmAccess, farmId: int) {
    access.allFarms || (access.farmIdList.Some? && farmId in access.farmIdList.value)
  }

  /** What a resolver yields: a value, or the HTTP error it raises. */
  datatype Resolved<T> = Ok(value: T) | NotFound | Unauthorized

  /** The HTTP status of a resolver error. */
  function StatusCode<T>(r: Resolved<T>): (code: int)
    requires !r.Ok?
    ensures r.NotFound? ==> code == 404
    ensures r.Unauthorized? ==> code == 401
  {
    if r.NotFound? then 404 else 401
  }

  /** The `active=True` filter of the table queries. */
  predicate Listed(f: Farm, activeOnly: bool) {
    !activeOnly || f.active
  }

  predicate MatchesUrl(f: Farm, url: string, activeOnly: bool) {
    f.url == url && Listed(f, activeOnly)
  }

  predicate HasId(dir: seq<Farm>, id: int) {
    exists f :: f in dir && f.id == id
  }

  /** `id` is the primary key of the farm table. */
  predicate UniqueIds(dir: seq<Farm>) {
    forall i, j :: 0 <= i < j < |dir| ==> dir[i].id != dir[j].id
  }

  /** `crud.farm.get_by_url`: the first listed farm with that URL. */
  function FindByUrl(dir: seq<Farm>, url: string, activeOnly: bool): (r: Option<Farm>)
    ensures r.None? <==> forall f :: f in dir ==> !MatchesUrl(f, url, activeOnly)
    ensures r.Some? ==> r.value in dir && MatchesUrl(r.value, url, activeOnly)
  {
    if dir == [] then None
    else if MatchesUrl(dir[0], url, activeOnly) then Some(dir[0])
    else FindByUrl(dir[1..], url, activeOnly)
  }

  /** `crud.farm.get_by_id`: the farm with that id (inactive ones included). */
  function FindById(dir: seq<Farm>, id: int): (r: Option<Farm>)
    ensures r.None? <==> !HasId(dir, id)
    ensures r.Some? ==> r.value in dir && r.value.id == id
  {
    if dir == [] then None
    else if dir[0].id == id then Some(dir[0])
    else FindById(dir[1..], id)
  }

  /** `crud.farm.get_multi` (ids = None) and `crud.farm.get_by_multi_id`
      (ids = Some(list)): the listed farms, restricted to the ids when given,
      in table order. */
  function Select(dir: seq<Farm>, ids: Option<seq<int>>, activeOnly: bool): (r: seq<Farm>)
    ensures |r| <= |dir|
    ensures forall f :: f in r <==> f in dir && Listed(f, activeOnly) && (ids.Some? ==> f.id in ids.value)
  {
    if dir == [] then []
    else
      var keep := Listed(dir[0], activeOnly) && (ids.Some? ==> dir[0].id in ids.value);
      var rest := Select(dir[1..], ids, activeOnly);
      assert forall f :: f in dir <==> f == dir[0] || f in dir[1..];
      if keep then [dir[0]] + rest else rest
  }

  /** `get_farm_by_url` (activeOnly = false) and `get_active_farm_by_url`
      (activeOnly = true). Existence is checked before access. */
  function FarmByUrl(dir: seq<Farm>, url: Option<string>, access: FarmAccess, activeOnly: bool)
    : (r: Resolved<Option<Farm>>)
    ensures url.None? ==> r == Ok(None)
    ensures r.NotFound? <==> url.Some? && forall f :: f in dir ==> !MatchesUrl(f, url.value, activeOnly)
    ensures r.Unauthorized? ==>
      url.Some? && exists f :: f in dir && MatchesUrl(f, url.value, activeOnly) && !CanAccessFarm(access, f.id)
    ensures url.Some? && r.Ok? ==>
      r.value.Some? && r.value.value in dir && MatchesUrl(r.value.value, url.value, activeOnly) &&
      CanAccessFarm(access, r.value.value.id)
    ensures (url.Some? && (exists f :: f in dir && MatchesUrl(f, url.value, activeOnly)) &&
             forall f :: f in dir && MatchesUrl(f, url.value, activeOnly) ==> CanAccessFarm(access, f.id))
            ==> r.Ok?
    ensures (url.Some? && forall f :: f in dir && MatchesUrl(f, url.value, activeOnly) ==> !CanAccessFarm(access, f.id))
            ==> !r.Ok?
  {
    if url.None? then Ok(None)
    else
      match FindByUrl(dir, url.value, activeOnly)
      case None => NotFound
      case Some(farm) => if !CanAccessFarm(access, farm.id) then Unauthorized else Ok(Some(farm))
  }

  /** `get_farm_by_id`. Access is checked before the lookup. */
  function FarmById(dir: seq<Farm>, farmId: int, access: FarmAccess): (r: Resolved<Farm>)
    ensures r.Unauthorized? <==> !CanAccessFarm(access, farmId)
    ensures r.NotFound? <==> CanAccessFarm(access, farmId) && !HasId(dir, farmId)
    ensures r.Ok? ==> r.value in dir && r.value.id == farmId
  {
    if !CanAccessFarm(access, farmId) then Unauthorized
    else
      match FindById(dir, farmId)
      case None => NotFound
      case Some(farm) => Ok(farm)
  }

  /** The farms a successful `FarmsByIdList` selects: the requested ids, or,
      with none requested, everything the grant covers. */
  predicate Requested(f: Farm, ids: Option<seq<int>>, access: FarmAccess) {
    if ids.Some? then f.id in ids.value
    else if access.allFarms then true
    else access.farmIdList.Some? && f.id in access.farmIdList.value
  }

  /** `get_farms_by_id_list` (activeOnly = false) and
      `get_active_farms_by_id_list` (activeOnly = true). */
  function FarmsByIdList(dir: seq<Farm>, ids: Option<seq<int>>, access: FarmAccess, activeOnly: bool)
    : (r: Resolved<Option<seq<Farm>>>)
    ensures r.Unauthorized? <==> ids.Some? && exists id :: id in ids.value && !CanAccessFarm(access, id)
    ensures r.NotFound? <==>
      ids.Some? && (forall id :: id in ids.value ==> CanAccessFarm(access, id)) &&
      forall f :: f in dir && f.id in ids.value ==> !Listed(f, activeOnly)
    ensures r == Ok(None) <==> ids.None? && !access.allFarms && access.farmIdList.None?
    ensures r.Ok? && r.value.Some? ==>
      forall f :: f in r.value.value <==> f in dir && Listed(f, activeOnly) && Requested(f, ids, access)
    ensures r.Ok? && r.value.Some? ==> forall f :: f in r.value.value ==> CanAccessFarm(access, f.id)
    ensures r.Ok? && ids.Some? ==> r.value.Some? && |r.value.value| > 0
  {
    if ids.None? && access.allFarms then
      Ok(Some(Select(dir, None, activeOnly)))
    else if ids.None? && access.farmIdList.Some? then
      Ok(Some(Select(dir, access.farmIdList, activeOnly)))
    else if ids.Some? then
      if exists id :: id in ids.value && !CanAccessFarm(access, id) then Unauthorized
      else
        var farms := Select(dir, ids, activeOnly);
        if |farms| > 0 then
          assert farms[0] in farms;
          Ok(Some(farms))
        else
          assert forall f :: f in dir && f.id in ids.value ==> f !in farms;
          NotFound
    else
      Ok(None)
  }

  /** The body of `get_farms_url_or_list` / `get_active_farms_url_or_list`:
      the URL farm alone when there is one, else the id-list farms. */
  function UrlOrList(byUrl: Option<Farm>, byList: Option<seq<Farm>>): (r: seq<Farm>)
    ensures byUrl.Some? ==> r == [byUrl.value]
    ensures byUrl.None? && byList.Some? ==> r == byList.value
    ensures byUrl.None? && byList.None? ==> r == []
  {
    var farms := [];
    if byUrl.Some? then farms + [byUrl.value]
    else if byList.Some? then farms + byList.value
    else farms
  }

  /** The `get_farms_url_or_list` dependency as a request resolves it: the
      URL dependency first, then the id-list dependency, the first error
      raised ending the request, then `UrlOrList` on the two values. */
  function FarmsUrlOrList(dir: seq<Farm>, url: Option<string>, ids: Option<seq<int>>,
                          access: FarmAccess, activeOnly: bool): (r: Resolved<seq<Farm>>)
    ensures r.Ok? <==> FarmByUrl(dir, url, access, activeOnly).Ok? && FarmsByIdList(dir, ids, access, activeOnly).Ok?
    ensures !FarmByUrl(dir, url, access, activeOnly).Ok? ==> r.NotFound? == FarmByUrl(dir, url, access, activeOnly).NotFound?
    ensures FarmByUrl(dir, url, access, activeOnly).Ok? && !FarmsByIdList(dir, ids, access, activeOnly).Ok? ==>
      r.NotFound? == FarmsByIdList(dir, ids, access, activeOnly).NotFound?
    ensures r.Ok? ==> forall f :: f in r.value ==> f in dir && Listed(f, activeOnly) && CanAccessFarm(access, f.id)
    ensures r.Ok? && url.Some? ==> |r.value| == 1 && r.value[0].url == url.value
    ensures r.Ok? && url.Some? ==>
      FarmByUrl(dir, url, access, activeOnly).value.Some? &&
      r.value == [FarmByUrl(dir, url, access, activeOnly).value.value]
    ensures r.Ok? && url.None? && FarmsByIdList(dir, ids, access, activeOnly).value.Some? ==>
      r.value == FarmsByIdList(dir, ids, access, activeOnly).value.value
    ensures r.Ok? && url.None? && FarmsByIdList(dir, ids, access, activeOnly).value.None? ==> r.value == []
  {
    match FarmByUrl(dir, url, access, activeOnly)
    case NotFound => NotFound
    case Unauthorized => Unauthorized
    case Ok(byUrl) =>
      match FarmsByIdList(dir, ids, access, activeOnly)
      case NotFound => NotFound
      case Unauthorized => Unauthorized
      case Ok(byList) => Ok(UrlOrList(byUrl, byList))
  }

  /** `get_farm_by_id` decides access before it looks anything up: whether a
      request is refused does not depend on the farm table at all. */
  lemma FarmByIdChecksAccessFirst(dir1: seq<Farm>, dir2: seq<Farm>, farmId: int, access: FarmAccess)
    ensures FarmById(dir1, farmId, access).Unauthorized? == FarmById(dir2, farmId, access).Unauthorized?
    ensures !CanAccessFarm(access, farmId) ==> FarmById(dir1, farmId, access) == Unauthorized
  {
  }

  /** `get_farm_by_url` looks the URL up before it decides access: an unknown
      URL is NotFound whatever the grant. */
  lemma FarmByUrlChecksExistenceFirst(dir: seq<Farm>, url: string, access1: FarmAccess,
                                      access2: FarmAccess, activeOnly: bool)
    requires forall f :: f in dir ==> !MatchesUrl(f, url, activeOnly)
    ensures FarmByUrl(dir, Some(url), access1, activeOnly) == NotFound
    ensures FarmByUrl(dir, Some(url), access2, activeOnly) == NotFound
  {
  }

  /** The id-list access check is all or nothing and comes before the table
      query: one inaccessible id refuses the request whatever the table
      holds. */
  lemma FarmsByIdListChecksAllIdsFirst(dir: seq<Farm>, ids: seq<int>, i: nat, access: FarmAccess,
                                       activeOnly: bool)
    requires i < |ids| && !CanAccessFarm(access, ids[i])
    ensures FarmsByIdList(dir, Some(ids), access, activeOnly) == Unauthorized
  {
  }

  /** Two farms for the request scenarios below. */
  function ScenarioFarm(id: int, url: string): (f: Farm) {
    Farm(id, url, "farm", true, None, true, None, None)
  }

  /** A caller granted farm 1 only: asking for farms 1 and 2 is refused;
      asking for farm 1, by id or by its URL, yields farm 1 alone. */
  lemma RestrictedGrantScenario()
    ensures var one := ScenarioFarm(1, "https://one.example");
            var dir := [one, ScenarioFarm(2, "https://two.example")];
            var access := FarmAccess(false, Some([1]));
            && FarmsByIdList(dir, Some([1, 2]), access, false) == Unauthorized
            && FarmsUrlOrList(dir, None, Some([1]), access, false) == Ok([one])
            && FarmsUrlOrList(dir, Some("https://one.example"), None, access, false) == Ok([one])
  {
    var one := ScenarioFarm(1, "https://one.example");
    var two := ScenarioFarm(2, "https://two.example");
    var dir := [one, two];
    var access := FarmAccess(false, Some([1]));
    FarmsByIdListChecksAllIdsFirst(dir, [1, 2], 1, access, false);
    assert Select(dir, Some([1]), false) == [one] by {
      assert Select(dir[1..], Some([1]), false) == [];
    }
    assert FindByUrl(dir, "https://one.example", false) == Some(one);
  }

  /** A URL and an id list together: the URL's farm alone is returned, never
      the listed one. */
  lemma UrlTakesPriorityScenario()
    ensures var nine := ScenarioFarm(9, "a");
            var dir := [ScenarioFarm(5, "b"), nine];
            FarmsUrlOrList(dir, Some("a"), Some([5]), FarmAccess(true, None), false) == Ok([nine])
  {
  }
}
