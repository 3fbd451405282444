/** The champion catalog: process-wide state `championData`, loaded from the
    Data Dragon feeds and searched by numeric champion id. */
module Catalog {
  import opened Js
  import opened JsNumbers
  import opened Axios

  /** One value of the catalog object: the numeric id as the string `key`,
      the display `name` and the icon file `image.full`. */
  datatype ChampionRecord = ChampionRecord(key: string, name: string, imageFull: string)

  /** What `getChampionInfo` returns when it finds a champion. */
  datatype ChampionInfo = ChampionInfo(name: string, image: string)

  /** The body of `champion.json`: its `data` member is the catalog object,
      given in `for...in` enumeration order; it may be missing. */
  datatype ChampionFile = ChampionFile(data: Option<seq<ChampionRecord>>)

  /** The two Data Dragon feeds: the version list (newest first) and the
      champion file of each version. */
  datatype DataDragon = DataDragon(
    versions: Response<seq<string>>,
    championFile: string -> Response<ChampionFile>)

  /** `versionsRes.data[0]` as it appears in the next URL: the text
      "undefined" when the list is empty. */
  function LatestVersion(versions: seq<string>): string {
    if |versions| > 0 then versions[0] else "undefined"
  }

  /** `parseInt(record.key) === championId`. */
  predicate KeyIs(record: ChampionRecord, championId: int) {
    ParseInt(record.key) == Some(championId)
  }

  function InfoOf(record: ChampionRecord): ChampionInfo {
    ChampionInfo(record.name, record.imageFull)
  }

  /** The name and icon of the first record of `table` whose key parses to
      the id, or None if no key does. */
  function FirstWithKey(table: seq<ChampionRecord>, championId: int): Option<ChampionInfo> {
    if table == [] then None
    else if KeyIs(table[0], championId) then Some(InfoOf(table[0]))
    else FirstWithKey(table[1..], championId)
  }

  /** The champion `getChampionInfo(championId)` returns for a catalog state:
      nothing before the catalog is loaded, else the first match. */
  function ChampionInfoOf(champions: Option<seq<ChampionRecord>>, championId: int): (r: Option<ChampionInfo>)
    ensures champions.None? ==> r.None?
  {
    match champions
    case None => None
    case Some(table) => FirstWithKey(table, championId)
  }

  /** The lookup finds the record at the first index whose key parses to the
      id. */
  lemma {:induction false} FirstWithKeyFindsFirst(table: seq<ChampionRecord>, championId: int, i: nat)
    requires i < |table| && KeyIs(table[i], championId)
    requires forall j :: 0 <= j < i ==> !KeyIs(table[j], championId)
    ensures FirstWithKey(table, championId) == Some(InfoOf(table[i]))
  {
    if i > 0 {
      FirstWithKeyFindsFirst(table[1..], championId, i - 1);
    }
  }

  /** The lookup finds nothing exactly when no key parses to the id. */
  lemma {:induction false} FirstWithKeyNone(table: seq<ChampionRecord>, championId: int)
    ensures FirstWithKey(table, championId).None? <==>
      forall i :: 0 <= i < |table| ==> !KeyIs(table[i], championId)
  {
    if table != [] {
      FirstWithKeyNone(table[1..], championId);
      if !KeyIs(table[0], championId) {
        assert forall i :: 1 <= i < |table| ==> table[i] == table[1..][i - 1];
      }
    }
  }

  /** For a catalog whose keys are the decimal renderings of distinct ids, as
      in Data Dragon's files, the lookup of a listed id yields that
      champion's name and icon, and the lookup of any other id yields nothing. */
  lemma {:induction false} LookupByDecimalKey(table: seq<ChampionRecord>, ids: seq<nat>, championId: int)
    requires |ids| == |table|
    requires forall i :: 0 <= i < |table| ==> table[i].key == NatToDecimal(ids[i])
    requires forall i, j :: 0 <= i < j < |ids| ==> ids[i] != ids[j]
    ensures forall i :: 0 <= i < |ids| && ids[i] == championId ==>
      ChampionInfoOf(Some(table), championId) == Some(InfoOf(table[i]))
    ensures championId !in ids ==> ChampionInfoOf(Some(table), championId).None?
  {
    forall i | 0 <= i < |table|
      ensures KeyIs(table[i], championId) <==> ids[i] == championId
    {
      ParseIntOfDecimal(ids[i], []);
      assert NatToDecimal(ids[i]) + [] == table[i].key;
    }
    forall i | 0 <= i < |ids| && ids[i] == championId
      ensures ChampionInfoOf(Some(table), championId) == Some(InfoOf(table[i]))
    {
      FirstWithKeyFindsFirst(table, championId, i);
    }
    FirstWithKeyNone(table, championId);
  }

  /** The module-level `championData`, None until a load succeeds. */
  class ChampionCatalog {
    var champions: Option<seq<ChampionRecord>>

    constructor ()
      ensures champions.None?
    {
      champions := None;
    }

    /** `loadChampionData`: fetch the version list, then the champion file of
        the newest version, and replace the catalog by that file's `data`.
        If either fetch fails the catalog keeps its previous value and
        nothing is thrown. */
    method Load(feed: DataDragon)
      modifies this
      ensures feed.versions.Fail? ==> champions == old(champions)
      ensures feed.versions.Ok? ==>
        var file := feed.championFile(LatestVersion(feed.versions.data));
        champions == if file.Ok? then file.data.data else old(champions)
    {
      var versionsRes := feed.versions;
      if versionsRes.Fail? {
        return;
      }
      var latestVersion := LatestVersion(versionsRes.data);
      var champRes := feed.championFile(latestVersion);
      if champRes.Fail? {
        return;
      }
      champions := champRes.data.data;
    }

    /** `getChampionInfo`: scan the catalog in enumeration order and return
        the first champion whose key parses to the id. */
    method GetChampionInfo(championId: int) returns (info: Option<ChampionInfo>)
      ensures info == ChampionInfoOf(champions, championId)
    {
      if champions.None? {
        return None;
      }
      var table := champions.value;
      var i := 0;
      while i < |table|
        invariant 0 <= i <= |table|
        invariant FirstWithKey(table[i..], championId) == FirstWithKey(table, championId)
      {
        if ParseInt(table[i].key) == Some(championId) {
          return Some(InfoOf(table[i]));
        }
        assert table[i..][1..] == table[i + 1..];
        i := i + 1;
      }
      return None;
    }
  }

  /** A catalog that was never loaded answers every lookup with nothing; a
      failed refresh leaves it so; a successful one makes its records
      visible to lookups by their decimal key. */
  method CatalogLifecycle(record: ChampionRecord, championId: nat)
    returns (beforeLoad: Option<ChampionInfo>, afterFailure: Option<ChampionInfo>, afterLoad: Option<ChampionInfo>)
    requires record.key == NatToDecimal(championId)
    ensures beforeLoad.None? && afterFailure.None?
    ensures afterLoad == Some(InfoOf(record))
  {
    var catalog := new ChampionCatalog();
    beforeLoad := catalog.GetChampionInfo(championId);
    catalog.Load(DataDragon(Fail(None), _ => Fail(None)));
    afterFailure := catalog.GetChampionInfo(championId);
    catalog.Load(DataDragon(Ok(["14.1.1"]), v => Ok(ChampionFile(Some([record])))));
    ParseIntOfDecimal(championId, []);
    assert IntToDecimal(championId) + [] == record.key;
    afterLoad := catalog.GetChampionInfo(championId);
  }
}
