/** StylishSettings.cs: the settings asset. It holds the general switches, the
    icon, cyclic, keyword and preset lists, and the path entries, kept both in a
    list and in a table keyed by path. */
module Settings {
  import Base
  import Highlight
  import Icon

  /** GeneralSetting. The editor only ever replaces it or flips one switch, so it
      is a value here. */
  datatype General = General(
    enable: bool, path: bool, keyword: bool, autoLevel: bool, autoLevelAsset: bool,
    autoSibling: bool, hideSelection: bool)

  /** The field initialisers of GeneralSetting. */
  const DefaultGeneral := General(true, true, true, false, false, false, false)

  /** StylishData: a named pair of an icon override and a highlight. */
  class StylishData {
    var name: Base.Option<string>
    var icon: Icon.StylishIconOverride
    var highlight: Highlight.StylishHighlight

    /** `new StylishData()`: no name, a default override and a default highlight. */
    constructor()
      ensures name == Base.None && fresh(icon) && fresh(highlight)
      ensures icon.mode == Icon.Mode.None && icon.icon == null && icon.normalTints == [] && icon.smallTints == []
      ensures highlight.Valid() && highlight.GetStyle() == Highlight.DefaultStyle
    {
      name := Base.None;
      icon := new Icon.StylishIconOverride();
      highlight := new Highlight.StylishHighlight();
    }
  }

  /** PathData. Its path is set once, when the entry is created, and never
      reassigned. */
  class PathData {
    const path: string
    var bypass: bool
    var enable: bool
    var autoLevel: bool
    var autoSibling: bool
    var stylishData: StylishData

    /** `new PathData()` followed by `data.path = path`. */
    constructor(path: string)
      ensures this.path == path && !bypass && !enable && !autoLevel && !autoSibling
      ensures fresh(stylishData) && stylishData.name == Base.None
    {
      this.path := path;
      bypass, enable, autoLevel, autoSibling := false, false, false, false;
      stylishData := new StylishData();
    }
  }

  /** The list and the table of path entries agree: the list holds each entry
      once, the table maps each listed entry's path to it, and the table holds
      nothing else. */
  ghost predicate TableMatchesList(list: seq<PathData>, table: map<string, PathData>)
  {
    Base.NoDups(list)
    && (forall i :: 0 <= i < |list| ==> list[i].path in table && table[list[i].path] == list[i])
    && (forall p :: p in table ==> table[p] in list && table[p].path == p)
  }

  /** The table after `RebuildTable`'s first loop has visited the first `n` entries:
      each visited entry's path is mapped to it, later entries overwriting earlier ones. */
  function PathFold(table: map<string, PathData>, list: seq<PathData>, n: nat): map<string, PathData>
    requires n <= |list|
  {
    if n == 0 then table else PathFold(table, list, n - 1)[list[n - 1].path := list[n - 1]]
  }

  /** The last of the first `n` entries with path `p`, or -1. */
  function LastWithPath(list: seq<PathData>, p: string, n: nat): (r: int)
    requires n <= |list|
    ensures -1 <= r < n
    ensures r >= 0 ==> list[r].path == p && forall j :: r < j < n ==> list[j].path != p
    ensures r == -1 ==> forall j :: 0 <= j < n ==> list[j].path != p
  {
    if n == 0 then -1 else if list[n - 1].path == p then n - 1 else LastWithPath(list, p, n - 1)
  }

  /** What a rebuild leaves under each key: the last entry with that path, or,
      for a path no entry has, what the table held before. No key is removed. */
  lemma {:induction false} PathFoldLookup(table: map<string, PathData>, list: seq<PathData>, n: nat, p: string)
    requires n <= |list|
    ensures LastWithPath(list, p, n) >= 0 ==> p in PathFold(table, list, n) && PathFold(table, list, n)[p] == list[LastWithPath(list, p, n)]
    ensures LastWithPath(list, p, n) < 0 ==> (p in PathFold(table, list, n) <==> p in table)
    ensures LastWithPath(list, p, n) < 0 && p in table ==> PathFold(table, list, n)[p] == table[p]
  {
    if n > 0 {
      PathFoldLookup(table, list, n - 1, p);
    }
  }

  /** Rebuilding a table that already matches its list changes nothing. */
  lemma {:induction false} PathFoldKeepsMatchingTable(table: map<string, PathData>, list: seq<PathData>, n: nat)
    requires n <= |list|
    requires TableMatchesList(list, table)
    ensures PathFold(table, list, n) == table
  {
    if n > 0 {
      PathFoldKeepsMatchingTable(table, list, n - 1);
      assert list[n - 1].path in table && table[list[n - 1].path] == list[n - 1];
    }
  }

  /** The result of `RebuildTable`'s second loop: the table so far, and whether
      every visited name was non-null (a null key throws and ends the loop). */
  datatype KeywordFold = KeywordFold(table: map<string, StylishData>, ok: bool)

  /** The keyword table after the second loop has visited the first `n` entries,
      whose names are `names`. */
  function KeywordFoldUpTo(table: map<string, StylishData>, names: seq<Base.Option<string>>, datas: seq<StylishData>, n: nat): KeywordFold
    requires |names| == |datas| && n <= |datas|
  {
    if n == 0 then KeywordFold(table, true)
    else
      var f := KeywordFoldUpTo(table, names, datas, n - 1);
      if !f.ok then f
      else match names[n - 1]
        case None => KeywordFold(f.table, false)
        case Some(k) => KeywordFold(f.table[k := datas[n - 1]], true)
  }

  /** The last of the first `n` names equal to `Some(k)`, or -1. */
  function LastWithName(names: seq<Base.Option<string>>, k: string, n: nat): (r: int)
    requires n <= |names|
    ensures -1 <= r < n
    ensures r >= 0 ==> names[r] == Base.Some(k) && forall j :: r < j < n ==> names[j] != Base.Some(k)
    ensures r == -1 ==> forall j :: 0 <= j < n ==> names[j] != Base.Some(k)
  {
    if n == 0 then -1 else if names[n - 1] == Base.Some(k) then n - 1 else LastWithName(names, k, n - 1)
  }

  /** The loop throws exactly when some name is null; when it does not, each name
      maps to the last entry with that name, and other keys keep what they held. */
  lemma {:induction false} KeywordFoldLookup(table: map<string, StylishData>, names: seq<Base.Option<string>>, datas: seq<StylishData>,
                                             n: nat, k: string)
    requires |names| == |datas| && n <= |datas|
    ensures KeywordFoldUpTo(table, names, datas, n).ok <==> forall j :: 0 <= j < n ==> names[j].Some?
    ensures var f := KeywordFoldUpTo(table, names, datas, n);
            f.ok && LastWithName(names, k, n) >= 0 ==> k in f.table && f.table[k] == datas[LastWithName(names, k, n)]
    ensures var f := KeywordFoldUpTo(table, names, datas, n);
            f.ok && LastWithName(names, k, n) < 0 ==> (k in f.table <==> k in table) && (k in table ==> f.table[k] == table[k])
  {
    if n > 0 {
      KeywordFoldLookup(table, names, datas, n - 1, k);
    }
  }

  /** The snapshot of the names of a list of entries. */
  function Names(datas: seq<StylishData>): (r: seq<Base.Option<string>>)
    reads set d | d in datas
    ensures |r| == |datas| && forall i :: 0 <= i < |datas| ==> r[i] == datas[i].name
  {
    seq(|datas|, i reads set d | d in datas requires 0 <= i < |datas| => datas[i].name)
  }

  /** The keyword table the list editor builds (`Where(name != null).ToDictionary`)
      from the first `n` entries: none when two of them share a name, which throws. */
  function KeywordDictionary(names: seq<Base.Option<string>>, datas: seq<StylishData>, n: nat): (r: Base.Option<map<string, StylishData>>)
    requires |names| == |datas| && n <= |datas|
    // every present name is a key, and there are no more keys than entries
    ensures r.Some? ==> forall j :: 0 <= j < n && names[j].Some? ==> names[j].value in r.value
    ensures r.Some? ==> |r.value| <= n
  {
    if n == 0 then Base.Some(map[])
    else
      match KeywordDictionary(names, datas, n - 1)
      case None => Base.None
      case Some(m) =>
        match names[n - 1]
        case None => Base.Some(m)
        case Some(k) => if k in m then Base.None else Base.Some(m[k := datas[n - 1]])
  }

  /** No two of the first `n` entries share a (non-null) name. */
  predicate UniqueNames(names: seq<Base.Option<string>>, n: nat)
    requires n <= |names|
  {
    forall i, j :: 0 <= i < j < n && names[i].Some? ==> names[i] != names[j]
  }

  /** The dictionary is built exactly when the names are unique; it then maps
      every name to its entry and holds no other key. */
  lemma {:induction false} KeywordDictionaryLookup(names: seq<Base.Option<string>>, datas: seq<StylishData>, n: nat, k: string)
    requires |names| == |datas| && n <= |datas|
    ensures KeywordDictionary(names, datas, n).Some? <==> UniqueNames(names, n)
    ensures var d := KeywordDictionary(names, datas, n);
            d.Some? ==> (k in d.value <==> LastWithName(names, k, n) >= 0)
                        && (k in d.value ==> d.value[k] == datas[LastWithName(names, k, n)])
  {
    if n > 0 {
      KeywordDictionaryLookup(names, datas, n - 1, k);
      var last := names[n - 1];
      if last.Some? {
        KeywordDictionaryLookup(names, datas, n - 1, last.value);
        var j := LastWithName(names, last.value, n - 1);
        if j >= 0 {
          assert names[j] == names[n - 1];
        }
      }
    }
  }

  /** With every name present and no name repeated, the editor's dictionary and
      the table `RebuildTable` builds from an empty one are the same. */
  lemma {:induction false} KeywordDictionaryMatchesRebuild(names: seq<Base.Option<string>>, datas: seq<StylishData>, n: nat)
    requires |names| == |datas| && n <= |datas|
    requires UniqueNames(names, n) && forall i :: 0 <= i < n ==> names[i].Some?
    ensures KeywordDictionary(names, datas, n) == Base.Some(KeywordFoldUpTo(map[], names, datas, n).table)
    ensures KeywordFoldUpTo(map[], names, datas, n).ok
  {
    if n > 0 {
      KeywordDictionaryMatchesRebuild(names, datas, n - 1);
      var k := names[n - 1].value;
      KeywordDictionaryLookup(names, datas, n - 1, k);
      assert LastWithName(names, k, n - 1) < 0;
    }
  }

  class StylishSettings {
    var general: General
    var subfolderList: seq<string>
    var subfolderToggleList: seq<bool>
    var stylishIconList: seq<Icon.StylishIcon>
    var cyclicStylishList: seq<StylishData>
    var keywordStylishList: seq<StylishData>
    var highlightPresetList: seq<Highlight.StylishHighlight>
    /** `m_PathDataList` and `m_PathDataTable`. */
    var pathDataList: seq<PathData>
    var pathDataTable: map<string, PathData>
    /** `m_KeywordStylishTable`. */
    var keywordStylishTable: map<string, StylishData>

    /** The path list and the path table agree. */
    ghost predicate Valid()
      reads this
    {
      TableMatchesList(pathDataList, pathDataTable)
    }

    /** A new settings asset: default switches, every list and table empty. */
    constructor()
      ensures Valid() && Empty()
    {
      general := DefaultGeneral;
      subfolderList, subfolderToggleList, stylishIconList := [], [], [];
      cyclicStylishList, keywordStylishList, highlightPresetList := [], [], [];
      pathDataList, pathDataTable, keywordStylishTable := [], map[], map[];
    }

    /** Default switches and nothing in any list or table. */
    ghost predicate Empty()
      reads this
    {
      general == DefaultGeneral
      && subfolderList == [] && subfolderToggleList == [] && stylishIconList == []
      && cyclicStylishList == [] && keywordStylishList == [] && highlightPresetList == []
      && pathDataList == [] && pathDataTable == map[] && keywordStylishTable == map[]
    }

    /** `RebuildTable`: maps every path entry's path and every keyword entry's name
        to the entry, keeping what the tables held. A null name throws, leaving
        the keyword table as the loop left it. */
    method RebuildTable() returns (ok: bool)
      modifies this
      ensures pathDataTable == PathFold(old(pathDataTable), pathDataList, |pathDataList|)
      ensures var f := KeywordFoldUpTo(old(keywordStylishTable), Names(keywordStylishList), keywordStylishList, |keywordStylishList|);
              keywordStylishTable == f.table && ok == f.ok
      ensures general == old(general) && pathDataList == old(pathDataList) && keywordStylishList == old(keywordStylishList)
      ensures subfolderList == old(subfolderList) && subfolderToggleList == old(subfolderToggleList)
      ensures stylishIconList == old(stylishIconList) && cyclicStylishList == old(cyclicStylishList)
      ensures highlightPresetList == old(highlightPresetList)
      ensures old(Valid()) ==> Valid()
    {
      RebuildPathTable();
      ok := RebuildKeywordTable();
    }

    /** The first loop of `RebuildTable`, over the path entries. */
    method RebuildPathTable()
      modifies this
      ensures pathDataTable == PathFold(old(pathDataTable), pathDataList, |pathDataList|) && pathDataList == old(pathDataList)
      ensures Unchanged(old(general), old(subfolderList), old(subfolderToggleList), old(stylishIconList),
                        old(cyclicStylishList), old(keywordStylishList), old(highlightPresetList), old(keywordStylishTable))
      ensures old(Valid()) ==> Valid()
    {
      var list := pathDataList;
      if Valid() {
        PathFoldKeepsMatchingTable(pathDataTable, list, |list|);
      }
      for i := 0 to |list|
        invariant list == pathDataList
        invariant pathDataTable == PathFold(old(pathDataTable), list, i)
        invariant Unchanged(old(general), old(subfolderList), old(subfolderToggleList), old(stylishIconList),
                            old(cyclicStylishList), old(keywordStylishList), old(highlightPresetList), old(keywordStylishTable))
      {
        pathDataTable := pathDataTable[list[i].path := list[i]];
      }
    }

    /** The second loop of `RebuildTable`, over the keyword entries; a null name
        throws. */
    method RebuildKeywordTable() returns (ok: bool)
      modifies this
      ensures var f := KeywordFoldUpTo(old(keywordStylishTable), Names(keywordStylishList), keywordStylishList, |keywordStylishList|);
              keywordStylishTable == f.table && ok == f.ok
      ensures general == old(general) && pathDataList == old(pathDataList) && keywordStylishList == old(keywordStylishList)
      ensures subfolderList == old(subfolderList) && subfolderToggleList == old(subfolderToggleList)
      ensures stylishIconList == old(stylishIconList) && cyclicStylishList == old(cyclicStylishList)
      ensures highlightPresetList == old(highlightPresetList) && pathDataTable == old(pathDataTable)
    {
      var datas := keywordStylishList;
      ghost var names := Names(datas);
      var i := 0;
      ok := true;
      while i < |datas|
        invariant 0 <= i <= |datas| && datas == keywordStylishList
        invariant KeywordFoldUpTo(old(keywordStylishTable), names, datas, i) == KeywordFold(keywordStylishTable, true)
        invariant pathDataTable == old(pathDataTable) && pathDataList == old(pathDataList)
        invariant general == old(general) && subfolderList == old(subfolderList) && subfolderToggleList == old(subfolderToggleList)
        invariant stylishIconList == old(stylishIconList) && cyclicStylishList == old(cyclicStylishList)
        invariant highlightPresetList == old(highlightPresetList)
      {
        var name := datas[i].name;
        if name.None? {
          assert KeywordFoldUpTo(old(keywordStylishTable), names, datas, i + 1) == KeywordFold(keywordStylishTable, false);
          KeywordFoldStopped(old(keywordStylishTable), names, datas, i + 1);
          return false;
        }
        keywordStylishTable := keywordStylishTable[name.value := datas[i]];
        i := i + 1;
      }
    }

    /** `Clear`: default switches, every list and both tables emptied. */
    method Clear()
      modifies this
      ensures Valid() && Empty()
    {
      general := DefaultGeneral;
      subfolderList, subfolderToggleList, stylishIconList := [], [], [];
      cyclicStylishList, keywordStylishList, highlightPresetList := [], [], [];
      pathDataList, pathDataTable, keywordStylishTable := [], map[], map[];
    }

    /** `GetCyclicStylishData(index)`. */
    function GetCyclicStylishData(index: int): (r: StylishData?)
      reads this
      ensures r == null <==> index < 0 || |cyclicStylishList| == 0
      ensures r != null ==> r == cyclicStylishList[index % |cyclicStylishList|]
    {
      if index < 0 || |cyclicStylishList| == 0 then null
      else cyclicStylishList[index % |cyclicStylishList|]
    }

    /** `GetHierarchyLevelStylishData(level)`: the cyclic entry for the level, when
        the automatic level styling is on. */
    function GetHierarchyLevelStylishData(level: int): (r: StylishData?)
      reads this
      ensures !general.autoLevel ==> r == null
      ensures general.autoLevel ==> r == GetCyclicStylishData(level)
    {
      if !general.autoLevel then null else GetCyclicStylishData(level)
    }

    /** `GetSiblingIndexStylishData(index)`: the cyclic entry for the sibling index,
        when the automatic sibling styling is on. */
    function GetSiblingIndexStylishData(index: int): (r: StylishData?)
      reads this
      ensures !general.autoSibling ==> r == null
      ensures general.autoSibling ==> r == GetCyclicStylishData(index)
    {
      if !general.autoSibling then null else GetCyclicStylishData(index)
    }

    /** `GetKeywordStylishData(keyword)`. */
    function GetKeywordStylishData(keyword: string): (r: StylishData?)
      reads this
      ensures r != null <==> general.keyword && keyword in keywordStylishTable
      ensures r != null ==> r == keywordStylishTable[keyword]
    {
      if !general.keyword then null
      else if keyword in keywordStylishTable then keywordStylishTable[keyword]
      else null
    }

    /** `GetPathStylisPaths`: the paths of the path entries, in list order. */
    function GetPathStylisPaths(): (r: seq<string>)
      reads this
      ensures |r| == |pathDataList| && forall i :: 0 <= i < |r| ==> r[i] == pathDataList[i].path
    {
      seq(|pathDataList|, i requires 0 <= i < |pathDataList| reads this => pathDataList[i].path)
    }

    /** `GetPathData(path, false)`: the registered entry for `path`, or null. */
    function Registered(path: string): (r: PathData?)
      reads this
      ensures r != null <==> path in pathDataTable
      ensures r != null ==> r == pathDataTable[path]
    {
      if path in pathDataTable then pathDataTable[path] else null
    }

    /** `GetPathStylishBypass(path)`: false for an unregistered path. */
    function GetPathStylishBypass(path: string): (r: bool)
      reads this, pathDataTable.Values
      ensures r <==> path in pathDataTable && pathDataTable[path].bypass
    {
      var data := Registered(path);
      data != null && data.bypass
    }

    /** `GetPathStylishData(path)`. */
    function GetPathStylishData(path: string): (r: StylishData?)
      reads this, pathDataTable.Values
      ensures r != null <==> general.path && path in pathDataTable
      ensures r != null ==> r == pathDataTable[path].stylishData
    {
      if !general.path then null
      else
        var data := Registered(path);
        if data == null then null else data.stylishData
    }

    /** `GetPathData(path, create)`: the registered entry, or, when asked to create
        one, a fresh unregistered entry for the path. */
    method GetPathData(path: string, create: bool) returns (data: PathData?)
      ensures path in pathDataTable ==> data == pathDataTable[path]
      ensures path !in pathDataTable && !create ==> data == null
      ensures path !in pathDataTable && create ==>
        data != null && fresh(data) && fresh(data.stylishData) && data.path == path
        && !data.enable && !data.bypass && !data.autoLevel && !data.autoSibling
    {
      data := Registered(path);
      if data != null || !create {
        return;
      }
      data := new PathData(path);
    }

    /** `AddPathData(data)`: registers the entry unless its path already has one. */
    method AddPathData(data: PathData) returns (added: bool)
      modifies this
      ensures added <==> data.path !in old(pathDataTable)
      ensures added ==> pathDataList == old(pathDataList) + [data] && pathDataTable == old(pathDataTable)[data.path := data]
      ensures !added ==> pathDataList == old(pathDataList) && pathDataTable == old(pathDataTable)
      ensures old(Valid()) ==> Valid()
      ensures Unchanged(old(general), old(subfolderList), old(subfolderToggleList), old(stylishIconList),
                        old(cyclicStylishList), old(keywordStylishList), old(highlightPresetList), old(keywordStylishTable))
    {
      if data.path in pathDataTable {
        return false;
      }
      pathDataList := pathDataList + [data];
      pathDataTable := pathDataTable[data.path := data];
      added := true;
    }

    /** `RemovePathData(data)`: drops the entry from the list and its path from the
        table. The pair stays consistent when `data` is the registered entry. */
    method RemovePathData(data: PathData)
      modifies this
      ensures pathDataList == Base.RemoveFirst(old(pathDataList), data)
      ensures pathDataTable == old(pathDataTable) - {data.path}
      ensures old(Valid()) && (data.path in old(pathDataTable) ==> old(pathDataTable)[data.path] == data) ==> Valid()
      ensures Unchanged(old(general), old(subfolderList), old(subfolderToggleList), old(stylishIconList),
                        old(cyclicStylishList), old(keywordStylishList), old(highlightPresetList), old(keywordStylishTable))
    {
      ghost var list, table := pathDataList, pathDataTable;
      if TableMatchesList(list, table) && (data.path in table ==> table[data.path] == data) {
        RemoveKeepsMatch(list, table, data);
      }
      pathDataList, pathDataTable := Base.RemoveFirst(pathDataList, data), pathDataTable - {data.path};
    }

    /** `m_KeywordStylishTable = keywordStylishList.Where(k => k.name != null).ToDictionary(...)`,
        run when the keyword list is edited: on a duplicate name it throws and the
        table is left as it was. */
    method RebuildKeywordDictionary() returns (ok: bool)
      modifies this
      ensures var d := KeywordDictionary(Names(keywordStylishList), keywordStylishList, |keywordStylishList|);
              ok == d.Some? && keywordStylishTable == (if ok then d.value else old(keywordStylishTable))
      ensures pathDataList == old(pathDataList) && pathDataTable == old(pathDataTable)
      ensures Unchanged(old(general), old(subfolderList), old(subfolderToggleList), old(stylishIconList),
                        old(cyclicStylishList), old(keywordStylishList), old(highlightPresetList), keywordStylishTable)
    {
      var d := KeywordDictionary(Names(keywordStylishList), keywordStylishList, |keywordStylishList|);
      ok := d.Some?;
      if ok {
        keywordStylishTable := d.value;
      }
    }

    /** Everything but the path list and table is as given. */
    ghost predicate Unchanged(g: General, sub: seq<string>, subToggles: seq<bool>, icons: seq<Icon.StylishIcon>,
                              cyclic: seq<StylishData>, keyword: seq<StylishData>, presets: seq<Highlight.StylishHighlight>,
                              keywordTable: map<string, StylishData>)
      reads this
    {
      general == g && subfolderList == sub && subfolderToggleList == subToggles && stylishIconList == icons
      && cyclicStylishList == cyclic && keywordStylishList == keyword && highlightPresetList == presets
      && keywordStylishTable == keywordTable
    }
  }

  /** Once the keyword loop has stopped, visiting more entries changes nothing. */
  lemma {:induction false} KeywordFoldStopped(table: map<string, StylishData>, names: seq<Base.Option<string>>, datas: seq<StylishData>, n: nat)
    requires |names| == |datas| && n <= |datas|
    requires !KeywordFoldUpTo(table, names, datas, n).ok
    ensures KeywordFoldUpTo(table, names, datas, |datas|) == KeywordFoldUpTo(table, names, datas, n)
    decreases |datas| - n
  {
    if n < |datas| {
      KeywordFoldStopped(table, names, datas, n + 1);
    }
  }

  /** No two entries share a path. */
  predicate DistinctPaths(list: seq<PathData>)
  {
    forall i, j :: 0 <= i < j < |list| ==> list[i].path != list[j].path
  }

  /** Rebuilding an empty table from a list whose paths are distinct makes the
      two agree. */
  lemma RebuildFromEmptyMatches(list: seq<PathData>)
    requires DistinctPaths(list)
    ensures TableMatchesList(list, PathFold(map[], list, |list|))
  {
    var t := PathFold(map[], list, |list|);
    forall i | 0 <= i < |list|
      ensures list[i].path in t && t[list[i].path] == list[i]
    {
      PathFoldLookup(map[], list, |list|, list[i].path);
    }
    forall p | p in t
      ensures t[p] in list && t[p].path == p
    {
      PathFoldLookup(map[], list, |list|, p);
    }
  }

  /** Removing the registered entry of a path keeps list and table in agreement. */
  lemma RemoveKeepsMatch(list: seq<PathData>, table: map<string, PathData>, data: PathData)
    requires TableMatchesList(list, table)
    requires data.path in table ==> table[data.path] == data
    ensures TableMatchesList(Base.RemoveFirst(list, data), table - {data.path})
  {
    var r := Base.RemoveFirst(list, data);
    if data in list {
      var i := Base.IndexOf(list, data);
      assert r == list[..i] + list[i + 1..];
      forall j | 0 <= j < |r|
        ensures r[j] != data && r[j].path != data.path
      {
        var k := if j < i then j else j + 1;
        assert r[j] == list[k] && k != i;
      }
    }
  }
}
