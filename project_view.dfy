/** ProjectViewGUI.cs, the per-item part: the four lookup caches, the hierarchy
    level and sibling index of a path, the shared entry that automatic styles are
    shown through for assets, and the list of style layers an item is drawn with. */
module ProjectView {
  import Base
  import Utils
  import Highlight
  import Icon
  import Settings

  /** What the editor answers about the project. `orderBy` stands for
      `OrderBy(f => f)`, whose culture-aware string order is the host's. */
  datatype Host = Host(
    isFolder: string -> bool,
    instanceID: string -> int,
    subFolders: string -> seq<string>,
    orderBy: seq<string> -> seq<string>)

  /** `OrderBy` only reorders: the sorted sequence holds the same names, each as
      often as before. */
  ghost predicate Reorders(host: Host)
  {
    forall names: seq<string> {:trigger host.orderBy(names)} :: multiset(host.orderBy(names)) == multiset(names)
  }

  /** The editor as the item drawing sees it: a host whose sort is a reordering. */
  type EditorHost = h: Host | Reorders(h) witness Host(_ => false, _ => 0, _ => [], names => names)

  /** `GetHierarchyLevel`: one less than the number of '/' in the path, so
      "Assets" is at level -1 and its children at level 0. */
  function GetHierarchyLevel(path: string): (r: int)
    ensures r >= -1
    ensures r == -1 <==> '/' !in path
  {
    Base.CountCharPositive(path, '/');
    Base.CountChar(path, '/') - 1
  }

  /** A child's level is one more than its parent's. */
  lemma ChildLevel(parent: string, name: string)
    requires '/' !in name
    ensures GetHierarchyLevel(parent + "/" + name) == GetHierarchyLevel(parent) + 1
  {
    Base.CountCharAppend(parent + "/", name, '/');
    Base.CountCharAppend(parent, "/", '/');
    Base.CountCharZero(name, '/');
    assert Base.CountChar("/", '/') == 1 by {
      assert "/"[1..] == "";
    }
  }

  /** The names of the folders the host lists directly under `path`, each
      without its directory and extension, in the host's listing order. */
  function SubfolderNames(host: Host, path: string): (r: seq<string>)
    ensures |r| == |host.subFolders(path)|
    ensures forall i :: 0 <= i < |r| ==> r[i] == Base.FileNameWithoutExtension(host.subFolders(path)[i]) && '/' !in r[i]
  {
    seq(|host.subFolders(path)|, i requires 0 <= i < |host.subFolders(path)| =>
      Base.FileNameWithoutExtension(host.subFolders(path)[i]))
  }

  /** `GetSubfolders`: the subfolder names, sorted by the host. */
  function GetSubfolders(host: EditorHost, path: string): (r: seq<string>)
    // the listed names, each as often as listed, in the host's order
    ensures multiset(r) == multiset(SubfolderNames(host, path))
    ensures forall x :: x in r <==> x in SubfolderNames(host, path)
  {
    var r := host.orderBy(SubfolderNames(host, path));
    assert forall x :: x in r <==> x in multiset(r);
    r
  }

  /** Two subfolders that differ only in their extension have the same name, so
      a name can occur more than once among a folder's subfolders. */
  lemma ExtensionsCollide()
    ensures Base.FileNameWithoutExtension("Assets/a.b") == Base.FileNameWithoutExtension("Assets/a.c") == "a"
  {
    assert Base.FileName("Assets/a.b") == "a.b" by {
      assert Base.LastIndexOf("Assets/a.b", '/') == 6;
    }
    assert Base.FileName("Assets/a.c") == "a.c" by {
      assert Base.LastIndexOf("Assets/a.c", '/') == 6;
    }
  }

  /** The part of a path before its last '/', when it has one. */
  function Parent(path: string): (r: Base.Option<string>)
    ensures r.None? <==> '/' !in path
    ensures r.Some? ==> |r.value| < |path| && path[..|r.value|] == r.value && path[|r.value|] == '/'
  {
    var i := Base.LastIndexOf(path, '/');
    if i < 0 then Base.None else Base.Some(path[..i])
  }

  /** `GetSiblingIndex` against fresh answers from the host: -1 for a path
      without a '/', else the position of the item's name among its parent's
      sorted subfolder names, -1 when it is not one of them. */
  function SiblingIndex(host: EditorHost, path: string): (r: int)
    ensures '/' !in path ==> r == -1
    ensures '/' in path ==>
              var names := GetSubfolders(host, Parent(path).value);
              -1 <= r < |names|
              && (r == -1 <==> Base.FileNameWithoutExtension(path) !in names)
              && (r >= 0 ==> names[r] == Base.FileNameWithoutExtension(path))
              // `Array.IndexOf`: the first of possibly several subfolders with that name
              && (r >= 0 ==> forall i :: 0 <= i < r ==> names[i] != Base.FileNameWithoutExtension(path))
    // found exactly when the editor lists a subfolder of the parent with that name
    ensures '/' in path ==>
              (r >= 0 <==> Base.FileNameWithoutExtension(path) in SubfolderNames(host, Parent(path).value))
  {
    match Parent(path)
    case None => -1
    case Some(parent) => Base.IndexOf(GetSubfolders(host, parent), Base.FileNameWithoutExtension(path))
  }

  /** The items `ProjectWindowItemOnGUI` leaves alone before consulting any
      table: all of them when the plug-in is off, the "Assets" root, and the
      top-level folders under "Packages/" (whose path splits into two parts). */
  predicate SkippedUpFront(general: Settings.General, path: string, folder: bool): (r: bool)
    ensures r <==> !general.enable || path == "Assets" || (folder && TopLevelPackage(path))
  {
    PackagesDepth(path);
    !general.enable || path == "Assets"
    || (folder && Base.StartsWith(path, "Packages/") && Base.CountChar(path, '/') == 1)
  }

  /** A folder directly under "Packages/": the prefix, then a name without '/'. */
  predicate TopLevelPackage(path: string)
  {
    Base.StartsWith(path, "Packages/") && '/' !in path[|"Packages/"|..]
  }

  /** Under "Packages/", one '/' in all means none after the prefix. */
  lemma PackagesDepth(path: string)
    ensures Base.StartsWith(path, "Packages/") ==> (Base.CountChar(path, '/') == 1 <==> TopLevelPackage(path))
  {
    if Base.StartsWith(path, "Packages/") {
      var rest := path[|"Packages/"|..];
      assert path == "Packages/" + rest;
      Base.CountCharAppend("Packages/", rest, '/');
      Base.CountCharAppend("Packages", "/", '/');
      assert "Packages" + "/" == "Packages/";
      Base.CountCharZero("Packages", '/');
      assert Base.CountChar("/", '/') == 1 by {
        assert "/"[1..] == "";
      }
      Base.CountCharPositive(rest, '/');
    }
  }

  /** The layers an item is drawn with, in order: the hierarchy-level entry, the
      sibling-index entry, the keyword entry (folders only) and the path entry,
      each when its lookup found one. For an asset, the two automatic entries are
      shown through `auto`. */
  function LayerList(level: Settings.StylishData?, sibling: Settings.StylishData?, keyword: Settings.StylishData?,
                     path: Settings.StylishData?, folder: bool, auto: Settings.StylishData): (r: seq<Settings.StylishData>)
    ensures |r| == (if level != null then 1 else 0) + (if sibling != null then 1 else 0)
                   + (if keyword != null && folder then 1 else 0) + (if path != null then 1 else 0)
    ensures path != null ==> r[|r| - 1] == path
    ensures level != null ==> r[0] == (if folder then level else auto)
    ensures sibling != null ==> r[if level != null then 1 else 0] == (if folder then sibling else auto)
    ensures keyword != null && folder ==>
              r[(if level != null then 1 else 0) + (if sibling != null then 1 else 0)] == keyword
    // an asset is drawn with the shared entry and its own path entry only
    ensures !folder ==> forall i :: 0 <= i < |r| ==> r[i] == auto || r[i] == path
  {
    (if level != null then [if folder then level else auto] else [])
    + (if sibling != null then [if folder then sibling else auto] else [])
    + (if keyword != null && folder then [keyword] else [])
    + (if path != null then [path] else [])
  }

  /** `GetSubfolders` as the producer handed to `s_SubfolderTable.Get`. */
  function SubfolderProducer(host: EditorHost): string -> seq<string>
  {
    p => GetSubfolders(host, p)
  }

  /** `GetSiblingIndex` as the producer handed to `s_SiblingIndexTable.Get`. */
  function SiblingProducer(host: EditorHost): string -> int
  {
    p => SiblingIndex(host, p)
  }

  /** The static state of ProjectViewGUI. */
  class ProjectView {
    var instanceIDTable: map<string, int>
    var subfolderTable: map<string, seq<string>>
    var hierarchyLevelTable: map<string, int>
    var siblingIndexTable: map<string, int>
    /** `s_StylishData` and `s_StylishHighlight`. */
    const autoData: Settings.StylishData
    const autoHighlight: Highlight.StylishHighlight
    /** `s_StylishDataList`. */
    var dataList: seq<Settings.StylishData>

    /** The shared entry never shows an icon. */
    ghost predicate Valid()
      reads this, autoData, autoData.icon
    {
      autoData.icon.mode == Icon.Mode.None
    }

    /** Every cached answer is the one the host gives now. */
    ghost predicate Consistent(host: EditorHost)
      reads this
    {
      Utils.Agrees(instanceIDTable, host.instanceID)
      && Utils.Agrees(subfolderTable, SubfolderProducer(host))
      && Utils.Agrees(hierarchyLevelTable, GetHierarchyLevel)
      && Utils.Agrees(siblingIndexTable, SiblingProducer(host))
    }

    constructor()
      ensures Valid() && fresh(autoData) && fresh(autoHighlight) && dataList == []
      ensures instanceIDTable == map[] && subfolderTable == map[] && hierarchyLevelTable == map[] && siblingIndexTable == map[]
      ensures autoHighlight.GetStyle() == Highlight.DefaultStyle && autoData.highlight != autoHighlight
    {
      instanceIDTable, subfolderTable, hierarchyLevelTable, siblingIndexTable := map[], map[], map[], map[];
      autoData := new Settings.StylishData();
      autoHighlight := new Highlight.StylishHighlight();
      dataList := [];
    }

    /** `ProjectWindowChanged`: the project changed, so every table is dropped,
        which makes them agree with whatever the host answers from now on. */
    method ProjectWindowChanged(host: EditorHost)
      modifies this
      ensures instanceIDTable == map[] && subfolderTable == map[] && hierarchyLevelTable == map[] && siblingIndexTable == map[]
      ensures Consistent(host)
      ensures dataList == old(dataList)
    {
      instanceIDTable, subfolderTable, hierarchyLevelTable, siblingIndexTable := map[], map[], map[], map[];
    }

    /** `GetSiblingIndex(path)`, reading the parent's subfolders through `s_SubfolderTable`. */
    method GetSiblingIndex(host: EditorHost, path: string) returns (r: int)
      modifies this
      ensures Parent(path).None? ==> r == -1 && subfolderTable == old(subfolderTable)
      ensures Parent(path).Some? ==>
                var c := Utils.CacheGet(old(subfolderTable), Parent(path).value, SubfolderProducer(host));
                subfolderTable == c.cache && r == Base.IndexOf(c.value, Base.FileNameWithoutExtension(path))
      ensures old(Utils.Agrees(subfolderTable, SubfolderProducer(host))) ==>
                Utils.Agrees(subfolderTable, SubfolderProducer(host)) && r == SiblingIndex(host, path)
      ensures instanceIDTable == old(instanceIDTable) && hierarchyLevelTable == old(hierarchyLevelTable)
      ensures siblingIndexTable == old(siblingIndexTable) && dataList == old(dataList)
    {
      var parent := Parent(path);
      if parent.None? {
        return -1;
      }
      if Utils.Agrees(subfolderTable, SubfolderProducer(host)) {
        Utils.CacheGetAgrees(subfolderTable, parent.value, SubfolderProducer(host));
      }
      var c := Utils.CacheGet(subfolderTable, parent.value, SubfolderProducer(host));
      subfolderTable := c.cache;
      r := Base.IndexOf(c.value, Base.FileNameWithoutExtension(path));
    }

    /** The three table lookups `ProjectWindowItemOnGUI` makes for an item:
        instance id, hierarchy level and sibling index. */
    method LookUp(host: EditorHost, path: string) returns (level: int, sibling: int)
      modifies this
      ensures instanceIDTable == Utils.CacheGet(old(instanceIDTable), path, host.instanceID).cache
      ensures var c := Utils.CacheGet(old(hierarchyLevelTable), path, GetHierarchyLevel);
              hierarchyLevelTable == c.cache && level == c.value
      ensures path in old(siblingIndexTable) ==>
                sibling == old(siblingIndexTable)[path] && siblingIndexTable == old(siblingIndexTable)
                && subfolderTable == old(subfolderTable)
      ensures path !in old(siblingIndexTable) ==> siblingIndexTable == old(siblingIndexTable)[path := sibling]
      ensures old(Consistent(host)) ==>
                Consistent(host) && level == GetHierarchyLevel(path) && sibling == SiblingIndex(host, path)
      ensures dataList == old(dataList)
    {
      ghost var consistent := Consistent(host);
      if consistent {
        Utils.CacheGetAgrees(instanceIDTable, path, host.instanceID);
        Utils.CacheGetAgrees(hierarchyLevelTable, path, GetHierarchyLevel);
      }
      instanceIDTable := Utils.CacheGet(instanceIDTable, path, host.instanceID).cache;
      var c := Utils.CacheGet(hierarchyLevelTable, path, GetHierarchyLevel);
      hierarchyLevelTable, level := c.cache, c.value;
      if path in siblingIndexTable {
        sibling := siblingIndexTable[path];
      } else {
        sibling := GetSiblingIndex(host, path);
        siblingIndexTable := siblingIndexTable[path := sibling];
      }
    }

    /** `GetAutoStylishData(data, folder)`: a folder shows the entry itself; an
        asset shows the shared entry, which takes the entry's highlight only when
        `autoLevelAsset` is set and the default highlight otherwise. */
    method GetAutoStylishData(autoLevelAsset: bool, data: Settings.StylishData, folder: bool)
      returns (r: Settings.StylishData)
      modifies autoData
      ensures folder ==> r == data && unchanged(autoData)
      ensures !folder ==> r == autoData
      ensures !folder ==> autoData.highlight == (if autoLevelAsset then data.highlight else autoHighlight)
      ensures autoData.name == old(autoData.name) && autoData.icon == old(autoData.icon)
    {
      if !folder {
        autoData.highlight := autoHighlight;
        if autoLevelAsset {
          autoData.highlight := data.highlight;
        }
        return autoData;
      }
      return data;
    }

    /** Rebuilds `s_StylishDataList` for an item from the results of the four
        lookups, level, sibling, keyword and path. */
    method CollectLayers(autoLevelAsset: bool, folder: bool, level: Settings.StylishData?, sibling: Settings.StylishData?,
                         keyword: Settings.StylishData?, path: Settings.StylishData?)
      modifies this, autoData
      ensures dataList == LayerList(level, sibling, keyword, path, folder, autoData)
      // the two automatic entries of an asset are one shared object, last set by the sibling lookup
      ensures !folder && (level != null || sibling != null) ==>
                autoData.highlight == (if !autoLevelAsset then autoHighlight
                                       else if sibling != null then sibling.highlight
                                       else level.highlight)
      ensures folder || (level == null && sibling == null) ==> autoData.highlight == old(autoData.highlight)
      ensures autoData.name == old(autoData.name) && autoData.icon == old(autoData.icon)
      ensures instanceIDTable == old(instanceIDTable) && subfolderTable == old(subfolderTable)
      ensures hierarchyLevelTable == old(hierarchyLevelTable) && siblingIndexTable == old(siblingIndexTable)
    {
      var first, second := [], [];
      if level != null {
        var d := GetAutoStylishData(autoLevelAsset, level, folder);
        first := [d];
      }
      if sibling != null {
        var d := GetAutoStylishData(autoLevelAsset, sibling, folder);
        second := [d];
      }
      dataList := first + second + (if keyword != null && folder then [keyword] else []) + (if path != null then [path] else []);
    }

    /** `ProjectWindowItemOnGUI` up to the choice of draw routine: the layers the
        item is drawn with, empty when it is skipped or nothing applies to it.
        `hasBrowser` is whether a project browser was last interacted with. */
    method ItemOnGUI(settings: Settings.StylishSettings, host: EditorHost, path: string, hasBrowser: bool)
      returns (layers: seq<Settings.StylishData>)
      modifies this, autoData
      ensures SkippedUpFront(settings.general, path, host.isFolder(path)) ==>
                layers == [] && unchanged(this) && unchanged(autoData)
      ensures !SkippedUpFront(settings.general, path, host.isFolder(path)) ==>
                instanceIDTable == Utils.CacheGet(old(instanceIDTable), path, host.instanceID).cache
                && hierarchyLevelTable == Utils.CacheGet(old(hierarchyLevelTable), path, GetHierarchyLevel).cache
                && path in siblingIndexTable
      ensures !SkippedUpFront(settings.general, path, host.isFolder(path))
              && (settings.GetPathStylishBypass(path) || !hasBrowser) ==>
                layers == [] && dataList == old(dataList) && unchanged(autoData)
      ensures !SkippedUpFront(settings.general, path, host.isFolder(path))
              && !settings.GetPathStylishBypass(path) && hasBrowser && old(Consistent(host)) ==>
                layers == dataList
                && layers == LayerList(settings.GetHierarchyLevelStylishData(GetHierarchyLevel(path)),
                                       settings.GetSiblingIndexStylishData(SiblingIndex(host, path)),
                                       settings.GetKeywordStylishData(Base.FileNameWithoutExtension(path)),
                                       settings.GetPathStylishData(path), host.isFolder(path), autoData)
      ensures old(Consistent(host)) ==> Consistent(host)
      ensures autoData.name == old(autoData.name) && autoData.icon == old(autoData.icon)
    {
      if !settings.general.enable {
        return [];
      }
      if path == "Assets" {
        return [];
      }
      if host.isFolder(path) && Base.StartsWith(path, "Packages/") && Base.CountChar(path, '/') == 1 {
        return [];
      }
      var name := Base.FileNameWithoutExtension(path);
      var folder := host.isFolder(path);
      var level, sibling := LookUp(host, path);
      if settings.GetPathStylishBypass(path) || !hasBrowser {
        return [];
      }
      CollectLayers(settings.general.autoLevelAsset, folder, settings.GetHierarchyLevelStylishData(level),
                    settings.GetSiblingIndexStylishData(sibling), settings.GetKeywordStylishData(name),
                    settings.GetPathStylishData(path));
      layers := dataList;
    }
  }
}
