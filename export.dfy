/** ExportSettings (ExportSettings.cs): the settings as they are written to and
    read from a settings file. Every object reference becomes a value; an icon
    override's icon becomes its index in the icon list. */
module Export {
  import Base
  import Utils
  import Highlight
  import Icon
  import Settings

  /** ExportStylishIcon: the two layer lists of an icon. */
  datatype ExportIcon = ExportIcon(normal: seq<Icon.TextureLayer>, small: seq<Icon.TextureLayer>)

  /** ExportStylishIconOverride. Its `Mode` enum has the members of the override's
      own, in the same order, so the casts between them keep the member. */
  datatype ExportIconOverride = ExportIconOverride(mode: Icon.Mode, blend: Utils.BlendMode, icon: int,
                                                   normalTints: seq<Base.Color>, smallTints: seq<Base.Color>)

  datatype ExportStylishData = ExportStylishData(name: Base.Option<string>, icon: ExportIconOverride, highlight: Highlight.Style)

  datatype ExportPathData = ExportPathData(path: string, bypass: bool, enable: bool, autoLevel: bool, autoSibling: bool,
                                           stylishData: ExportStylishData)

  /** The settings file. The fields an icon-only export leaves unset are read back
      as their defaults: the default general switches and empty lists. */
  datatype ExportSettings = ExportSettings(
    iconOnly: bool, general: Settings.General, subfolderList: seq<string>, subfolderToggleList: seq<bool>,
    stylishIconList: seq<ExportIcon>, cyclicStylishList: seq<ExportStylishData>, keywordStylishList: seq<ExportStylishData>,
    pathDataList: seq<ExportPathData>, highlightPresetList: seq<Highlight.Style>)

  /** `stylishIconList.IndexOf(icon)`: the icon's first index, or -1 for no icon or
      an icon missing from the list. */
  function ExportIndex(icons: seq<Icon.StylishIcon>, x: Icon.StylishIcon?): (r: int)
    ensures -1 <= r < |icons|
    ensures r == -1 <==> x == null || x !in icons
    ensures r >= 0 ==> icons[r] == x
  {
    if x == null then -1 else Base.IndexOf(icons, x)
  }

  /** `stylishIconList[index]` as written: every index outside the list, -1
      included, throws (None). */
  function ImportIconAsWritten(icons: seq<Icon.StylishIcon>, index: int): (r: Base.Option<Icon.StylishIcon?>)
    ensures r.Some? <==> 0 <= index < |icons|
    ensures r.Some? ==> r.value == icons[index]
  {
    if 0 <= index < |icons| then Base.Some(icons[index]) else Base.None
  }

  /** An entry without an icon is written with index -1, which the import as
      written cannot read back, whatever the icon list. */
  lemma NoIconAsWrittenFails(icons: seq<Icon.StylishIcon>)
    ensures ExportIndex(icons, null) == -1
    ensures ImportIconAsWritten(icons, ExportIndex(icons, null)) == Base.None
  {
  }

  /** The index read back as intended: -1 is "no icon", any other index outside
      the list is an error (None). */
  function ImportIcon(icons: seq<Icon.StylishIcon>, index: int): (r: Base.Option<Icon.StylishIcon?>)
    ensures r.Some? <==> index == -1 || 0 <= index < |icons|
    ensures r.Some? ==> r.value == (if index == -1 then null else icons[index])
    ensures index != -1 ==> r == ImportIconAsWritten(icons, index)
  {
    if index == -1 then Base.Some(null) else ImportIconAsWritten(icons, index)
  }

  /** Writing an icon reference and reading it back against the same list gives the
      icon back when it is absent or listed; an icon missing from the list reads back
      as no icon. */
  lemma IconRoundTrip(icons: seq<Icon.StylishIcon>, x: Icon.StylishIcon?)
    ensures x == null || x in icons ==> ImportIcon(icons, ExportIndex(icons, x)) == Base.Some(x)
    ensures x != null && x !in icons ==> ImportIcon(icons, ExportIndex(icons, x)) == Base.Some(null)
  {
  }

  /** Reading an index back and writing it again gives the index back when it is
      -1 or in range and no icon is listed twice. */
  lemma IndexRoundTrip(icons: seq<Icon.StylishIcon>, index: int)
    requires Base.NoDups(icons)
    requires ImportIcon(icons, index).Some?
    ensures ExportIndex(icons, ImportIcon(icons, index).value) == index
  {
    if index != -1 {
      var x := icons[index];
      var j := Base.IndexOf(icons, x);
      assert j <= index && icons[j] == x;
    }
  }

  function ExportIconOf(i: Icon.StylishIcon): ExportIcon
    reads i
  {
    ExportIcon(i.normal, i.small)
  }

  /** `CreateExportStylishData`. */
  function CreateExportStylishData(icons: seq<Icon.StylishIcon>, d: Settings.StylishData): ExportStylishData
    reads d, d.icon, d.highlight
  {
    ExportStylishData(d.name,
      ExportIconOverride(d.icon.mode, d.icon.blend, ExportIndex(icons, d.icon.icon), d.icon.normalTints, d.icon.smallTints),
      d.highlight.GetStyle())
  }

  /** `CreateExportPathData`. */
  function CreateExportPathData(icons: seq<Icon.StylishIcon>, p: Settings.PathData): ExportPathData
    reads p, p.stylishData, p.stylishData.icon, p.stylishData.highlight
  {
    ExportPathData(p.path, p.bypass, p.enable, p.autoLevel, p.autoSibling, CreateExportStylishData(icons, p.stylishData))
  }

  /** The objects an export of the entries `datas` reads. */
  ghost function EntryObjects(datas: seq<Settings.StylishData>): set<object>
    reads set d | d in datas
  {
    (set d | d in datas :: d as object) + (set d | d in datas :: d.icon as object) + (set d | d in datas :: d.highlight as object)
  }

  /** The objects an export of the path entries `ps` reads. */
  ghost function PathObjects(ps: seq<Settings.PathData>): set<object>
    reads set p | p in ps, set p | p in ps :: p.stylishData
  {
    (set p | p in ps :: p as object) + (set p | p in ps :: p.stylishData as object)
    + (set p | p in ps :: p.stylishData.icon as object) + (set p | p in ps :: p.stylishData.highlight as object)
  }

  /** The entries `datas` are written as `es`. */
  ghost predicate EntriesExport(icons: seq<Icon.StylishIcon>, datas: seq<Settings.StylishData>, es: seq<ExportStylishData>)
    reads EntryObjects(datas), set d | d in datas
  {
    |datas| == |es| && forall i :: 0 <= i < |datas| ==> CreateExportStylishData(icons, datas[i]) == es[i]
  }

  /** The path entries `ps` are written as `es`. */
  ghost predicate PathsExport(icons: seq<Icon.StylishIcon>, ps: seq<Settings.PathData>, es: seq<ExportPathData>)
    reads set p | p in ps, set p | p in ps :: p.stylishData, PathObjects(ps)
  {
    |ps| == |es| && forall i :: 0 <= i < |ps| ==> CreateExportPathData(icons, ps[i]) == es[i]
  }

  /** The icons `icons` are written as `es`. */
  ghost predicate IconsExport(icons: seq<Icon.StylishIcon>, es: seq<ExportIcon>)
    reads set i | i in icons
  {
    |icons| == |es| && forall i :: 0 <= i < |icons| ==> ExportIconOf(icons[i]) == es[i]
  }

  /** The highlights `hs` are written as the styles `es`. */
  ghost predicate PresetsExport(hs: seq<Highlight.StylishHighlight>, es: seq<Highlight.Style>)
    reads set h | h in hs
  {
    |hs| == |es| && forall i :: 0 <= i < |hs| ==> hs[i].GetStyle() == es[i]
  }

  /** `e` is what a full export of `s` writes: the switches and subfolder lists as
      they are, and every icon, entry, path entry and preset written in order. */
  ghost predicate Exports(s: Settings.StylishSettings, e: ExportSettings)
    reads s, set i | i in s.stylishIconList, set h | h in s.highlightPresetList
    reads EntryObjects(s.cyclicStylishList), set d | d in s.cyclicStylishList
    reads EntryObjects(s.keywordStylishList), set d | d in s.keywordStylishList
    reads set p | p in s.pathDataList, set p | p in s.pathDataList :: p.stylishData, PathObjects(s.pathDataList)
  {
    !e.iconOnly && e.general == s.general && e.subfolderList == s.subfolderList && e.subfolderToggleList == s.subfolderToggleList
    && IconsExport(s.stylishIconList, e.stylishIconList)
    && EntriesExport(s.stylishIconList, s.cyclicStylishList, e.cyclicStylishList)
    && EntriesExport(s.stylishIconList, s.keywordStylishList, e.keywordStylishList)
    && PathsExport(s.stylishIconList, s.pathDataList, e.pathDataList)
    && PresetsExport(s.highlightPresetList, e.highlightPresetList)
  }

  /** A full export of the settings is determined by them: two files that both
      export `s` are the same file. With `ImportSettings` and `CreateExportSettings`
      this makes exporting a fully imported file give the file back. */
  lemma ExportIsDetermined(s: Settings.StylishSettings, e1: ExportSettings, e2: ExportSettings)
    requires Exports(s, e1) && Exports(s, e2)
    ensures e1 == e2
  {
    assert e1.stylishIconList == e2.stylishIconList by {
      forall i | 0 <= i < |e1.stylishIconList|
        ensures e1.stylishIconList[i] == e2.stylishIconList[i]
      {
        assert ExportIconOf(s.stylishIconList[i]) == e1.stylishIconList[i];
      }
    }
    assert e1.cyclicStylishList == e2.cyclicStylishList by {
      forall i | 0 <= i < |e1.cyclicStylishList|
        ensures e1.cyclicStylishList[i] == e2.cyclicStylishList[i]
      {
        assert CreateExportStylishData(s.stylishIconList, s.cyclicStylishList[i]) == e1.cyclicStylishList[i];
      }
    }
    assert e1.keywordStylishList == e2.keywordStylishList by {
      forall i | 0 <= i < |e1.keywordStylishList|
        ensures e1.keywordStylishList[i] == e2.keywordStylishList[i]
      {
        assert CreateExportStylishData(s.stylishIconList, s.keywordStylishList[i]) == e1.keywordStylishList[i];
      }
    }
    assert e1.pathDataList == e2.pathDataList by {
      forall i | 0 <= i < |e1.pathDataList|
        ensures e1.pathDataList[i] == e2.pathDataList[i]
      {
        assert CreateExportPathData(s.stylishIconList, s.pathDataList[i]) == e1.pathDataList[i];
      }
    }
    assert e1.highlightPresetList == e2.highlightPresetList by {
      forall i | 0 <= i < |e1.highlightPresetList|
        ensures e1.highlightPresetList[i] == e2.highlightPresetList[i]
      {
        assert s.highlightPresetList[i].GetStyle() == e1.highlightPresetList[i];
      }
    }
  }

  /** `CreateExportSettings(instance, iconOnly)`: an icon-only export writes the
      icons and leaves every other field unset; a full export writes everything,
      the path entries in list order. */
  method CreateExportSettings(s: Settings.StylishSettings, iconOnly: bool) returns (e: ExportSettings)
    requires s.Valid()
    ensures e.iconOnly == iconOnly && IconsExport(s.stylishIconList, e.stylishIconList)
    ensures iconOnly ==> e.general == Settings.DefaultGeneral && e.subfolderList == [] && e.subfolderToggleList == []
                         && e.cyclicStylishList == [] && e.keywordStylishList == [] && e.pathDataList == []
                         && e.highlightPresetList == []
    ensures !iconOnly ==> Exports(s, e)
  {
    var icons := s.stylishIconList;
    var exIcons: seq<ExportIcon> := [];
    for i := 0 to |icons|
      invariant |exIcons| == i && forall j :: 0 <= j < i ==> ExportIconOf(icons[j]) == exIcons[j]
    {
      exIcons := exIcons + [ExportIcon(icons[i].normal, icons[i].small)];
    }
    if iconOnly {
      return ExportSettings(true, Settings.DefaultGeneral, [], [], exIcons, [], [], [], []);
    }
    var cyclic := ExportEntries(icons, s.cyclicStylishList);
    var keyword := ExportEntries(icons, s.keywordStylishList);
    var paths := ExportPaths(s);
    var presets := ExportPresets(s.highlightPresetList);
    e := ExportSettings(false, s.general, s.subfolderList, s.subfolderToggleList, exIcons, cyclic, keyword, paths, presets);
  }

  /** The loop over one list of entries, each written with `CreateExportStylishData`. */
  method ExportEntries(icons: seq<Icon.StylishIcon>, datas: seq<Settings.StylishData>) returns (es: seq<ExportStylishData>)
    ensures EntriesExport(icons, datas, es)
  {
    es := [];
    for i := 0 to |datas|
      invariant |es| == i && forall j :: 0 <= j < i ==> CreateExportStylishData(icons, datas[j]) == es[j]
    {
      es := es + [CreateExportStylishData(icons, datas[i])];
    }
  }

  /** The loop over `GetPathStylisPaths`, each path's registered entry written with
      `CreateExportPathData`: every entry of the list, in order. */
  method ExportPaths(s: Settings.StylishSettings) returns (es: seq<ExportPathData>)
    requires s.Valid()
    ensures PathsExport(s.stylishIconList, s.pathDataList, es)
  {
    var paths := s.GetPathStylisPaths();
    es := [];
    for i := 0 to |paths|
      invariant |es| == i && forall j :: 0 <= j < i ==> CreateExportPathData(s.stylishIconList, s.pathDataList[j]) == es[j]
    {
      var d := s.Registered(paths[i]);
      assert d == s.pathDataList[i];
      es := es + [CreateExportPathData(s.stylishIconList, d)];
    }
  }

  /** The highlight presets, written as their styles. */
  method ExportPresets(hs: seq<Highlight.StylishHighlight>) returns (styles: seq<Highlight.Style>)
    ensures PresetsExport(hs, styles)
  {
    styles := [];
    for i := 0 to |hs|
      invariant |styles| == i && forall j :: 0 <= j < i ==> hs[j].GetStyle() == styles[j]
    {
      styles := styles + [hs[i].GetStyle()];
    }
  }

  /** Every highlight in the file has the keys a Unity gradient always has. */
  predicate WellFormedEntry(e: ExportStylishData)
  {
    e.highlight.gradient.WellFormed()
  }

  predicate WellFormed(e: ExportSettings)
  {
    (forall i :: 0 <= i < |e.cyclicStylishList| ==> WellFormedEntry(e.cyclicStylishList[i]))
    && (forall i :: 0 <= i < |e.keywordStylishList| ==> WellFormedEntry(e.keywordStylishList[i]))
    && (forall i :: 0 <= i < |e.pathDataList| ==> WellFormedEntry(e.pathDataList[i].stylishData))
    && (forall i :: 0 <= i < |e.highlightPresetList| ==> e.highlightPresetList[i].gradient.WellFormed())
  }

  /** Every icon index of the entries reads back. */
  predicate IndicesOk(n: nat, es: seq<ExportStylishData>)
  {
    forall i :: 0 <= i < |es| ==> es[i].icon.icon == -1 || 0 <= es[i].icon.icon < n
  }

  predicate PathIndicesOk(n: nat, es: seq<ExportPathData>)
  {
    forall i :: 0 <= i < |es| ==> es[i].stylishData.icon.icon == -1 || 0 <= es[i].stylishData.icon.icon < n
  }

  /** No two path entries of the file share a path. */
  predicate DistinctPaths(es: seq<ExportPathData>)
  {
    forall i, j :: 0 <= i < j < |es| ==> es[i].path != es[j].path
  }

  /** `CreateStylishData` with the corrected icon lookup: null when the icon index
      does not read back (the exception). A read-back entry is written again as
      the file's entry. */
  method CreateStylishData(icons: seq<Icon.StylishIcon>, e: ExportStylishData) returns (d: Settings.StylishData?)
    requires WellFormedEntry(e)
    ensures d != null <==> ImportIcon(icons, e.icon.icon).Some?
    ensures d != null ==> fresh(d) && fresh(d.icon) && fresh(d.highlight) && d.highlight.Valid()
    ensures d != null ==> d.icon.icon == ImportIcon(icons, e.icon.icon).value
    ensures d != null && Base.NoDups(icons) ==> CreateExportStylishData(icons, d) == e
  {
    var icon := ImportIcon(icons, e.icon.icon);
    if icon.None? {
      return null;
    }
    d := new Settings.StylishData();
    d.name := e.name;
    d.highlight := new Highlight.StylishHighlight.FromStyle(e.highlight);
    var o := new Icon.StylishIconOverride();
    o.mode, o.blend, o.normalTints, o.smallTints := e.icon.mode, e.icon.blend, e.icon.normalTints, e.icon.smallTints;
    o.icon := icon.value;
    d.icon := o;
    if Base.NoDups(icons) {
      IndexRoundTrip(icons, e.icon.icon);
    }
  }

  /** `CreatePathData`: a new, unregistered path entry holding the file's entry. */
  method CreatePathData(icons: seq<Icon.StylishIcon>, e: ExportPathData) returns (p: Settings.PathData?)
    requires WellFormedEntry(e.stylishData)
    ensures p != null <==> ImportIcon(icons, e.stylishData.icon.icon).Some?
    ensures p != null ==> fresh(p) && fresh(p.stylishData) && fresh(p.stylishData.icon) && fresh(p.stylishData.highlight)
    ensures p != null ==> p.path == e.path
    ensures p != null && Base.NoDups(icons) ==> CreateExportPathData(icons, p) == e
  {
    var d := CreateStylishData(icons, e.stylishData);
    if d == null {
      return null;
    }
    p := new Settings.PathData(e.path);
    p.bypass, p.enable, p.autoLevel, p.autoSibling := e.bypass, e.enable, e.autoLevel, e.autoSibling;
    p.stylishData := d;
  }

  /** The loop over one list of entries: reads each entry back, stopping at the
      first one whose icon index does not read back. Returns the entries read. */
  method CreateEntries(icons: seq<Icon.StylishIcon>, es: seq<ExportStylishData>) returns (datas: seq<Settings.StylishData>, ok: bool)
    requires forall i :: 0 <= i < |es| ==> WellFormedEntry(es[i])
    ensures ok <==> IndicesOk(|icons|, es)
    ensures ok && Base.NoDups(icons) ==> EntriesExport(icons, datas, es)
    ensures forall d :: d in datas ==> fresh(d) && fresh(d.icon) && fresh(d.highlight)
  {
    datas := [];
    for i := 0 to |es|
      invariant |datas| == i && IndicesOk(|icons|, es[..i])
      invariant Base.NoDups(icons) ==> forall j :: 0 <= j < i ==> CreateExportStylishData(icons, datas[j]) == es[j]
      invariant forall d :: d in datas ==> fresh(d) && fresh(d.icon) && fresh(d.highlight)
    {
      var d := CreateStylishData(icons, es[i]);
      if d == null {
        assert !IndicesOk(|icons|, es) by {
          assert !(es[i].icon.icon == -1 || 0 <= es[i].icon.icon < |icons|);
        }
        return datas, false;
      }
      datas := datas + [d];
    }
    assert es[..|es|] == es;
    ok := true;
  }

  /** The icons of the file, each a new icon. */
  method CreateIcons(items: seq<ExportIcon>) returns (added: seq<Icon.StylishIcon>)
    ensures IconsExport(added, items) && Base.NoDups(added)
    ensures forall i :: 0 <= i < |added| ==> fresh(added[i])
  {
    added := [];
    for i := 0 to |items|
      invariant |added| == i && forall j :: 0 <= j < i ==> fresh(added[j]) && ExportIconOf(added[j]) == items[j]
      invariant Base.NoDups(added)
    {
      var icon := new Icon.StylishIcon();
      icon.small := items[i].small;
      icon.normal := items[i].normal;
      added := added + [icon];
    }
  }

  /** The highlight presets of the file, each a new highlight. */
  method ImportPresets(styles: seq<Highlight.Style>) returns (hs: seq<Highlight.StylishHighlight>)
    requires forall i :: 0 <= i < |styles| ==> styles[i].gradient.WellFormed()
    ensures PresetsExport(hs, styles)
    ensures forall h :: h in hs ==> fresh(h) && h.Valid()
  {
    hs := [];
    for i := 0 to |styles|
      invariant |hs| == i && forall j :: 0 <= j < i ==> hs[j].GetStyle() == styles[j]
      invariant forall h :: h in hs ==> fresh(h) && h.Valid()
    {
      var h := new Highlight.StylishHighlight.FromStyle(styles[i]);
      hs := hs + [h];
    }
  }

  /** The path entries of the file read back, stopping at the first one whose icon
      index does not read back. */
  method CreatePaths(icons: seq<Icon.StylishIcon>, es: seq<ExportPathData>) returns (ps: seq<Settings.PathData>, ok: bool)
    requires forall i :: 0 <= i < |es| ==> WellFormedEntry(es[i].stylishData)
    ensures ok <==> PathIndicesOk(|icons|, es)
    ensures ok ==> |ps| == |es| && forall i :: 0 <= i < |es| ==> ps[i].path == es[i].path
    ensures ok && Base.NoDups(icons) ==> PathsExport(icons, ps, es)
    ensures forall p :: p in ps ==> fresh(p) && fresh(p.stylishData) && fresh(p.stylishData.icon) && fresh(p.stylishData.highlight)
  {
    ps := [];
    for i := 0 to |es|
      invariant |ps| == i && PathIndicesOk(|icons|, es[..i])
      invariant forall j :: 0 <= j < i ==> ps[j].path == es[j].path
      invariant Base.NoDups(icons) ==> forall j :: 0 <= j < i ==> CreateExportPathData(icons, ps[j]) == es[j]
      invariant forall p :: p in ps ==> fresh(p) && fresh(p.stylishData) && fresh(p.stylishData.icon) && fresh(p.stylishData.highlight)
    {
      var p := CreatePathData(icons, es[i]);
      if p == null {
        assert !PathIndicesOk(|icons|, es) by {
          assert !(es[i].stylishData.icon.icon == -1 || 0 <= es[i].stylishData.icon.icon < |icons|);
        }
        return ps, false;
      }
      ps := ps + [p];
    }
    assert es[..|es|] == es;
    ok := true;
  }

  /** `AddPathData` on each entry read back, in file order: on an empty registry
      entries with distinct paths are all registered, in order. */
  method AddAll(s: Settings.StylishSettings, ps: seq<Settings.PathData>)
    requires s.Valid() && s.pathDataList == []
    modifies s
    ensures s.Valid()
    ensures (forall i, j :: 0 <= i < j < |ps| ==> ps[i].path != ps[j].path) ==> s.pathDataList == ps
    ensures s.Unchanged(old(s.general), old(s.subfolderList), old(s.subfolderToggleList), old(s.stylishIconList),
                        old(s.cyclicStylishList), old(s.keywordStylishList), old(s.highlightPresetList), old(s.keywordStylishTable))
  {
    ghost var distinct := forall i, j :: 0 <= i < j < |ps| ==> ps[i].path != ps[j].path;
    for i := 0 to |ps|
      invariant s.Valid()
      invariant distinct ==> s.pathDataList == ps[..i]
      invariant s.Unchanged(old(s.general), old(s.subfolderList), old(s.subfolderToggleList), old(s.stylishIconList),
                            old(s.cyclicStylishList), old(s.keywordStylishList), old(s.highlightPresetList), old(s.keywordStylishTable))
    {
      if distinct {
        assert forall q :: q in s.pathDataTable ==> s.pathDataTable[q] in ps[..i] && s.pathDataTable[q].path == q;
        assert ps[i].path !in s.pathDataTable;
      }
      var _ := s.AddPathData(ps[i]);
      if distinct {
        assert s.pathDataList == ps[..i + 1];
      }
    }
    assert ps[..|ps|] == ps;
  }

  /** `ImportSettings(instance, export, iconOnly)` with the corrected icon lookup.
      An icon-only import (asked for, or the file's own) appends the file's icons
      and keeps everything else; a full import clears the settings and reads every
      list back, icons first so that the entries' indices refer to them. Returns
      false when an exception would stop the import part way. */
  method ImportSettings(s: Settings.StylishSettings, e: ExportSettings, iconOnly: bool) returns (ok: bool)
    requires s.Valid() && WellFormed(e)
    modifies s
    ensures s.Valid()
    ensures iconOnly || e.iconOnly ==>
              ok && |s.stylishIconList| == |old(s.stylishIconList)| + |e.stylishIconList|
              && s.stylishIconList[..|old(s.stylishIconList)|] == old(s.stylishIconList)
              && IconsExport(s.stylishIconList[|old(s.stylishIconList)|..], e.stylishIconList)
              && s.Unchanged(old(s.general), old(s.subfolderList), old(s.subfolderToggleList), s.stylishIconList,
                             old(s.cyclicStylishList), old(s.keywordStylishList), old(s.highlightPresetList), old(s.keywordStylishTable))
              && s.pathDataList == old(s.pathDataList) && s.pathDataTable == old(s.pathDataTable)
    ensures !(iconOnly || e.iconOnly) ==>
              s.general == e.general && s.subfolderList == e.subfolderList && s.subfolderToggleList == e.subfolderToggleList
              && PresetsExport(s.highlightPresetList, e.highlightPresetList) && IconsExport(s.stylishIconList, e.stylishIconList)
              && (ok <==> FullImportOk(e))
              && (ok && DistinctPaths(e.pathDataList) ==> Exports(s, e))
  {
    if iconOnly || e.iconOnly {
      var added := CreateIcons(e.stylishIconList);
      s.stylishIconList := s.stylishIconList + added;
      assert s.stylishIconList[..|old(s.stylishIconList)|] == old(s.stylishIconList);
      assert s.stylishIconList[|old(s.stylishIconList)|..] == added;
      return true;
    }
    s.Clear();
    s.general := e.general;
    s.subfolderList := e.subfolderList;
    s.subfolderToggleList := e.subfolderToggleList;
    var presets := ImportPresets(e.highlightPresetList);
    s.highlightPresetList := presets;
    var icons := CreateIcons(e.stylishIconList);
    s.stylishIconList := icons;
    ok := ImportEntriesAndPaths(s, e);
  }

  /** A full import of `e` runs to its end: every icon index reads back and every
      keyword entry has a name. */
  predicate FullImportOk(e: ExportSettings)
  {
    IndicesOk(|e.stylishIconList|, e.cyclicStylishList) && IndicesOk(|e.stylishIconList|, e.keywordStylishList)
    && PathIndicesOk(|e.stylishIconList|, e.pathDataList)
    && forall i :: 0 <= i < |e.keywordStylishList| ==> e.keywordStylishList[i].name.Some?
  }

  /** The second half of a full import: the cyclic, keyword and path entries, then
      the tables. */
  method ImportEntriesAndPaths(s: Settings.StylishSettings, e: ExportSettings) returns (ok: bool)
    requires s.Valid() && WellFormed(e) && Base.NoDups(s.stylishIconList) && |s.stylishIconList| == |e.stylishIconList|
    requires s.pathDataList == [] && s.cyclicStylishList == [] && s.keywordStylishList == [] && s.keywordStylishTable == map[]
    modifies s
    ensures s.Valid()
    ensures s.general == old(s.general) && s.subfolderList == old(s.subfolderList)
    ensures s.subfolderToggleList == old(s.subfolderToggleList) && s.highlightPresetList == old(s.highlightPresetList)
    ensures s.stylishIconList == old(s.stylishIconList)
    ensures ok <==> FullImportOk(e)
    ensures ok ==> EntriesExport(s.stylishIconList, s.cyclicStylishList, e.cyclicStylishList)
                   && EntriesExport(s.stylishIconList, s.keywordStylishList, e.keywordStylishList)
                   && (DistinctPaths(e.pathDataList) ==> PathsExport(s.stylishIconList, s.pathDataList, e.pathDataList))
  {
    ok := ImportEntries(s, e);
    if !ok {
      return;
    }
    ok := ImportPathsAndTables(s, e);
  }

  /** The cyclic and keyword entries of a full import, stopping at the first entry
      whose icon index does not read back. */
  method ImportEntries(s: Settings.StylishSettings, e: ExportSettings) returns (ok: bool)
    requires WellFormed(e) && Base.NoDups(s.stylishIconList)
    requires s.cyclicStylishList == [] && s.keywordStylishList == []
    modifies s
    ensures s.general == old(s.general) && s.subfolderList == old(s.subfolderList)
    ensures s.subfolderToggleList == old(s.subfolderToggleList) && s.highlightPresetList == old(s.highlightPresetList)
    ensures s.stylishIconList == old(s.stylishIconList) && s.pathDataList == old(s.pathDataList)
    ensures s.pathDataTable == old(s.pathDataTable) && s.keywordStylishTable == old(s.keywordStylishTable)
    ensures ok <==> IndicesOk(|s.stylishIconList|, e.cyclicStylishList) && IndicesOk(|s.stylishIconList|, e.keywordStylishList)
    ensures ok ==> EntriesExport(s.stylishIconList, s.cyclicStylishList, e.cyclicStylishList)
                   && EntriesExport(s.stylishIconList, s.keywordStylishList, e.keywordStylishList)
    ensures forall d :: d in s.cyclicStylishList + s.keywordStylishList ==> fresh(d) && fresh(d.icon) && fresh(d.highlight)
  {
    var icons := s.stylishIconList;
    var cyclic, ok1 := CreateEntries(icons, e.cyclicStylishList);
    s.cyclicStylishList := cyclic;
    if !ok1 {
      return false;
    }
    var keyword, ok2 := CreateEntries(icons, e.keywordStylishList);
    s.keywordStylishList := keyword;
    ok := ok2;
  }

  /** The path entries of a full import, then `RebuildTable`, which fails when a
      keyword entry has no name. */
  method ImportPathsAndTables(s: Settings.StylishSettings, e: ExportSettings) returns (ok: bool)
    requires s.Valid() && WellFormed(e) && Base.NoDups(s.stylishIconList)
    requires s.pathDataList == [] && s.keywordStylishTable == map[]
    modifies s
    ensures s.Valid()
    ensures s.general == old(s.general) && s.subfolderList == old(s.subfolderList)
    ensures s.subfolderToggleList == old(s.subfolderToggleList) && s.highlightPresetList == old(s.highlightPresetList)
    ensures s.stylishIconList == old(s.stylishIconList)
    ensures s.cyclicStylishList == old(s.cyclicStylishList) && s.keywordStylishList == old(s.keywordStylishList)
    ensures ok <==> PathIndicesOk(|s.stylishIconList|, e.pathDataList)
                    && forall i :: 0 <= i < |s.keywordStylishList| ==> s.keywordStylishList[i].name.Some?
    ensures ok && DistinctPaths(e.pathDataList) ==> PathsExport(s.stylishIconList, s.pathDataList, e.pathDataList)
  {
    ok := ImportPaths(s, e.pathDataList);
    if !ok {
      return;
    }
    ok := RebuildAfterImport(s, e.pathDataList);
  }

  /** `RebuildTable` at the end of a full import: it fails exactly when a keyword
      entry has no name, and leaves the imported entries as they were read. */
  method RebuildAfterImport(s: Settings.StylishSettings, ghost es: seq<ExportPathData>) returns (ok: bool)
    requires s.Valid() && s.keywordStylishTable == map[]
    modifies s
    ensures s.Valid()
    ensures s.general == old(s.general) && s.subfolderList == old(s.subfolderList)
    ensures s.subfolderToggleList == old(s.subfolderToggleList) && s.highlightPresetList == old(s.highlightPresetList)
    ensures s.stylishIconList == old(s.stylishIconList) && s.pathDataList == old(s.pathDataList)
    ensures s.cyclicStylishList == old(s.cyclicStylishList) && s.keywordStylishList == old(s.keywordStylishList)
    ensures ok <==> forall i :: 0 <= i < |s.keywordStylishList| ==> s.keywordStylishList[i].name.Some?
    ensures old(PathsExport(s.stylishIconList, s.pathDataList, es)) ==> PathsExport(s.stylishIconList, s.pathDataList, es)
  {
    ghost var ps := s.pathDataList;
    ghost var icons := s.stylishIconList;
    label imported:
    ok := s.RebuildTable();
    var keyword := s.keywordStylishList;
    Settings.KeywordFoldLookup(map[], Settings.Names(keyword), keyword, |keyword|, "");
  }

  /** The loop over the file's path entries: each is read back and registered with
      `AddPathData`, which keeps the first entry of a path; stops at the first entry
      whose icon index does not read back. */
  method ImportPaths(s: Settings.StylishSettings, es: seq<ExportPathData>) returns (ok: bool)
    requires s.Valid() && s.pathDataList == []
    requires forall i :: 0 <= i < |es| ==> WellFormedEntry(es[i].stylishData)
    requires Base.NoDups(s.stylishIconList)
    modifies s
    ensures s.Valid()
    ensures s.Unchanged(old(s.general), old(s.subfolderList), old(s.subfolderToggleList), old(s.stylishIconList),
                        old(s.cyclicStylishList), old(s.keywordStylishList), old(s.highlightPresetList), old(s.keywordStylishTable))
    ensures ok <==> PathIndicesOk(|s.stylishIconList|, es)
    ensures ok && DistinctPaths(es) ==> PathsExport(s.stylishIconList, s.pathDataList, es)
  {
    var icons := s.stylishIconList;
    var ps, created := CreatePaths(icons, es);
    label read:
    AddAll(s, ps);
    assert forall i :: 0 <= i < |ps| ==> CreateExportPathData(icons, ps[i]) == old@read(CreateExportPathData(icons, ps[i]));
    ok := created;
  }
}
