/** FolderInspector (FolderInspector.cs): the inspector shown for selected folders.
    It keeps the selected paths with their names and selection toggles, the
    subfolder presets offered for creation with a toggle per preset name, and
    draws the enable/bypass switches of the selected folders. */
module FolderInspector {
  import Base
  import Settings
  import PathToggles

  const CreateSelected := "Create Selected"
  const NoPreset := "No Preset"
  const All := "All"

  /** `subfolderToggleList[i]`, or false past its end. */
  function ToggleAt(toggles: seq<bool>, i: int): bool
  {
    if 0 <= i < |toggles| then toggles[i] else false
  }

  /** The toggle dictionary after the loading loop has visited the first `n`
      preset names: each name maps to the toggle stored at its position, a later
      repeat of a name overwriting the earlier one. */
  function Loaded(names: seq<string>, toggles: seq<bool>, n: nat): map<string, bool>
    requires n <= |names|
  {
    if n == 0 then map[] else Loaded(names, toggles, n - 1)[names[n - 1] := ToggleAt(toggles, n - 1)]
  }

  /** A name is a key after loading exactly when it is among the visited names,
      and then holds the toggle stored at its last position. */
  lemma {:induction false} LoadedLookup(names: seq<string>, toggles: seq<bool>, n: nat, k: string)
    requires n <= |names|
    ensures k in Loaded(names, toggles, n) <==> k in names[..n]
    ensures k in Loaded(names, toggles, n) ==> Loaded(names, toggles, n)[k] == ToggleAt(toggles, Base.LastIndexBefore(names, k, n))
  {
    if n > 0 {
      LoadedLookup(names, toggles, n - 1, k);
      assert names[..n] == names[..n - 1] + [names[n - 1]];
    }
  }

  /** The preset names offered for creation: `subfolderList.Distinct()` without the
      empty name. */
  function PresetNames(names: seq<string>): (r: seq<string>)
    ensures Base.NoDups(r)
    ensures forall x :: x in r <==> x in names && x != ""
  {
    Base.Without(Base.Distinct(names), "")
  }

  /** The buttons of the "Create Subfolder" row: the preset names, then exactly one
      last button, "Create Selected", or "No Preset" when there are no names. */
  function DisplayList(names: seq<string>): (r: seq<string>)
    ensures |r| >= 1 && r[..|r| - 1] == PresetNames(names)
    ensures r[|r| - 1] == (if |PresetNames(names)| > 0 then CreateSelected else NoPreset)
  {
    var p := PresetNames(names);
    assert (p + [if |p| > 0 then CreateSelected else NoPreset])[..|p|] == p;
    p + [if |p| > 0 then CreateSelected else NoPreset]
  }

  /** The dictionary rebuilt for the current preset names: a name keeps the toggle
      it had and a new name starts off. */
  function Restricted(names: seq<string>, toggles: map<string, bool>): (m: map<string, bool>)
  {
    map k | k in names :: if k in toggles then toggles[k] else false
  }

  /** The list `SaveCreateToggleList` stores: the toggle of each preset name in
      `subfolderList`, off when the dictionary has no entry for it. */
  function SavedList(names: seq<string>, toggles: map<string, bool>): (r: seq<bool>)
    ensures |r| == |names|
  {
    seq(|names|, i requires 0 <= i < |names| => names[i] in toggles && toggles[names[i]])
  }

  /** With no repeated name, the name at `i` is loaded with the toggle stored at `i`. */
  lemma LoadedAt(names: seq<string>, toggles: seq<bool>, i: nat)
    requires Base.NoDups(names) && i < |names|
    ensures names[i] in Loaded(names, toggles, |names|) && Loaded(names, toggles, |names|)[names[i]] == ToggleAt(toggles, i)
  {
    assert names[..|names|] == names;
    LoadedLookup(names, toggles, |names|, names[i]);
  }

  /** Loading the stored toggles and saving them again gives back the stored
      toggles, padded with off up to the number of names, when no name repeats. */
  lemma LoadThenSave(names: seq<string>, toggles: seq<bool>)
    requires Base.NoDups(names)
    ensures SavedList(names, Loaded(names, toggles, |names|)) == seq(|names|, i requires 0 <= i < |names| => ToggleAt(toggles, i))
    ensures |toggles| == |names| ==> SavedList(names, Loaded(names, toggles, |names|)) == toggles
  {
    var m := Loaded(names, toggles, |names|);
    forall i | 0 <= i < |names|
      ensures SavedList(names, m)[i] == ToggleAt(toggles, i)
    {
      LoadedAt(names, toggles, i);
    }
  }

  /** Rebuilding the dictionary and saving it (`Update`) keeps the toggle of every
      non-empty preset name and turns off the empty one. */
  lemma UpdateKeepsToggles(names: seq<string>, toggles: map<string, bool>, i: nat)
    requires i < |names|
    ensures SavedList(names, Restricted(PresetNames(names), toggles))[i]
            == (names[i] != "" && names[i] in toggles && toggles[names[i]])
  {
    assert names[i] != "" ==> names[i] in PresetNames(names);
  }

  /** The dictionary's keys whose toggle is on, in dictionary order. */
  function Chosen(order: seq<string>, toggles: map<string, bool>): (r: seq<string>)
    requires forall k :: k in order ==> k in toggles
    ensures forall x :: x in r <==> x in order && toggles[x]
  {
    if |order| == 0 then []
    else
      var rest := Chosen(order[1..], toggles);
      assert forall x :: x in order <==> x == order[0] || x in order[1..];
      if toggles[order[0]] then [order[0]] + rest else rest
  }

  /** The folders `CreateSubfolder(selected)` creates: the clicked name, or every
      name whose toggle is on when called with null. */
  function Folders(selected: Base.Option<string>, order: seq<string>, toggles: map<string, bool>): (r: seq<string>)
    requires forall k :: k in order ==> k in toggles
  {
    if selected.Some? then [selected.value] else Chosen(order, toggles)
  }

  /** Synchronises the "All" toggle (the last one, present with more than one folder)
      with the others: on exactly when every other toggle is on. */
  function SyncAll(t: seq<bool>): (r: seq<bool>)
  {
    if |t| <= 1 then t else t[..|t| - 1] + [forall j :: 0 <= j < |t| - 1 ==> t[j]]
  }

  /** Sets toggle `i`; setting the "All" toggle sets every other toggle to match. */
  function Flip(t: seq<bool>, i: nat, toggle: bool): (r: seq<bool>)
    requires i < |t|
  {
    if toggle == t[i] then t
    else if |t| > 1 && i == |t| - 1 then seq(|t|, j requires 0 <= j < |t| => toggle)
    else t[i := toggle]
  }

  /** The "All" toggle is on exactly when every other toggle is. */
  predicate AllConsistent(t: seq<bool>)
  {
    |t| <= 1 || (t[|t| - 1] <==> forall j :: 0 <= j < |t| - 1 ==> t[j])
  }

  /** Synchronising makes the "All" toggle consistent and changes no other toggle;
      setting the "All" toggle keeps it consistent. */
  lemma AllToggleConsistent(t: seq<bool>, toggle: bool)
    ensures AllConsistent(SyncAll(t)) && |SyncAll(t)| == |t|
    ensures forall j :: 0 <= j < |t| - 1 ==> SyncAll(t)[j] == t[j]
    ensures AllConsistent(t) && |t| > 0 ==> AllConsistent(Flip(t, |t| - 1, toggle))
  {
    if |t| > 1 {
      var s := SyncAll(t);
      assert forall j :: 0 <= j < |t| - 1 ==> s[j] == t[j];
      if toggle != t[|t| - 1] {
        assert Flip(t, |t| - 1, toggle)[0] == toggle;
      }
    }
  }

  /** The toggle dictionary after the loading loop: `Loaded` over the stored lists,
      with its keys in the order they were first added. */
  method LoadToggleMap(names: seq<string>, toggles: seq<bool>) returns (m: map<string, bool>, order: seq<string>)
    ensures m == Loaded(names, toggles, |names|)
    ensures order == Base.Distinct(names)
    ensures forall k :: k in m <==> k in names
  {
    m, order := map[], [];
    for i := 0 to |names|
      invariant m == Loaded(names, toggles, i)
      invariant order == Base.Distinct(names[..i])
    {
      var toggle := false;
      if i < |toggles| {
        toggle := toggles[i];
      }
      assert names[..i + 1][..i] == names[..i];
      if names[i] !in order {
        order := order + [names[i]];
      }
      m := m[names[i] := toggle];
    }
    assert names[..|names|] == names;
    forall k
      ensures k in m <==> k in names
    {
      LoadedLookup(names, toggles, |names|, k);
    }
  }

  /** `foreach (var folder in m_SubfolderList)`: the dictionary for the current
      names, keeping earlier toggles. */
  method RestrictToggleMap(names: seq<string>, toggles: map<string, bool>) returns (m: map<string, bool>)
    ensures m == Restricted(names, toggles)
  {
    m := map[];
    for i := 0 to |names|
      invariant m == Restricted(names[..i], toggles)
    {
      assert names[..i + 1] == names[..i] + [names[i]];
      m := m[names[i] := false];
      if names[i] in toggles {
        m := m[names[i] := toggles[names[i]]];
      }
    }
    assert names[..|names|] == names;
  }

  /** The loop of `SaveCreateToggleList`. */
  method SaveList(names: seq<string>, toggles: map<string, bool>) returns (r: seq<bool>)
    ensures r == SavedList(names, toggles)
  {
    r := [];
    for i := 0 to |names|
      invariant |r| == i && forall j :: 0 <= j < i ==> r[j] == (names[j] in toggles && toggles[names[j]])
    {
      var toggle := false;
      if names[i] in toggles {
        toggle := toggles[names[i]];
      }
      r := r + [toggle];
    }
  }

  /** The calls for one path: each folder not yet listed, in the order of `folders`. */
  function FolderCreations(path: string, folders: seq<string>, subFolders: seq<string>): seq<(string, string)>
  {
    if |folders| == 0 then []
    else
      var last := folders[|folders| - 1];
      FolderCreations(path, folders[..|folders| - 1], subFolders)
      + (if path + "/" + last !in subFolders then [(path, last)] else [])
  }

  /** The calls for every path but the empty one, path by path in order. */
  function Creations(paths: seq<string>, folders: seq<string>, existing: string -> seq<string>): seq<(string, string)>
  {
    if |paths| == 0 then []
    else
      var last := paths[|paths| - 1];
      Creations(paths[..|paths| - 1], folders, existing)
      + (if last != "" then FolderCreations(last, folders, existing(last)) else [])
  }

  /** The `CreateFolder(path, name)` calls for the folders `folders` under every
      selected path but the empty "All" one, skipping the subfolders that already
      exist (`existing(path)` is `AssetDatabase.GetSubFolders(path)`). */
  method CreateFolders(paths: seq<string>, folders: seq<string>, existing: string -> seq<string>)
    returns (created: seq<(string, string)>)
    ensures forall path, name :: (path, name) in created <==>
              path in paths && path != "" && name in folders && path + "/" + name !in existing(path)
    // the calls are issued path by path, and for each path folder by folder
    ensures created == Creations(paths, folders, existing)
  {
    created := [];
    for i := 0 to |paths|
      invariant created == Creations(paths[..i], folders, existing)
    {
      assert paths[..i + 1][..i] == paths[..i];
      var path := paths[i];
      ghost var before := created;
      if path != "" {
        var subFolders := existing(path);
        for j := 0 to |folders|
          invariant created == before + FolderCreations(path, folders[..j], subFolders)
        {
          assert folders[..j + 1][..j] == folders[..j];
          if path + "/" + folders[j] !in subFolders {
            created := created + [(path, folders[j])];
          }
        }
        assert folders[..|folders|] == folders;
      }
    }
    assert paths[..|paths|] == paths;
    forall path, name
      ensures (path, name) in created <==>
              path in paths && path != "" && name in folders && path + "/" + name !in existing(path)
    {
      CreationsMembers(paths, folders, existing, path, name);
    }
  }

  /** The calls for one path are those for the folders it lacks. */
  lemma {:induction false} FolderCreationsMembers(path: string, folders: seq<string>, subFolders: seq<string>, p: string, name: string)
    ensures (p, name) in FolderCreations(path, folders, subFolders) <==>
            p == path && name in folders && path + "/" + name !in subFolders
  {
    if |folders| > 0 {
      var init := folders[..|folders| - 1];
      FolderCreationsMembers(path, init, subFolders, p, name);
      assert folders == init + [folders[|folders| - 1]];
    }
  }

  /** The calls are those for the folders each non-empty path lacks. */
  lemma {:induction false} CreationsMembers(paths: seq<string>, folders: seq<string>, existing: string -> seq<string>, p: string, name: string)
    ensures (p, name) in Creations(paths, folders, existing) <==>
            p in paths && p != "" && name in folders && p + "/" + name !in existing(p)
  {
    if |paths| > 0 {
      var init := paths[..|paths| - 1];
      var last := paths[|paths| - 1];
      CreationsMembers(init, folders, existing, p, name);
      FolderCreationsMembers(last, folders, existing(last), p, name);
      assert paths == init + [last];
    }
  }

  /** The `foreach` of `OnEnable`: each target's path, its name and an "on"
      toggle, followed by the "All" entry with an empty path when there are several. */
  method TargetLists(targets: seq<string>) returns (paths: seq<string>, names: seq<string>, toggles: seq<bool>)
    ensures paths == targets + (if |targets| > 1 then [""] else [])
    ensures |names| == |paths| && |toggles| == |paths|
    ensures forall i :: 0 <= i < |targets| ==> names[i] == Base.FileNameWithoutExtension(targets[i])
    ensures |targets| > 1 ==> names[|targets|] == All
    ensures forall i :: 0 <= i < |toggles| ==> toggles[i]
  {
    paths, names, toggles := [], [], [];
    for i := 0 to |targets|
      invariant paths == targets[..i] && |names| == i && |toggles| == i
      invariant forall j :: 0 <= j < i ==> names[j] == Base.FileNameWithoutExtension(targets[j]) && toggles[j]
    {
      paths := paths + [targets[i]];
      names := names + [Base.FileNameWithoutExtension(targets[i])];
      toggles := toggles + [true];
    }
    assert targets[..|targets|] == targets;
    if |paths| > 1 {
      paths, names, toggles := paths + [""], names + [All], toggles + [true];
    }
  }

  class FolderInspector {
    /** `m_IsFolder`. */
    var isFolder: bool
    /** `m_PathList`, `m_FolderList`, `m_FolderToggleList`. */
    var pathList: seq<string>
    var folderList: seq<string>
    var folderToggleList: seq<bool>
    /** `m_SubfolderList`: the buttons of the "Create Subfolder" row. */
    var subfolderList: seq<string>
    /** `m_SubfolderToggleList`, and the order in which its keys were added. */
    var subfolderToggleList: map<string, bool>
    var toggleOrder: seq<string>

    /** Every button but the last one has a toggle, and the key order lists every
        key once. */
    ghost predicate Valid()
      reads this
    {
      |subfolderList| >= 1
      && (forall i :: 0 <= i < |subfolderList| - 1 ==> subfolderList[i] in subfolderToggleList)
      && Base.NoDups(toggleOrder) && (forall k :: k in subfolderToggleList <==> k in toggleOrder)
    }

    constructor()
      ensures !isFolder && pathList == [] && folderList == [] && folderToggleList == []
      ensures subfolderList == [] && subfolderToggleList == map[] && toggleOrder == []
    {
      isFolder := false;
      pathList, folderList, folderToggleList := [], [], [];
      subfolderList, subfolderToggleList, toggleOrder := [], map[], [];
    }

    /** `OnEnable` for the selected assets `targets`; `folder` tells whether the
        first one is a folder. For folders: one path, name and toggle (on) per
        target, an extra "All" entry with an empty path when there are several, and
        the preset toggles loaded from the settings. */
    method OnEnable(settings: Settings.StylishSettings, targets: seq<string>, folder: bool)
      modifies this
      ensures isFolder == folder
      ensures !folder ==> pathList == old(pathList) && folderList == old(folderList) && folderToggleList == old(folderToggleList)
                          && subfolderList == old(subfolderList) && subfolderToggleList == old(subfolderToggleList)
                          && toggleOrder == old(toggleOrder)
      ensures folder ==> pathList == targets + (if |targets| > 1 then [""] else [])
      ensures folder ==> |folderList| == |pathList| && |folderToggleList| == |pathList|
                         && (forall i :: 0 <= i < |targets| ==> folderList[i] == Base.FileNameWithoutExtension(targets[i]))
                         && (|targets| > 1 ==> folderList[|targets|] == All)
                         && forall i :: 0 <= i < |folderToggleList| ==> folderToggleList[i]
      ensures folder ==> Valid() && subfolderList == DisplayList(settings.subfolderList)
                         && subfolderToggleList == Loaded(settings.subfolderList, settings.subfolderToggleList, |settings.subfolderList|)
    {
      isFolder := folder;
      if !folder {
        return;
      }
      var paths, names, toggles := TargetLists(targets);
      pathList, folderList, folderToggleList := paths, names, toggles;
      RebuildCreateList(settings, true);
    }

    /** `RebuildCreateList(load)`: with `load` the dictionary is read from the
        stored lists; otherwise it is cut down to the current preset names. Either
        way the buttons are the preset names and one last button. */
    method RebuildCreateList(settings: Settings.StylishSettings, load: bool)
      modifies this
      ensures Valid() && subfolderList == DisplayList(settings.subfolderList)
      ensures load ==> subfolderToggleList == Loaded(settings.subfolderList, settings.subfolderToggleList, |settings.subfolderList|)
                       && toggleOrder == Base.Distinct(settings.subfolderList)
      ensures !load ==> subfolderToggleList == Restricted(PresetNames(settings.subfolderList), old(subfolderToggleList))
                        && toggleOrder == PresetNames(settings.subfolderList)
      ensures isFolder == old(isFolder) && pathList == old(pathList) && folderList == old(folderList)
      ensures folderToggleList == old(folderToggleList)
    {
      var names := PresetNames(settings.subfolderList);
      if load {
        subfolderToggleList, toggleOrder := LoadToggleMap(settings.subfolderList, settings.subfolderToggleList);
      } else {
        subfolderToggleList := RestrictToggleMap(names, subfolderToggleList);
        toggleOrder := names;
      }
      subfolderList := names + [if |names| > 0 then CreateSelected else NoPreset];
      assert subfolderList[..|names|] == names;
    }

    /** `SaveCreateToggleList`: stores the toggle of every preset name. */
    method SaveCreateToggleList(settings: Settings.StylishSettings)
      modifies settings
      ensures settings.subfolderToggleList == SavedList(settings.subfolderList, subfolderToggleList)
      ensures settings.Unchanged(old(settings.general), old(settings.subfolderList), settings.subfolderToggleList,
                                 old(settings.stylishIconList), old(settings.cyclicStylishList), old(settings.keywordStylishList),
                                 old(settings.highlightPresetList), old(settings.keywordStylishTable))
      ensures settings.pathDataList == old(settings.pathDataList) && settings.pathDataTable == old(settings.pathDataTable)
    {
      settings.subfolderToggleList := SaveList(settings.subfolderList, subfolderToggleList);
    }

    /** `Update`, run when the settings change while the inspector is shown. */
    method Update(settings: Settings.StylishSettings)
      modifies this, settings
      ensures Valid() && subfolderList == DisplayList(settings.subfolderList)
      ensures subfolderToggleList == Restricted(PresetNames(settings.subfolderList), old(subfolderToggleList))
      ensures settings.subfolderToggleList == SavedList(settings.subfolderList, subfolderToggleList)
      ensures settings.subfolderList == old(settings.subfolderList)
      ensures settings.pathDataList == old(settings.pathDataList) && settings.pathDataTable == old(settings.pathDataTable)
    {
      RebuildCreateList(settings, false);
      SaveCreateToggleList(settings);
    }

    /** `CreateSubfolder(selected)`. */
    method CreateSubfolder(selected: Base.Option<string>, existing: string -> seq<string>) returns (created: seq<(string, string)>)
      requires Valid()
      ensures forall path, name :: (path, name) in created <==>
                path in pathList && path != "" && name in Folders(selected, toggleOrder, subfolderToggleList)
                && path + "/" + name !in existing(path)
    {
      var folders := if selected.Some? then [selected.value] else Chosen(toggleOrder, subfolderToggleList);
      created := CreateFolders(pathList, folders, existing);
    }

    /** A click on button `i` of the "Create Subfolder" row: a preset name creates
        that folder, the last button creates every folder whose toggle is on. */
    method ClickCreate(i: nat, existing: string -> seq<string>) returns (created: seq<(string, string)>)
      requires Valid() && i < |subfolderList|
      ensures var folders := if i < |subfolderList| - 1 then [subfolderList[i]] else Chosen(toggleOrder, subfolderToggleList);
              forall path, name :: (path, name) in created <==>
                path in pathList && path != "" && name in folders && path + "/" + name !in existing(path)
    {
      if i != |subfolderList| - 1 {
        created := CreateSubfolder(Base.Some(subfolderList[i]), existing);
      } else {
        created := CreateSubfolder(Base.None, existing);
      }
    }

    /** A click on the toggle of preset button `i` (every button but the last):
        flips that name's toggle and saves the toggles. */
    method ClickToggle(settings: Settings.StylishSettings, i: nat)
      requires Valid() && i < |subfolderList| - 1
      modifies this, settings
      ensures Valid()
      ensures subfolderList == old(subfolderList) && toggleOrder == old(toggleOrder)
      ensures subfolderToggleList == old(subfolderToggleList[subfolderList[i] := !subfolderToggleList[subfolderList[i]]])
      ensures settings.subfolderToggleList == SavedList(settings.subfolderList, subfolderToggleList)
      ensures settings.subfolderList == old(settings.subfolderList)
      ensures settings.pathDataList == old(settings.pathDataList) && settings.pathDataTable == old(settings.pathDataTable)
    {
      var name := subfolderList[i];
      subfolderToggleList := subfolderToggleList[name := !subfolderToggleList[name]];
      SaveCreateToggleList(settings);
    }

    /** The start of `DrawFolderSelection`: the "All" toggle is set on exactly when
        every other toggle is on. */
    method SyncAllToggle()
      modifies this
      ensures folderToggleList == SyncAll(old(folderToggleList))
      ensures pathList == old(pathList) && folderList == old(folderList) && subfolderList == old(subfolderList)
      ensures subfolderToggleList == old(subfolderToggleList) && toggleOrder == old(toggleOrder)
    {
      var t := folderToggleList;
      if |t| > 1 {
        var last := |t| - 1;
        var all := true;
        for i := 0 to last
          invariant all <==> forall j :: 0 <= j < i ==> t[j]
        {
          if !t[i] {
            all := false;
          }
        }
        folderToggleList := t[..last] + [all];
      }
    }

    /** A click that sets folder toggle `i`; the "All" toggle sets every other one. */
    method ClickFolderToggle(i: nat, toggle: bool)
      requires i < |folderToggleList|
      modifies this
      ensures folderToggleList == Flip(old(folderToggleList), i, toggle)
      ensures pathList == old(pathList) && folderList == old(folderList) && subfolderList == old(subfolderList)
      ensures subfolderToggleList == old(subfolderToggleList) && toggleOrder == old(toggleOrder)
    {
      var t := folderToggleList;
      if toggle != t[i] {
        t := t[i := toggle];
        if |t| > 1 && i == |t| - 1 {
          for j := 0 to |t| - 1
            invariant |t| == |folderToggleList| && t[i] == toggle
            invariant forall k :: 0 <= k < j ==> t[k] == toggle
          {
            t := t[j := toggle];
          }
          assert t == seq(|t|, j requires 0 <= j < |t| => toggle);
        }
        folderToggleList := t;
      }
    }

    /** `DrawFolderStylish`: the stylish switches of the selected folders. Returns
        whether the configuration is shown. */
    method DrawFolderStylish(settings: Settings.StylishSettings, enableClick: Base.Option<bool>,
                             bypassClick: Base.Option<bool>, hideClick: Base.Option<bool>)
      returns (shown: bool)
      requires PathToggles.Good(settings) && PathToggles.FirstNonEmpty(pathList).Some?
      modifies settings, settings.pathDataTable.Values
      ensures PathToggles.Good(settings)
      ensures PathToggles.View(settings) == PathToggles.Toggled(old(PathToggles.View(settings)), pathList, enableClick, bypassClick)
      ensures var first := PathToggles.FirstNonEmpty(pathList).value;
              shown <==> (if enableClick.Some? then enableClick.value else old(PathToggles.Current(settings, first, PathToggles.Enable)))
                         && !(if bypassClick.Some? then bypassClick.value else old(PathToggles.Current(settings, first, PathToggles.Bypass)))
      ensures settings.general == (if shown && hideClick.Some? then old(settings.general).(hideSelection := hideClick.value)
                                   else old(settings.general))
      ensures settings.subfolderList == old(settings.subfolderList) && settings.subfolderToggleList == old(settings.subfolderToggleList)
    {
      shown := PathToggles.DrawStylishSection(settings, pathList, enableClick, bypassClick, hideClick);
    }
  }
}
