/** The "Enable stylish override" and "Bypass all stylish" toggles shared by the
    folder inspector (FolderInspector.cs) and the asset configuration popup
    (AssetConfig.cs). Both walk the selected paths, fetch each path's entry with
    `GetPathData(path, true)` (a fresh, unregistered entry for a path that has none,
    fetched anew on every walk) and register or unregister it so that an entry is
    registered exactly when it is enabled or bypassed. */
module PathToggles {
  import Base
  import Settings

  /** Which of the two switches of a path entry a toggle sets. */
  datatype Flag = Enable | Bypass

  function Other(f: Flag): (g: Flag)
    ensures g != f
  {
    if f == Enable then Bypass else Enable
  }

  function FlagOf(d: Settings.PathData, f: Flag): bool
    reads d
  {
    if f == Enable then d.enable else d.bypass
  }

  /** The switch `f` of the entry `GetPathData(p, true)` would return: the
      registered entry's, or false for the fresh entry of an unregistered path. */
  function Current(s: Settings.StylishSettings, p: string, f: Flag): (r: bool)
    reads s, s.pathDataTable.Values
    ensures r ==> p in s.pathDataTable
  {
    p in s.pathDataTable && FlagOf(s.pathDataTable[p], f)
  }

  /** The two switches of every registered entry. */
  ghost function View(s: Settings.StylishSettings): (v: map<string, (bool, bool)>)
    reads s, s.pathDataTable.Values
  {
    map p | p in s.pathDataTable :: (s.pathDataTable[p].enable, s.pathDataTable[p].bypass)
  }

  /** The registry is consistent, and every registered entry is enabled or bypassed. */
  ghost predicate Good(s: Settings.StylishSettings)
    reads s, s.pathDataTable.Values
  {
    s.Valid() && AllOn(View(s))
  }

  predicate AllOn(v: map<string, (bool, bool)>)
  {
    forall p :: p in v ==> v[p].0 || v[p].1
  }

  function Pick(flags: (bool, bool), f: Flag): bool
  {
    if f == Enable then flags.0 else flags.1
  }

  function SetFlag(flags: (bool, bool), f: Flag, value: bool): (r: (bool, bool))
    ensures Pick(r, f) == value && Pick(r, Other(f)) == Pick(flags, Other(f))
  {
    if f == Enable then (value, flags.1) else (flags.0, value)
  }

  /** The switches after setting `flag` of path `p` to `value`: the path is
      registered afterwards exactly when one of its switches is on. */
  function Step(v: map<string, (bool, bool)>, p: string, flag: Flag, value: bool): map<string, (bool, bool)>
  {
    var next := SetFlag(if p in v then v[p] else (false, false), flag, value);
    if next.0 || next.1 then v[p := next] else v - {p}
  }

  /** The switches after the walk has visited the first `n` paths, skipping the
      empty one. */
  function Walk(v: map<string, (bool, bool)>, paths: seq<string>, n: nat, flag: Flag, value: bool): map<string, (bool, bool)>
    requires n <= |paths|
  {
    if n == 0 then v
    else
      var w := Walk(v, paths, n - 1, flag, value);
      if paths[n - 1] == "" then w else Step(w, paths[n - 1], flag, value)
  }

  /** Each visited path ends as one visit would leave it, whatever the repeats;
      every other path keeps its switches. */
  lemma {:induction false} WalkLookup(v: map<string, (bool, bool)>, paths: seq<string>, n: nat, flag: Flag, value: bool, q: string)
    requires n <= |paths|
    ensures var w := Walk(v, paths, n, flag, value);
            var u := if q in paths[..n] && q != "" then Step(v, q, flag, value) else v;
            (q in w <==> q in u) && (q in w ==> w[q] == u[q])
  {
    if n > 0 {
      WalkLookup(v, paths, n - 1, flag, value, q);
      assert paths[..n] == paths[..n - 1] + [paths[n - 1]];
    }
  }

  /** The walk keeps every registered path enabled or bypassed. */
  lemma {:induction false} WalkKeepsAllOn(v: map<string, (bool, bool)>, paths: seq<string>, n: nat, flag: Flag, value: bool)
    requires n <= |paths|
    requires AllOn(v)
    ensures AllOn(Walk(v, paths, n, flag, value))
  {
    if n > 0 {
      WalkKeepsAllOn(v, paths, n - 1, flag, value);
      if paths[n - 1] != "" {
        StepKeepsAllOn(Walk(v, paths, n - 1, flag, value), paths[n - 1], flag, value);
      }
    }
  }

  /** Setting a switch keeps every registered path's entry enabled or bypassed. */
  lemma StepKeepsAllOn(v: map<string, (bool, bool)>, p: string, flag: Flag, value: bool)
    requires AllOn(v)
    ensures AllOn(Step(v, p, flag, value))
  {
    assert forall r :: r in Step(v, p, flag, value) ==> r in v || r == p;
  }

  /** The view is `v0` with path `p` changed to `next` (dropped when None),
      when that is so path by path. */
  lemma ViewFromPaths(s: Settings.StylishSettings, v0: map<string, (bool, bool)>, p: string, next: Base.Option<(bool, bool)>)
    requires forall q :: q in s.pathDataTable && q != p ==> q in v0 && (s.pathDataTable[q].enable, s.pathDataTable[q].bypass) == v0[q]
    requires forall q :: q in v0 && q != p ==> q in s.pathDataTable
    requires next.Some? ==> p in s.pathDataTable && (s.pathDataTable[p].enable, s.pathDataTable[p].bypass) == next.value
    requires next.None? ==> p !in s.pathDataTable
    ensures View(s) == if next.Some? then v0[p := next.value] else v0 - {p}
  {
  }

  /** One pass of the `foreach` body: register on an off-to-on change while the
      other switch is off, unregister on an on-to-off change while the other switch
      is off, then set the switch. */
  method SetOne(s: Settings.StylishSettings, p: string, flag: Flag, value: bool)
    requires Good(s)
    modifies s, s.pathDataTable.Values
    ensures Good(s)
    ensures View(s) == Step(old(View(s)), p, flag, value)
    ensures forall q :: q in s.pathDataTable && q in old(s.pathDataTable) ==> s.pathDataTable[q] == old(s.pathDataTable[q])
    // switching on only registers, switching off only unregisters
    ensures value ==> forall q :: q in old(s.pathDataTable) ==> q in s.pathDataTable
    ensures !value ==> forall q :: q in s.pathDataTable ==> q in old(s.pathDataTable)
    ensures forall d :: d in s.pathDataTable.Values ==> d in old(s.pathDataTable.Values) || fresh(d)
    ensures s.Unchanged(old(s.general), old(s.subfolderList), old(s.subfolderToggleList), old(s.stylishIconList),
                        old(s.cyclicStylishList), old(s.keywordStylishList), old(s.highlightPresetList), old(s.keywordStylishTable))
  {
    var data := s.GetPathData(p, true);
    if p in s.pathDataTable {
      SetRegistered(s, data, flag, value);
    } else {
      SetFresh(s, data, flag, value);
    }
  }

  /** The body of the walk for the registered entry `data`. */
  method SetRegistered(s: Settings.StylishSettings, data: Settings.PathData, flag: Flag, value: bool)
    requires Good(s)
    requires data.path in s.pathDataTable && s.pathDataTable[data.path] == data
    modifies s, data
    ensures Good(s)
    ensures View(s) == Step(old(View(s)), data.path, flag, value)
    ensures forall q :: q in s.pathDataTable ==> q in old(s.pathDataTable) && s.pathDataTable[q] == old(s.pathDataTable[q])
    ensures forall q :: q in old(s.pathDataTable) && q != data.path ==> q in s.pathDataTable
    ensures value ==> data.path in s.pathDataTable
    ensures s.Unchanged(old(s.general), old(s.subfolderList), old(s.subfolderToggleList), old(s.stylishIconList),
                        old(s.cyclicStylishList), old(s.keywordStylishList), old(s.highlightPresetList), old(s.keywordStylishTable))
  {
    ghost var v0 := View(s);
    ghost var p := data.path;
    ghost var before := (data.enable, data.bypass);
    assert before == v0[p];
    if !value && FlagOf(data, flag) && !FlagOf(data, Other(flag)) {
      s.RemovePathData(data);
    }
    if flag == Enable {
      data.enable := value;
    } else {
      data.bypass := value;
    }
    ghost var next := SetFlag(before, flag, value);
    assert forall q :: q in s.pathDataTable && q != p ==> s.pathDataTable[q] == old(s.pathDataTable[q]) && s.pathDataTable[q] != data;
    ViewFromPaths(s, v0, p, if next.0 || next.1 then Base.Some(next) else Base.None);
    StepKeepsAllOn(v0, p, flag, value);
  }

  /** The body of the walk for the fresh entry `data` of an unregistered path. */
  method SetFresh(s: Settings.StylishSettings, data: Settings.PathData, flag: Flag, value: bool)
    requires Good(s)
    requires data.path !in s.pathDataTable && !data.enable && !data.bypass
    modifies s, data
    ensures Good(s)
    ensures View(s) == Step(old(View(s)), data.path, flag, value)
    ensures forall q :: q in old(s.pathDataTable) ==> q in s.pathDataTable && s.pathDataTable[q] == old(s.pathDataTable[q])
    ensures forall q :: q in s.pathDataTable ==> q in old(s.pathDataTable) || q == data.path
    ensures data.path in s.pathDataTable ==> value && s.pathDataTable[data.path] == data
    ensures s.Unchanged(old(s.general), old(s.subfolderList), old(s.subfolderToggleList), old(s.stylishIconList),
                        old(s.cyclicStylishList), old(s.keywordStylishList), old(s.highlightPresetList), old(s.keywordStylishTable))
  {
    ghost var v0 := View(s);
    ghost var p := data.path;
    if value {
      var _ := s.AddPathData(data);
    }
    if flag == Enable {
      data.enable := value;
    } else {
      data.bypass := value;
    }
    ghost var next := SetFlag((false, false), flag, value);
    assert forall q :: q in s.pathDataTable && q != p ==> s.pathDataTable[q] == old(s.pathDataTable[q]) && s.pathDataTable[q] != data;
    ViewFromPaths(s, v0, p, if value then Base.Some(next) else Base.None);
    StepKeepsAllOn(v0, p, flag, value);
  }

  /** The `foreach (var data in datas)` loop over the non-empty paths. */
  method SetAll(s: Settings.StylishSettings, paths: seq<string>, flag: Flag, value: bool)
    requires Good(s)
    modifies s, s.pathDataTable.Values
    ensures Good(s)
    ensures View(s) == Walk(old(View(s)), paths, |paths|, flag, value)
    ensures forall q :: q in s.pathDataTable && q in old(s.pathDataTable) ==> s.pathDataTable[q] == old(s.pathDataTable[q])
    ensures forall d :: d in s.pathDataTable.Values ==> d in old(s.pathDataTable.Values) || fresh(d)
    ensures s.Unchanged(old(s.general), old(s.subfolderList), old(s.subfolderToggleList), old(s.stylishIconList),
                        old(s.cyclicStylishList), old(s.keywordStylishList), old(s.highlightPresetList), old(s.keywordStylishTable))
  {
    for i := 0 to |paths|
      invariant Good(s)
      invariant View(s) == Walk(old(View(s)), paths, i, flag, value)
      invariant forall q :: q in s.pathDataTable && q in old(s.pathDataTable) ==> s.pathDataTable[q] == old(s.pathDataTable[q])
      invariant value ==> forall q :: q in old(s.pathDataTable) ==> q in s.pathDataTable
      invariant !value ==> forall q :: q in s.pathDataTable ==> q in old(s.pathDataTable)
      invariant forall d :: d in s.pathDataTable.Values ==> d in old(s.pathDataTable.Values) || fresh(d)
      invariant s.Unchanged(old(s.general), old(s.subfolderList), old(s.subfolderToggleList), old(s.stylishIconList),
                            old(s.cyclicStylishList), old(s.keywordStylishList), old(s.highlightPresetList), old(s.keywordStylishTable))
    {
      if paths[i] != "" {
        SetOne(s, paths[i], flag, value);
      }
    }
  }

  /** The first non-empty path: the entry `datas.First()` reads. */
  function FirstNonEmpty(paths: seq<string>): (r: Base.Option<string>)
    ensures r.Some? <==> exists i :: 0 <= i < |paths| && paths[i] != ""
    ensures r.Some? ==> r.value != "" && r.value in paths
  {
    if |paths| == 0 then Base.None
    else if paths[0] != "" then Base.Some(paths[0])
    else
      var r := FirstNonEmpty(paths[1..]);
      assert forall i :: 1 <= i < |paths| ==> paths[i] == paths[1..][i - 1];
      r
  }

  /** The switches after both toggles: the enable walk when the enable toggle was
      clicked, then the bypass walk when the bypass toggle was. */
  function Toggled(v: map<string, (bool, bool)>, paths: seq<string>,
                   enableClick: Base.Option<bool>, bypassClick: Base.Option<bool>): map<string, (bool, bool)>
  {
    var w := if enableClick.Some? then Walk(v, paths, |paths|, Enable, enableClick.value) else v;
    if bypassClick.Some? then Walk(w, paths, |paths|, Bypass, bypassClick.value) else w
  }

  /** After both toggles a selected path holds the clicked values (or the ones it
      had) and is registered exactly when one of them is on; any other path is as
      it was. */
  lemma ToggledLookup(v: map<string, (bool, bool)>, paths: seq<string>,
                      enableClick: Base.Option<bool>, bypassClick: Base.Option<bool>, q: string)
    requires AllOn(v)
    ensures var t := Toggled(v, paths, enableClick, bypassClick);
            var e := if enableClick.Some? then enableClick.value else q in v && v[q].0;
            var b := if bypassClick.Some? then bypassClick.value else q in v && v[q].1;
            q in paths && q != "" ==> (q in t <==> e || b) && (q in t ==> t[q] == (e, b))
    ensures var t := Toggled(v, paths, enableClick, bypassClick);
            !(q in paths && q != "") ==> (q in t <==> q in v) && (q in t ==> t[q] == v[q])
    ensures AllOn(Toggled(v, paths, enableClick, bypassClick))
  {
    assert paths[..|paths|] == paths;
    var w := if enableClick.Some? then Walk(v, paths, |paths|, Enable, enableClick.value) else v;
    if enableClick.Some? {
      WalkLookup(v, paths, |paths|, Enable, enableClick.value, q);
    }
    if bypassClick.Some? {
      if enableClick.Some? {
        WalkKeepsAllOn(v, paths, |paths|, Enable, enableClick.value);
      }
      WalkLookup(w, paths, |paths|, Bypass, bypassClick.value, q);
      WalkKeepsAllOn(w, paths, |paths|, Bypass, bypassClick.value);
    } else if enableClick.Some? {
      WalkKeepsAllOn(v, paths, |paths|, Enable, enableClick.value);
    }
  }

  /** The two toggles as the inspector and the popup draw them. A click gives the
      toggle's new value; without one, the toggle shows the first entry's switch.
      Returns the two values the caller goes on with. */
  method DrawStylishToggles(s: Settings.StylishSettings, paths: seq<string>,
                            enableClick: Base.Option<bool>, bypassClick: Base.Option<bool>)
    returns (enable: bool, bypass: bool)
    requires Good(s)
    requires FirstNonEmpty(paths).Some?
    modifies s, s.pathDataTable.Values
    ensures Good(s)
    ensures View(s) == Toggled(old(View(s)), paths, enableClick, bypassClick)
    ensures enable == (if enableClick.Some? then enableClick.value else old(Current(s, FirstNonEmpty(paths).value, Enable)))
    ensures bypass == (if bypassClick.Some? then bypassClick.value else old(Current(s, FirstNonEmpty(paths).value, Bypass)))
    ensures forall d :: d in s.pathDataTable.Values ==> d in old(s.pathDataTable.Values) || fresh(d)
    ensures s.Unchanged(old(s.general), old(s.subfolderList), old(s.subfolderToggleList), old(s.stylishIconList),
                        old(s.cyclicStylishList), old(s.keywordStylishList), old(s.highlightPresetList), old(s.keywordStylishTable))
  {
    var first := FirstNonEmpty(paths).value;
    ghost var v0 := View(s);
    enable := Current(s, first, Enable);
    if enableClick.Some? {
      enable := enableClick.value;
      SetAll(s, paths, Enable, enable);
      assert paths[..|paths|] == paths;
      WalkLookup(v0, paths, |paths|, Enable, enable, first);
    }
    bypass := Current(s, first, Bypass);
    if bypassClick.Some? {
      bypass := bypassClick.value;
      SetAll(s, paths, Bypass, bypass);
    }
  }

  /** The switches, then, when the first entry is enabled and not bypassed, the
      "Hide Selection Overlay" switch. Returns whether that configuration is shown. */
  method DrawStylishSection(s: Settings.StylishSettings, paths: seq<string>, enableClick: Base.Option<bool>,
                            bypassClick: Base.Option<bool>, hideClick: Base.Option<bool>)
    returns (shown: bool)
    requires Good(s) && FirstNonEmpty(paths).Some?
    modifies s, s.pathDataTable.Values
    ensures Good(s)
    ensures View(s) == Toggled(old(View(s)), paths, enableClick, bypassClick)
    ensures var first := FirstNonEmpty(paths).value;
            shown <==> (if enableClick.Some? then enableClick.value else old(Current(s, first, Enable)))
                       && !(if bypassClick.Some? then bypassClick.value else old(Current(s, first, Bypass)))
    ensures s.general == (if shown && hideClick.Some? then old(s.general).(hideSelection := hideClick.value) else old(s.general))
    ensures s.subfolderList == old(s.subfolderList) && s.subfolderToggleList == old(s.subfolderToggleList)
  {
    var enable, bypass := DrawStylishToggles(s, paths, enableClick, bypassClick);
    shown := enable && !bypass;
    if !shown {
      return;
    }
    if hideClick.Some? && hideClick.value != s.general.hideSelection {
      s.general := s.general.(hideSelection := hideClick.value);
    }
  }
}
