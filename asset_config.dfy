/** AssetConfig (AssetConfig.cs): the "Assets/Create Stylish" menu item and the
    popup it opens, which shows the stylish switches of the selected assets and
    sizes itself to its content. */
module AssetConfig {
  import Base
  import Settings
  import PathToggles

  /** A selected object: whether the asset database holds it, whether it is a main
      asset, and its asset path. */
  datatype Selected = Selected(inDatabase: bool, mainAsset: bool, path: string)

  /** The project's root folder, which is never configured. */
  const Root := "Assets"

  /** Whether the selected object `o` is configured by the popup. */
  predicate Configurable(o: Selected)
  {
    o.inDatabase && o.mainAsset && o.path != Root
  }

  /** The number of configurable objects in `objs`. */
  function CountConfigurable(objs: seq<Selected>): nat
  {
    if |objs| == 0 then 0 else (if Configurable(objs[0]) then 1 else 0) + CountConfigurable(objs[1..])
  }

  /** `GetSelectedPath`: the paths of the selected main assets, in selection order,
      without the root folder. */
  function GetSelectedPath(objs: seq<Selected>): (r: seq<string>)
    ensures |r| <= |objs|
    ensures forall p :: p in r <==> exists i :: 0 <= i < |objs| && Configurable(objs[i]) && objs[i].path == p
    // one path per configurable object, in selection order: the object at i
    // lands after the paths of the configurable objects before it
    ensures |r| == CountConfigurable(objs)
    ensures forall i :: 0 <= i < |objs| && Configurable(objs[i]) ==>
              CountConfigurable(objs[..i]) < |r| && r[CountConfigurable(objs[..i])] == objs[i].path
  {
    if |objs| == 0 then []
    else
      var rest := GetSelectedPath(objs[1..]);
      assert forall i :: 1 <= i < |objs| ==> objs[i] == objs[1..][i - 1];
      assert forall p :: p in rest ==> exists i :: 0 <= i < |objs| && Configurable(objs[i]) && objs[i].path == p by {
        forall p | p in rest
          ensures exists i :: 0 <= i < |objs| && Configurable(objs[i]) && objs[i].path == p
        {
          var j :| 0 <= j < |objs[1..]| && Configurable(objs[1..][j]) && objs[1..][j].path == p;
          assert objs[j + 1] == objs[1..][j];
        }
      }
      var h := if Configurable(objs[0]) then 1 else 0;
      assert forall i :: 1 <= i <= |objs| ==> CountConfigurable(objs[..i]) == h + CountConfigurable(objs[1..][..i - 1]) by {
        forall i | 1 <= i <= |objs|
          ensures CountConfigurable(objs[..i]) == h + CountConfigurable(objs[1..][..i - 1])
        {
          assert objs[..i][0] == objs[0] && objs[..i][1..] == objs[1..][..i - 1];
        }
      }
      assert CountConfigurable(objs[..0]) == 0;
      if Configurable(objs[0]) then [objs[0].path] + rest else rest
  }

  /** With no configurable object among the first `n`, none is counted. */
  lemma {:induction false} NoneConfigurable(objs: seq<Selected>, n: nat)
    requires n <= |objs| && forall j :: 0 <= j < n ==> !Configurable(objs[j])
    ensures CountConfigurable(objs[..n]) == 0
  {
    if n > 0 {
      assert objs[..n][0] == objs[0] && objs[..n][1..] == objs[1..][..n - 1];
      assert forall j :: 0 <= j < n - 1 ==> objs[1..][j] == objs[j + 1];
      NoneConfigurable(objs[1..], n - 1);
    }
  }

  /** The popup shows the first path, so the first configurable object of the
      selection decides what it shows. */
  lemma FirstSelectedPath(objs: seq<Selected>, i: nat)
    requires i < |objs| && Configurable(objs[i])
    requires forall j :: 0 <= j < i ==> !Configurable(objs[j])
    ensures |GetSelectedPath(objs)| > 0 && GetSelectedPath(objs)[0] == objs[i].path
  {
    NoneConfigurable(objs, i);
  }

  /** `CreateStylishValidation`: the menu item is enabled exactly when some selected
      object is configurable. */
  function CreateStylishValidation(objs: seq<Selected>): (r: bool)
    ensures r <==> exists i :: 0 <= i < |objs| && Configurable(objs[i])
  {
    var paths := GetSelectedPath(objs);
    assert |paths| > 0 ==> paths[0] in paths;
    assert forall i :: 0 <= i < |objs| && Configurable(objs[i]) ==> objs[i].path in paths;
    |paths| > 0
  }

  /** `kMinHeight`, and the popup's fixed width. */
  const MinHeight: real := 200.0
  const Width: real := 400.0

  /** The height the popup asks for after laying out content `whole` high: the
      content height, but never below the minimum, once it differs from `current`. */
  function NextHeight(current: real, whole: real): (h: real)
    ensures current >= MinHeight ==> h >= MinHeight
    ensures h != current ==> h == (if whole > MinHeight then whole else MinHeight)
  {
    if whole != current then (if MinHeight > whole then MinHeight else whole) else current
  }

  class AssetConfigPopup {
    var pathList: seq<string>
    /** `m_Height`. */
    var height: real

    /** The popup is never shorter than its minimum height. */
    ghost predicate Valid()
      reads this
    {
      height >= MinHeight
    }

    /** `Popup(position, paths)`: a popup for the given paths at the minimum height. */
    constructor Popup(paths: seq<string>)
      ensures Valid() && pathList == paths && height == MinHeight
    {
      pathList := paths;
      height := MinHeight;
    }

    /** `GetWindowSize`. */
    function GetWindowSize(): (size: (real, real))
      reads this
      ensures Valid() ==> size.1 >= MinHeight
      ensures size.0 == Width && size.1 == height
    {
      (Width, height)
    }

    /** `OnGUI`: the stylish switches of the selected paths; when the first one is
        enabled and not bypassed, the rest of the configuration, after which the
        popup takes the height of its content `whole`, on a repaint only. Returns
        whether the configuration was shown and whether a repaint was requested. */
    method OnGUI(settings: Settings.StylishSettings, enableClick: Base.Option<bool>, bypassClick: Base.Option<bool>,
                 hideClick: Base.Option<bool>, whole: real, repaint: bool)
      returns (shown: bool, repaintRequested: bool)
      requires Valid() && PathToggles.Good(settings) && PathToggles.FirstNonEmpty(pathList).Some?
      modifies this, settings, settings.pathDataTable.Values
      ensures Valid() && pathList == old(pathList)
      ensures PathToggles.Good(settings)
      ensures PathToggles.View(settings) == PathToggles.Toggled(old(PathToggles.View(settings)), pathList, enableClick, bypassClick)
      ensures var first := PathToggles.FirstNonEmpty(pathList).value;
              shown <==> (if enableClick.Some? then enableClick.value else old(PathToggles.Current(settings, first, PathToggles.Enable)))
                         && !(if bypassClick.Some? then bypassClick.value else old(PathToggles.Current(settings, first, PathToggles.Bypass)))
      ensures settings.general == (if shown && hideClick.Some? then old(settings.general).(hideSelection := hideClick.value)
                                   else old(settings.general))
      // the height only changes on a repaint of the shown configuration
      ensures repaintRequested <==> shown && repaint && NextHeight(old(height), whole) != old(height)
      ensures height == (if repaintRequested then NextHeight(old(height), whole) else old(height))
    {
      shown := PathToggles.DrawStylishSection(settings, pathList, enableClick, bypassClick, hideClick);
      repaintRequested := false;
      if !shown {
        return;
      }
      repaintRequested := Resize(whole, repaint);
    }

    /** The end of `OnGUI`: takes the new height on a repaint. */
    method Resize(whole: real, repaint: bool) returns (repaintRequested: bool)
      requires Valid()
      modifies this
      ensures Valid() && pathList == old(pathList)
      ensures repaintRequested <==> repaint && NextHeight(old(height), whole) != old(height)
      ensures height == (if repaintRequested then NextHeight(old(height), whole) else old(height))
    {
      var h := height;
      if whole != h {
        h := if MinHeight > whole then MinHeight else whole;
      }
      repaintRequested := h != height && repaint;
      if repaintRequested {
        height := h;
      }
    }
  }
}
