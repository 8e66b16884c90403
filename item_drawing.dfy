/** The three draw routines of ProjectViewGUI.cs (`ListAreaDrawIcon`,
    `ListAreaDrawIconAndLabel`, `TreeviewDrawIconAndLabel`) on the repaint pass:
    which layers' highlights and icons are drawn, whether the editor's own icon
    stays visible, and the label's colour, font and selection state. */
module ItemDrawing {
  import Base
  import Highlight
  import Icon
  import Settings

  /** What the routines read from one layer (a StylishData) at draw time. */
  datatype LayerView = LayerView(
    highlightMode: Highlight.Mode, clearOther: bool, overrideText: bool,
    textColor: Base.Color, fontStyle: Base.FontStyle, iconMode: Icon.Mode)

  /** The view of one entry, read through its highlight and its icon override. */
  function View(d: Settings.StylishData): (v: LayerView)
    reads d, d.highlight, d.icon
    ensures v.highlightMode == d.highlight.mode && v.clearOther == d.highlight.clearOther
    ensures v.overrideText == d.highlight.overrideText && v.iconMode == d.icon.mode
  {
    LayerView(d.highlight.mode, d.highlight.clearOther, d.highlight.overrideText,
              d.highlight.textColor, d.highlight.fontStyle, d.icon.mode)
  }

  /** The views of the entries an item is drawn with. */
  function Views(datas: seq<Settings.StylishData>): (r: seq<LayerView>)
    reads set d | d in datas, set d | d in datas :: d.highlight, set d | d in datas :: d.icon
    ensures |r| == |datas| && forall i :: 0 <= i < |datas| ==> r[i] == View(datas[i])
  {
    seq(|datas|, i reads set d | d in datas, set d | d in datas :: d.highlight, set d | d in datas :: d.icon
                   requires 0 <= i < |datas| => View(datas[i]))
  }

  /** Where the item is shown: a row of the one-column asset tree, a row of the
      folder tree, a row of the list view, or a cell of the grid. The choice is
      made from the browser's view mode and the item's rectangle. */
  datatype ViewKind = AssetTree | FolderTree | ListRow | Grid

  /** The label as drawn: its colour, font and whether it shows as selected. */
  datatype Label = Label(textColor: Base.Color, fontStyle: Base.FontStyle, selected: bool)

  /** The drawing of one item. `clearIcon`: the editor's icon is painted over
      (grid view); `highlights`, `icons`: the layers whose highlight and icon are
      drawn, in order; `baseIcon`: the editor's icon drawn by the routine, with
      its selection state; `iconSelected`: the selection state the icons get;
      `smallIcons`: the icons are drawn from their small layer lists. */
  datatype Plan = Plan(
    clearIcon: bool, highlights: seq<nat>, text: Base.Option<Label>,
    baseIcon: Base.Option<bool>, icons: seq<nat>, iconSelected: bool, smallIcons: bool)

  /** The last of the first `n` layers whose highlight has `clearOther`, or 0. */
  function LastClearOther(layers: seq<LayerView>, n: nat): (r: nat)
    requires n <= |layers|
    ensures r == 0 || (r < n && layers[r].clearOther)
    ensures forall j :: r < j < n ==> !layers[j].clearOther
  {
    if n == 0 then 0 else if layers[n - 1].clearOther then n - 1 else LastClearOther(layers, n - 1)
  }

  /** The last of the first `n` layers whose icon mode is Replace, or 0. */
  function LastReplace(layers: seq<LayerView>, n: nat): (r: nat)
    requires n <= |layers|
    ensures r == 0 || (r < n && layers[r].iconMode == Icon.Mode.Replace)
    ensures forall j :: r < j < n ==> layers[j].iconMode != Icon.Mode.Replace
  {
    if n == 0 then 0 else if layers[n - 1].iconMode == Icon.Mode.Replace then n - 1 else LastReplace(layers, n - 1)
  }

  /** Some layer has a highlight mode other than None. */
  predicate AnyHighlight(layers: seq<LayerView>)
  {
    exists i :: 0 <= i < |layers| && layers[i].highlightMode != Highlight.Mode.None
  }

  /** Some layer replaces the icon. */
  predicate AnyReplace(layers: seq<LayerView>)
  {
    exists i :: 0 <= i < |layers| && layers[i].iconMode == Icon.Mode.Replace
  }

  /** Where highlight drawing starts: the last layer that clears the others. */
  function HighlightStart(layers: seq<LayerView>): (r: nat)
    ensures r == 0 || r < |layers|
    ensures (exists i :: 0 <= i < |layers| && layers[i].clearOther) ==> r < |layers| && layers[r].clearOther
    ensures forall j :: r < j < |layers| ==> !layers[j].clearOther
  {
    LastClearOther(layers, |layers|)
  }

  /** Where icon drawing starts: for a folder, the last layer that replaces the
      icon; otherwise the first layer. */
  function IconStart(layers: seq<LayerView>, folder: bool): (r: nat)
    ensures !folder ==> r == 0
    ensures folder && AnyReplace(layers) ==> r < |layers| && layers[r].iconMode == Icon.Mode.Replace
    ensures folder ==> forall j :: r < j < |layers| ==> layers[j].iconMode != Icon.Mode.Replace
  {
    if folder then LastReplace(layers, |layers|) else 0
  }

  /** The indices from `start` up to `n`. */
  function Range(start: nat, n: nat): (r: seq<nat>)
    ensures |r| == (if start < n then n - start else 0)
    ensures forall k :: 0 <= k < |r| ==> r[k] == start + k
  {
    if start < n then seq(n - start, k requires 0 <= k < n - start => start + k) else []
  }

  /** The layers from `start` up to `n` whose icon mode is not None, in order. */
  function IconIndices(layers: seq<LayerView>, start: nat, n: nat): (r: seq<nat>)
    requires n <= |layers|
    ensures forall k :: 0 <= k < |r| ==> start <= r[k] < n
  {
    if n <= start then []
    else IconIndices(layers, start, n - 1) + (if layers[n - 1].iconMode != Icon.Mode.None then [n - 1] else [])
  }

  /** The icons drawn are exactly the layers from `start` on with an icon, each
      once and in increasing order. */
  lemma {:induction false} IconIndicesExact(layers: seq<LayerView>, start: nat, n: nat)
    requires n <= |layers|
    ensures forall i :: i in IconIndices(layers, start, n) <==> start <= i < n && layers[i].iconMode != Icon.Mode.None
    ensures forall k, l :: 0 <= k < l < |IconIndices(layers, start, n)| ==> IconIndices(layers, start, n)[k] < IconIndices(layers, start, n)[l]
  {
    if n > start {
      IconIndicesExact(layers, start, n - 1);
    }
  }

  /** The last of the first `n` layers overriding the text, or -1. */
  function LastOverride(layers: seq<LayerView>, n: nat): (r: int)
    requires n <= |layers|
    ensures -1 <= r < n
    ensures r >= 0 ==> layers[r].overrideText
    ensures forall j :: r < j < n ==> !layers[j].overrideText
  {
    if n == 0 then -1 else if layers[n - 1].overrideText then n - 1 else LastOverride(layers, n - 1)
  }

  /** The label's colour and font: those of the last layer that overrides the
      text, or the theme's when none does. */
  function TextStyle(layers: seq<LayerView>, textColor: Base.Color, fontStyle: Base.FontStyle): (r: (Base.Color, Base.FontStyle))
    ensures (forall j :: 0 <= j < |layers| ==> !layers[j].overrideText) ==> r == (textColor, fontStyle)
    ensures forall i :: 0 <= i < |layers| && layers[i].overrideText && (forall j :: i < j < |layers| ==> !layers[j].overrideText) ==>
              r == (layers[i].textColor, layers[i].fontStyle)
  {
    var k := LastOverride(layers, |layers|);
    if k < 0 then (textColor, fontStyle) else (layers[k].textColor, layers[k].fontStyle)
  }

  /** The label's selection state: with `hideSelection` set, an item with any
      highlight is drawn unselected. */
  function LabelSelected(layers: seq<LayerView>, selected: bool, hideSelection: bool): (r: bool)
    ensures r <==> selected && !(hideSelection && AnyHighlight(layers))
  {
    if AnyHighlight(layers) && hideSelection then false else selected
  }

  /** The editor's icon stays visible unless the item is a folder with a layer
      that replaces the icon. */
  predicate BaseIconShown(layers: seq<LayerView>, folder: bool)
  {
    !folder || !AnyReplace(layers)
  }

  function LabelFor(layers: seq<LayerView>, selected: bool, hideSelection: bool,
                    textColor: Base.Color, fontStyle: Base.FontStyle): Label
  {
    var style := TextStyle(layers, textColor, fontStyle);
    Label(style.0, style.1, LabelSelected(layers, selected, hideSelection))
  }

  /** `ListAreaDrawIcon` (grid view): the icons keep the item's own selection state
      and are drawn from their normal layers. */
  function GridPlan(layers: seq<LayerView>, folder: bool, selected: bool, rename: bool, hideSelection: bool,
                    textColor: Base.Color, fontStyle: Base.FontStyle): Plan
  {
    Plan(!BaseIconShown(layers, folder),
         if rename then [] else Range(HighlightStart(layers), |layers|),
         if rename then Base.None else Base.Some(LabelFor(layers, selected, hideSelection, textColor, fontStyle)),
         Base.None,
         IconIndices(layers, IconStart(layers, folder), |layers|),
         selected, false)
  }

  /** `ListAreaDrawIconAndLabel` (list view, one row per item): the icons are drawn
      from their small layers. */
  function RowPlan(layers: seq<LayerView>, folder: bool, selected: bool, rename: bool, hideSelection: bool,
                   textColor: Base.Color, fontStyle: Base.FontStyle): Plan
  {
    var shown := LabelSelected(layers, selected, hideSelection);
    Plan(false,
         if rename then [] else Range(HighlightStart(layers), |layers|),
         if rename then Base.None else Base.Some(LabelFor(layers, selected, hideSelection, textColor, fontStyle)),
         if BaseIconShown(layers, folder) then Base.Some(shown) else Base.None,
         IconIndices(layers, IconStart(layers, folder), |layers|),
         shown, true)
  }

  /** `TreeviewDrawIconAndLabel` (the folder tree and one-column view), where
      there is no renaming; the icons are drawn from their small layers. */
  function TreePlan(layers: seq<LayerView>, folder: bool, selected: bool, hideSelection: bool,
                    textColor: Base.Color, fontStyle: Base.FontStyle): Plan
  {
    var shown := LabelSelected(layers, selected, hideSelection);
    Plan(false,
         Range(HighlightStart(layers), |layers|),
         Base.Some(LabelFor(layers, selected, hideSelection, textColor, fontStyle)),
         if BaseIconShown(layers, folder) then Base.Some(shown) else Base.None,
         IconIndices(layers, IconStart(layers, folder), |layers|),
         shown, true)
  }

  /** The forward scan for the last layer that clears the others. */
  method ScanHighlightStart(layers: seq<LayerView>) returns (index: nat)
    ensures index == HighlightStart(layers)
  {
    index := 0;
    for i := 0 to |layers|
      invariant index == LastClearOther(layers, i)
    {
      if layers[i].clearOther {
        index := i;
      }
    }
  }

  /** The forward scan for the last layer that replaces the icon, folders only. */
  method ScanIconStart(layers: seq<LayerView>, folder: bool) returns (index: nat)
    ensures index == IconStart(layers, folder)
  {
    index := 0;
    if folder {
      for i := 0 to |layers|
        invariant index == LastReplace(layers, i)
      {
        if layers[i].iconMode == Icon.Mode.Replace {
          index := i;
        }
      }
    }
  }

  /** The highlight loop: every layer from `start` on. */
  method HighlightCalls(layers: seq<LayerView>, start: nat) returns (calls: seq<nat>)
    ensures calls == Range(start, |layers|)
  {
    calls := [];
    var i := start;
    while i < |layers|
      invariant start <= i && |calls| == i - start && (i == start || i <= |layers|)
      invariant forall k :: 0 <= k < |calls| ==> calls[k] == start + k
    {
      calls := calls + [i];
      i := i + 1;
    }
  }

  /** The icon loop: every layer from `start` on whose icon mode is not None. */
  method IconCalls(layers: seq<LayerView>, start: nat) returns (calls: seq<nat>)
    ensures calls == IconIndices(layers, start, |layers|)
  {
    calls := [];
    if start >= |layers| {
      return;
    }
    for i := start to |layers|
      invariant calls == IconIndices(layers, start, i)
    {
      if layers[i].iconMode != Icon.Mode.None {
        calls := calls + [i];
      }
    }
  }

  /** The backward scan for the last layer that overrides the text, stopping at
      the first one it meets. */
  method ScanTextStyle(layers: seq<LayerView>, textColor: Base.Color, fontStyle: Base.FontStyle)
    returns (color: Base.Color, font: Base.FontStyle)
    ensures (color, font) == TextStyle(layers, textColor, fontStyle)
  {
    color, font := textColor, fontStyle;
    var i := |layers|;
    while i > 0
      invariant 0 <= i <= |layers|
      invariant forall j :: i <= j < |layers| ==> !layers[j].overrideText
      invariant color == textColor && font == fontStyle
    {
      i := i - 1;
      if layers[i].overrideText {
        color, font := layers[i].textColor, layers[i].fontStyle;
        return;
      }
    }
  }

  /** `ListAreaDrawIcon`; the result is whether the editor's icon was painted over. */
  method ListAreaDrawIcon(layers: seq<LayerView>, folder: bool, selected: bool, rename: bool, hideSelection: bool,
                          textColor: Base.Color, fontStyle: Base.FontStyle)
    returns (plan: Plan, clear: bool)
    ensures plan == GridPlan(layers, folder, selected, rename, hideSelection, textColor, fontStyle)
    ensures clear <==> folder && AnyReplace(layers)
  {
    var iconSelected := selected;
    var shown := LabelSelected(layers, selected, hideSelection);
    clear := folder && AnyReplace(layers);
    var index := ScanIconStart(layers, folder);
    var icons := IconCalls(layers, index);
    index := ScanHighlightStart(layers);
    var highlights := [];
    if !rename {
      highlights := HighlightCalls(layers, index);
    }
    var color, font := ScanTextStyle(layers, textColor, fontStyle);
    var text := if rename then Base.None else Base.Some(Label(color, font, shown));
    plan := Plan(clear, highlights, text, Base.None, icons, iconSelected, false);
  }

  /** `ListAreaDrawIconAndLabel`. */
  method ListAreaDrawIconAndLabel(layers: seq<LayerView>, folder: bool, selected: bool, rename: bool, hideSelection: bool,
                                  textColor: Base.Color, fontStyle: Base.FontStyle)
    returns (plan: Plan)
    ensures plan == RowPlan(layers, folder, selected, rename, hideSelection, textColor, fontStyle)
  {
    var shown := LabelSelected(layers, selected, hideSelection);
    var index := ScanHighlightStart(layers);
    var highlights := [];
    if !rename {
      highlights := HighlightCalls(layers, index);
    }
    var color, font := ScanTextStyle(layers, textColor, fontStyle);
    var text := if rename then Base.None else Base.Some(Label(color, font, shown));
    var baseIcon := if !folder || !AnyReplace(layers) then Base.Some(shown) else Base.None;
    index := ScanIconStart(layers, folder);
    var icons := IconCalls(layers, index);
    plan := Plan(false, highlights, text, baseIcon, icons, shown, true);
  }

  /** `TreeviewDrawIconAndLabel`. */
  method TreeviewDrawIconAndLabel(layers: seq<LayerView>, folder: bool, selected: bool, hideSelection: bool,
                                  textColor: Base.Color, fontStyle: Base.FontStyle)
    returns (plan: Plan)
    ensures plan == TreePlan(layers, folder, selected, hideSelection, textColor, fontStyle)
  {
    var shown := LabelSelected(layers, selected, hideSelection);
    var index := ScanHighlightStart(layers);
    var highlights := HighlightCalls(layers, index);
    var color, font := ScanTextStyle(layers, textColor, fontStyle);
    var baseIcon := if !folder || !AnyReplace(layers) then Base.Some(shown) else Base.None;
    index := ScanIconStart(layers, folder);
    var icons := IconCalls(layers, index);
    plan := Plan(false, highlights, Base.Some(Label(color, font, shown)), baseIcon, icons, shown, true);
  }

  /** A list row that is not being renamed is drawn exactly like a tree row. */
  lemma RowMatchesTree(layers: seq<LayerView>, folder: bool, selected: bool, hideSelection: bool,
                       textColor: Base.Color, fontStyle: Base.FontStyle)
    ensures RowPlan(layers, folder, selected, false, hideSelection, textColor, fontStyle)
         == TreePlan(layers, folder, selected, hideSelection, textColor, fontStyle)
  {
  }

  /** The grid draws the same highlights and label as a list row, and icons for
      the same layers, but from their normal layer lists where the row uses the
      small ones. It paints over the editor's icon exactly when a list row would
      leave it out, and gives the icons the item's own selection state. */
  lemma GridMatchesRow(layers: seq<LayerView>, folder: bool, selected: bool, rename: bool, hideSelection: bool,
                       textColor: Base.Color, fontStyle: Base.FontStyle)
    ensures var g := GridPlan(layers, folder, selected, rename, hideSelection, textColor, fontStyle);
            var r := RowPlan(layers, folder, selected, rename, hideSelection, textColor, fontStyle);
            g.highlights == r.highlights && g.icons == r.icons && g.text == r.text
            && g.clearIcon == r.baseIcon.None? && g.iconSelected == selected
            && !g.smallIcons && r.smallIcons
  {
  }

  /** When a folder's own icon is hidden, icon drawing starts at the last
      replacing layer, and that layer's icon is drawn. */
  lemma ReplacingLayerDrawn(layers: seq<LayerView>, folder: bool)
    requires !BaseIconShown(layers, folder)
    ensures var s := IconStart(layers, folder);
            s < |layers| && layers[s].iconMode == Icon.Mode.Replace && s in IconIndices(layers, s, |layers|)
  {
    IconIndicesExact(layers, IconStart(layers, folder), |layers|);
  }

  /** Highlights are drawn from the last clearing layer to the end; no earlier
      layer is drawn. */
  lemma HighlightsFromLastClear(layers: seq<LayerView>, i: nat)
    ensures i in Range(HighlightStart(layers), |layers|) <==> HighlightStart(layers) <= i < |layers|
  {
    var r := Range(HighlightStart(layers), |layers|);
    if HighlightStart(layers) <= i < |layers| {
      assert r[i - HighlightStart(layers)] == i;
    }
  }

  /** The dispatch at the end of `ProjectWindowItemOnGUI`: an item without layers
      is left to the editor; otherwise the routine for its view draws it. The
      result also says whether the editor's icon was painted over. */
  method DrawItem(kind: ViewKind, layers: seq<LayerView>, folder: bool, selected: bool, rename: bool, hideSelection: bool,
                  textColor: Base.Color, fontStyle: Base.FontStyle)
    returns (plan: Base.Option<Plan>, clear: bool)
    ensures |layers| == 0 ==> plan == Base.None && !clear
    ensures |layers| > 0 ==>
              plan == Base.Some(match kind
                case AssetTree => TreePlan(layers, folder, selected, hideSelection, textColor, fontStyle)
                case FolderTree => TreePlan(layers, folder, selected, hideSelection, textColor, fontStyle)
                case ListRow => RowPlan(layers, folder, selected, rename, hideSelection, textColor, fontStyle)
                case Grid => GridPlan(layers, folder, selected, rename, hideSelection, textColor, fontStyle))
    ensures clear <==> |layers| > 0 && kind == Grid && !BaseIconShown(layers, folder)
  {
    if |layers| == 0 {
      return Base.None, false;
    }
    var p: Plan;
    clear := false;
    match kind {
      case AssetTree =>
        p := TreeviewDrawIconAndLabel(layers, folder, selected, hideSelection, textColor, fontStyle);
      case FolderTree =>
        p := TreeviewDrawIconAndLabel(layers, folder, selected, hideSelection, textColor, fontStyle);
      case ListRow =>
        p := ListAreaDrawIconAndLabel(layers, folder, selected, rename, hideSelection, textColor, fontStyle);
      case Grid =>
        p, clear := ListAreaDrawIcon(layers, folder, selected, rename, hideSelection, textColor, fontStyle);
    }
    plan := Base.Some(p);
  }
}
