/** StylishHighlightSelector (StylishHighlight.cs): the popup that lists the
    highlight presets, adds the edited highlight as a preset, applies a preset to
    the edited highlights and removes a preset. */
module HighlightPresets {
  import Base
  import Highlight
  import Settings

  /** The one button press an `OnGUI` pass reacts to: none, "Add to Preset", the
      row of preset `i`, or the minus button of preset `i`. */
  datatype Click = NoClick | AddPreset | Pick(i: nat) | Remove(i: nat)

  /** The label drawn over a preset's row: "Highlight <number>" in the preset's
      text colour and font when it overrides the text, else in the label style's own. */
  datatype Row = Row(number: nat, textColor: Base.Color, fontStyle: Base.FontStyle)

  /** The label of the row showing `style` at position `k` (counted from 0). */
  function RowFor(k: nat, style: Highlight.Style, labelColor: Base.Color, labelFont: Base.FontStyle): (r: Row)
    ensures r.number == k + 1
    ensures style.overrideText ==> r.textColor == style.textColor && r.fontStyle == style.fontStyle
    ensures !style.overrideText ==> r.textColor == labelColor && r.fontStyle == labelFont
  {
    Row(k + 1, if style.overrideText then style.textColor else labelColor,
        if style.overrideText then style.fontStyle else labelFont)
  }

  /** Every highlight in the list has a well-formed gradient. */
  ghost predicate AllValid(hs: seq<Highlight.StylishHighlight>)
    reads set h | h in hs
  {
    forall h :: h in hs ==> h.Valid()
  }

  /** One `OnGUI` pass over the presets of `settings` for the edited highlights
      `targets`. The presets are the plug-in's own copies, never an edited highlight. */
  method OnGUI(settings: Settings.StylishSettings, targets: seq<Highlight.StylishHighlight>, click: Click,
               labelColor: Base.Color, labelFont: Base.FontStyle)
    returns (rows: seq<Row>, close: bool)
    requires AllValid(settings.highlightPresetList) && AllValid(targets)
    requires forall t :: t in targets ==> t !in settings.highlightPresetList
    modifies settings, set h | h in settings.highlightPresetList, set t | t in targets
    // the button is enabled only for a single target, and adds a fresh copy of it
    ensures |rows| == |old(settings.highlightPresetList)| + (if click == AddPreset && |targets| == 1 then 1 else 0)
    ensures click == AddPreset && |targets| == 1 ==>
              var n := |old(settings.highlightPresetList)|;
              |settings.highlightPresetList| == n + 1 && settings.highlightPresetList[..n] == old(settings.highlightPresetList)
              && fresh(settings.highlightPresetList[n]) && settings.highlightPresetList[n].GetStyle() == old(targets[0].GetStyle())
    ensures !(click == AddPreset && |targets| == 1) && !click.Remove? ==>
              settings.highlightPresetList == old(settings.highlightPresetList)
    // a minus button removes that preset, once the list has been drawn
    ensures click.Remove? ==>
              settings.highlightPresetList ==
                (if click.i < |old(settings.highlightPresetList)|
                 then Base.RemoveFirst(old(settings.highlightPresetList), old(settings.highlightPresetList)[click.i])
                 else old(settings.highlightPresetList))
    // a pick copies that preset into every target and closes the popup
    ensures close <==> click.Pick? && click.i < |old(settings.highlightPresetList)|
    ensures close ==> forall t :: t in targets ==> t.GetStyle() == old(settings.highlightPresetList[click.i].GetStyle())
    ensures !close ==> forall t :: t in targets ==> t.GetStyle() == old(t.GetStyle())
    // the rows are numbered from 1 and show each preset's label style
    ensures forall k :: 0 <= k < |rows| && k < |old(settings.highlightPresetList)| ==>
              rows[k] == RowFor(k, old(settings.highlightPresetList[k].GetStyle()), labelColor, labelFont)
    ensures click == AddPreset && |targets| == 1 ==>
              var n := |old(settings.highlightPresetList)|;
              rows[n] == RowFor(n, old(targets[0].GetStyle()), labelColor, labelFont)
    // drawing the presets leaves their styles alone
    ensures forall h :: h in old(settings.highlightPresetList) ==> h.GetStyle() == old(h.GetStyle())
    ensures settings.general == old(settings.general) && settings.pathDataList == old(settings.pathDataList)
    ensures settings.pathDataTable == old(settings.pathDataTable)
  {
    if click == AddPreset && |targets| == 1 {
      AddToPreset(settings, targets[0]);
    }
    rows, close := DrawAndRemove(settings, targets, click, labelColor, labelFont);
  }

  /** The presets part of `OnGUI`: draws the presets, then removes the one whose
      minus button was pressed. */
  method DrawAndRemove(settings: Settings.StylishSettings, targets: seq<Highlight.StylishHighlight>, click: Click,
                       labelColor: Base.Color, labelFont: Base.FontStyle)
    returns (rows: seq<Row>, close: bool)
    requires AllValid(settings.highlightPresetList) && AllValid(targets)
    requires forall t :: t in targets ==> t !in settings.highlightPresetList
    modifies settings, set h | h in settings.highlightPresetList, set t | t in targets
    ensures |rows| == |old(settings.highlightPresetList)|
    ensures settings.highlightPresetList ==
              (if click.Remove? && click.i < |old(settings.highlightPresetList)|
               then Base.RemoveFirst(old(settings.highlightPresetList), old(settings.highlightPresetList)[click.i])
               else old(settings.highlightPresetList))
    ensures close <==> click.Pick? && click.i < |old(settings.highlightPresetList)|
    ensures close ==> forall t :: t in targets ==> t.GetStyle() == old(settings.highlightPresetList[click.i].GetStyle())
    ensures !close ==> forall t :: t in targets ==> t.GetStyle() == old(t.GetStyle())
    ensures forall k :: 0 <= k < |rows| ==>
              rows[k] == RowFor(k, old(settings.highlightPresetList[k].GetStyle()), labelColor, labelFont)
    ensures forall h :: h in old(settings.highlightPresetList) ==> h.GetStyle() == old(h.GetStyle())
    ensures settings.general == old(settings.general) && settings.pathDataList == old(settings.pathDataList)
    ensures settings.pathDataTable == old(settings.pathDataTable)
  {
    var presets := settings.highlightPresetList;
    var remove;
    rows, close, remove := DrawPresets(presets, targets, click, labelColor, labelFont);
    if remove != null {
      var removed: Highlight.StylishHighlight := remove;
      settings.highlightPresetList := Base.RemoveFirst(presets, removed);
    }
  }

  /** "Add to Preset": appends a new highlight holding a copy of `target`'s style. */
  method AddToPreset(settings: Settings.StylishSettings, target: Highlight.StylishHighlight)
    requires target.Valid()
    modifies settings
    ensures |settings.highlightPresetList| == |old(settings.highlightPresetList)| + 1
    ensures settings.highlightPresetList[..|old(settings.highlightPresetList)|] == old(settings.highlightPresetList)
    ensures var h := settings.highlightPresetList[|old(settings.highlightPresetList)|];
            fresh(h) && h.Valid() && h.GetStyle() == target.GetStyle()
    ensures settings.general == old(settings.general) && settings.pathDataList == old(settings.pathDataList)
    ensures settings.pathDataTable == old(settings.pathDataTable)
  {
    var highlight := new Highlight.StylishHighlight();
    highlight.CopyFrom(target);
    settings.highlightPresetList := settings.highlightPresetList + [highlight];
  }

  /** The loop over the presets: draws each one with its label, copies the picked
      preset into every target, and notes the preset whose minus button was pressed. */
  method DrawPresets(presets: seq<Highlight.StylishHighlight>, targets: seq<Highlight.StylishHighlight>, click: Click,
                     labelColor: Base.Color, labelFont: Base.FontStyle)
    returns (rows: seq<Row>, close: bool, remove: Highlight.StylishHighlight?)
    requires AllValid(presets)
    requires forall t :: t in targets ==> t !in presets
    modifies set h | h in presets, set t | t in targets
    ensures |rows| == |presets|
    ensures forall k :: 0 <= k < |presets| ==> rows[k] == RowFor(k, old(presets[k].GetStyle()), labelColor, labelFont)
    ensures forall k :: 0 <= k < |presets| ==> presets[k].Valid() && presets[k].GetStyle() == old(presets[k].GetStyle())
    ensures close <==> click.Pick? && click.i < |presets|
    ensures close ==> forall t :: t in targets ==> t.GetStyle() == old(presets[click.i].GetStyle())
    ensures !close ==> forall t :: t in targets ==> t.GetStyle() == old(t.GetStyle())
    ensures remove != null <==> click.Remove? && click.i < |presets|
    ensures remove != null ==> remove == presets[click.i]
  {
    rows, close, remove := [], false, null;
    var i := 0;
    while i < |presets|
      invariant 0 <= i <= |presets| && |rows| == i
      invariant forall k :: 0 <= k < |presets| ==> presets[k].Valid() && presets[k].GetStyle() == old(presets[k].GetStyle())
      invariant forall k :: 0 <= k < i ==> rows[k] == RowFor(k, old(presets[k].GetStyle()), labelColor, labelFont)
      invariant close <==> click.Pick? && click.i < i
      invariant close ==> forall t :: t in targets ==> t.GetStyle() == old(presets[click.i].GetStyle())
      invariant !close ==> forall t :: t in targets ==> t.GetStyle() == old(t.GetStyle())
      invariant remove != null <==> click.Remove? && click.i < i
      invariant remove != null ==> remove == presets[click.i]
    {
      var highlight := presets[i];
      var style := DrawRow(presets, i, targets, click);
      rows := rows + [RowFor(i, style, labelColor, labelFont)];
      if click == Pick(i) {
        close := true;
      }
      if click == Remove(i) {
        remove := highlight;
      }
      i := i + 1;
    }
  }

  /** One row of the loop: draws preset `i`, whose style it returns, and copies it
      into every target when its row was clicked. */
  method DrawRow(presets: seq<Highlight.StylishHighlight>, i: nat, targets: seq<Highlight.StylishHighlight>, click: Click)
    returns (style: Highlight.Style)
    requires i < |presets| && AllValid(presets)
    requires forall t :: t in targets ==> t !in presets
    modifies presets[i], set t | t in targets
    ensures style == old(presets[i].GetStyle())
    ensures forall k :: 0 <= k < |presets| ==> presets[k].Valid() && presets[k].GetStyle() == old(presets[k].GetStyle())
    ensures click == Pick(i) ==> forall t :: t in targets ==> t.GetStyle() == style
    ensures click != Pick(i) ==> forall t :: t in targets ==> t.GetStyle() == old(t.GetStyle())
  {
    var highlight := presets[i];
    var _ := highlight.Draw();
    style := highlight.GetStyle();
    if click == Pick(i) {
      CopyIntoAll(targets, highlight);
    }
  }

  /** `foreach (var target in targets) target.CopyFrom(preset)`. */
  method CopyIntoAll(targets: seq<Highlight.StylishHighlight>, preset: Highlight.StylishHighlight)
    requires preset.Valid() && preset !in targets
    modifies set t | t in targets
    ensures forall t :: t in targets ==> t.Valid() && t.GetStyle() == preset.GetStyle() && t.updateTexture
  {
    var j := 0;
    while j < |targets|
      invariant 0 <= j <= |targets|
      invariant forall k :: 0 <= k < j ==> targets[k].Valid() && targets[k].GetStyle() == preset.GetStyle() && targets[k].updateTexture
    {
      targets[j].CopyFrom(preset);
      j := j + 1;
    }
  }
}
