/** StylishHighlight.cs: the highlight drawn behind an item's row, its
    configuration height and its cached gradient texture. */
module Highlight {
  import Base

  /** StylishHighlight.Mode. */
  datatype Mode = None | Color | Fade | Gradient

  /** The keys of a UnityEngine.Gradient: colour keys and alpha keys, each with
      its time. */
  datatype GradientKeys = GradientKeys(colorKeys: seq<(Base.Color, real)>, alphaKeys: seq<(real, real)>)
  {
    /** Unity keeps at least one key of each kind in every gradient. */
    predicate WellFormed()
    {
      |colorKeys| >= 1 && |alphaKeys| >= 1
    }

    /** The colour at the right end: the last colour key with the last alpha key's alpha. */
    function EndColor(): (c: Base.Color)
      requires WellFormed()
      ensures c.a == alphaKeys[|alphaKeys| - 1].0
      ensures c.r == colorKeys[|colorKeys| - 1].0.r && c.g == colorKeys[|colorKeys| - 1].0.g
      ensures c.b == colorKeys[|colorKeys| - 1].0.b
    {
      var last := colorKeys[|colorKeys| - 1].0;
      Base.Color(last.r, last.g, last.b, alphaKeys[|alphaKeys| - 1].0)
    }
  }

  /** `new Gradient()`: white and opaque from end to end. */
  const DefaultGradient := GradientKeys([(Base.White, 0.0), (Base.White, 1.0)], [(1.0, 0.0), (1.0, 1.0)])

  /** The two-key gradient `DrawFade` builds from the background to the highlight colour. */
  function FadeKeys(background: Base.Color, highlight: Base.Color): (g: GradientKeys)
    ensures g.WellFormed()
    ensures g.colorKeys[0] == (background, 0.0) && g.colorKeys[|g.colorKeys| - 1] == (highlight, 1.0)
    ensures g.EndColor() == highlight
  {
    GradientKeys([(background, 0.0), (highlight, 1.0)], [(background.a, 0.0), (highlight.a, 1.0)])
  }

  /** The serialized part of a highlight: everything `CopyFrom` copies. */
  datatype Style = Style(
    mode: Mode, background: Base.Color, highlight: Base.Color, fadeLength: real,
    gradient: GradientKeys, overrideText: bool, textColor: Base.Color,
    fontStyle: Base.FontStyle, clearOther: bool)

  /** The field initialisers of StylishHighlight. */
  const DefaultStyle := Style(None, Base.White, Base.White, 1.0, DefaultGradient, false, Base.Black, Base.Normal, false)

  /** What one call of `Draw` paints: nothing, a flat rectangle, or the cached
      texture over `fadeLength` of the row followed by a flat rectangle. */
  datatype Paint = Nothing | Fill(color: Base.Color) | Textured(texture: Base.Option<GradientKeys>, fadeLength: real, rest: Base.Color)

  /** Rows `DrawConfig` lays out: the mode popup; when the targets agree on the
      mode, a colour row (Color, Fade), a gradient row (Gradient), a length row
      (Fade, Gradient) and the clear-other toggle (any mode but None); the
      override-text toggle; and, when the targets agree on it and it is set, the
      text colour and font style rows. */
  function RowsDrawn(modeMixed: bool, mode: Mode, overrideMixed: bool, overrideText: bool): nat
  {
    1
    + (if modeMixed then 0 else
         (if mode == Color || mode == Fade then 1 else 0)
         + (if mode == Gradient then 1 else 0)
         + (if mode == Fade || mode == Gradient then 1 else 0)
         + (if mode != None then 1 else 0))
    + 1
    + (if !overrideMixed && overrideText then 2 else 0)
  }

  /** The line count `GetConfigHeight` reserves. */
  function ConfigLines(mix: bool, mode: Mode, overrideText: bool): (lines: nat)
    ensures mix || mode == None ==> lines == (if overrideText then 4 else 2)
    ensures !mix && mode == Color ==> lines == (if overrideText then 6 else 4)
    ensures !mix && (mode == Fade || mode == Gradient) ==> lines == (if overrideText then 7 else 5)
  {
    var line := if mix then 2 else match mode
      case None => 2
      case Color => 4
      case Fade => 5
      case Gradient => 5;
    if overrideText then line + 2 else line
  }

  /** The reserved lines hold every row `DrawConfig` draws, and exactly those rows
      unless the targets disagree on `overrideText`. */
  lemma ConfigLinesCoverRows(mix: bool, mode: Mode, overrideMixed: bool, overrideText: bool)
    ensures RowsDrawn(mix, mode, overrideMixed, overrideText) <= ConfigLines(mix, mode, overrideText)
    ensures !overrideMixed ==> RowsDrawn(mix, mode, overrideMixed, overrideText) == ConfigLines(mix, mode, overrideText)
  {
  }

  /** Whether a list of highlights disagrees on its mode (`Distinct().Count() > 1`). */
  predicate ModesMixed(targets: seq<StylishHighlight>)
    reads set t | t in targets
  {
    exists i, j :: 0 <= i < |targets| && 0 <= j < |targets| && targets[i].mode != targets[j].mode
  }

  class StylishHighlight {
    var mode: Mode
    var background: Base.Color
    var highlight: Base.Color
    var fadeLength: real
    var gradient: GradientKeys
    var overrideText: bool
    var textColor: Base.Color
    var fontStyle: Base.FontStyle
    var clearOther: bool
    /** `m_UpdateTexture`: the cached texture is stale. */
    var updateTexture: bool
    /** `m_UpdatingTexture`. */
    var updatingTexture: bool
    /** `m_Texture`, represented by the gradient it was rendered from. */
    var texture: Base.Option<GradientKeys>

    ghost predicate Valid()
      reads this
    {
      gradient.WellFormed()
    }

    function GetStyle(): (s: Style)
      reads this
      ensures s.mode == mode && s.gradient == gradient && s.clearOther == clearOther
      ensures s.overrideText == overrideText && s.textColor == textColor && s.fontStyle == fontStyle
      ensures s.background == background && s.highlight == highlight && s.fadeLength == fadeLength
    {
      Style(mode, background, highlight, fadeLength, gradient, overrideText, textColor, fontStyle, clearOther)
    }

    /** The gradient the texture should show for the current mode. */
    function Keys(): (g: GradientKeys)
      reads this
      requires mode == Fade || mode == Gradient
      ensures mode == Fade ==> g == FadeKeys(background, highlight)
      ensures mode == Gradient ==> g == gradient
    {
      if mode == Fade then FadeKeys(background, highlight) else gradient
    }

    /** A texture that is present and not marked stale shows the current style. */
    ghost predicate TextureCurrent()
      reads this
    {
      (mode == Fade || mode == Gradient) && texture.Some? && !updateTexture ==> texture.value == Keys()
    }

    constructor()
      ensures Valid() && GetStyle() == DefaultStyle
      ensures updateTexture && !updatingTexture && texture.None?
    {
      mode, background, highlight, fadeLength, gradient := None, Base.White, Base.White, 1.0, DefaultGradient;
      overrideText, textColor, fontStyle, clearOther := false, Base.Black, Base.Normal, false;
      updateTexture, updatingTexture, texture := true, false, Base.None;
    }

    /** A highlight read back from a serialized style: no texture yet. */
    constructor FromStyle(s: Style)
      requires s.gradient.WellFormed()
      ensures Valid() && GetStyle() == s
      ensures updateTexture && !updatingTexture && texture.None?
    {
      mode, background, highlight, fadeLength, gradient := s.mode, s.background, s.highlight, s.fadeLength, s.gradient;
      overrideText, textColor, fontStyle, clearOther := s.overrideText, s.textColor, s.fontStyle, s.clearOther;
      updateTexture, updatingTexture, texture := true, false, Base.None;
    }

    method CopyFrom(other: StylishHighlight)
      requires other.Valid()
      modifies this
      ensures Valid() && TextureCurrent()
      ensures GetStyle() == old(other.GetStyle())
      ensures updateTexture
      ensures updatingTexture == old(updatingTexture) && texture == old(texture)
    {
      mode := other.mode;
      background := other.background;
      highlight := other.highlight;
      fadeLength := other.fadeLength;
      gradient := other.gradient;
      overrideText := other.overrideText;
      textColor := other.textColor;
      fontStyle := other.fontStyle;
      clearOther := other.clearOther;
      updateTexture := true;
    }

    /** `GetConfigHeight(targets)`; a null `targets` is passed as `[this]`. */
    function GetConfigHeight(targets: seq<StylishHighlight>, lineHeight: real): (h: real)
      reads this, set t | t in targets
      // the lines are rows of `lineHeight`, each followed by a 2-pixel gap but the last
      ensures h == ConfigLines(ModesMixed(targets), mode, overrideText) as real * (lineHeight + 2.0) - 2.0
    {
      var line := ConfigLines(ModesMixed(targets), mode, overrideText) as real;
      line * lineHeight + (line - 1.0) * 2.0
    }

    /** `UpdateTexture(g)`: renders `g` unless an update is already running. */
    method UpdateTexture(g: GradientKeys)
      modifies this
      ensures GetStyle() == old(GetStyle())
      ensures old(updatingTexture) ==> texture == old(texture) && updateTexture == old(updateTexture) && updatingTexture
      ensures !old(updatingTexture) ==> texture == Base.Some(g) && !updateTexture && !updatingTexture
    {
      if updatingTexture {
        return;
      }
      texture := Base.Some(g);
      updateTexture, updatingTexture := false, false;
    }

    /** `Draw`: dispatches on the mode; fade and gradient rebuild the texture only
        when it is missing or stale. */
    method Draw() returns (p: Paint)
      requires Valid()
      modifies this
      ensures Valid() && GetStyle() == old(GetStyle())
      ensures updatingTexture == old(updatingTexture)
      ensures mode == None ==> p == Nothing && unchanged(this)
      ensures mode == Color ==> p == Fill(background) && unchanged(this)
      ensures mode == Fade || mode == Gradient ==>
        var rebuild := (old(texture).None? || old(updateTexture)) && !updatingTexture;
        (rebuild ==> texture == Base.Some(Keys()) && !updateTexture)
        && (!rebuild ==> texture == old(texture) && updateTexture == old(updateTexture))
        && p == Textured(texture, fadeLength, Keys().EndColor())
      ensures old(TextureCurrent()) ==> TextureCurrent()
      // unless an update is blocked, what is painted is the current style
      ensures old(TextureCurrent()) && (mode == Fade || mode == Gradient) && !updatingTexture ==>
        p.texture == Base.Some(Keys())
    {
      match mode {
        case None =>
          p := Nothing;
        case Color =>
          p := Fill(background);
        case Fade =>
          if texture.None? || updateTexture {
            UpdateTexture(FadeKeys(background, highlight));
          }
          p := Textured(texture, fadeLength, highlight);
        case Gradient =>
          if texture.None? || updateTexture {
            UpdateTexture(gradient);
          }
          p := Textured(texture, fadeLength, gradient.EndColor());
      }
    }
  }

  /** Applying an edit from `DrawConfig`: every target is marked stale. */
  method MarkChanged(targets: seq<StylishHighlight>)
    modifies set t | t in targets
    ensures forall i :: 0 <= i < |targets| ==> targets[i].updateTexture
    ensures forall i :: 0 <= i < |targets| ==> targets[i].TextureCurrent()
    ensures forall t :: t in targets ==> t.GetStyle() == old(t.GetStyle()) && t.texture == old(t.texture)
    ensures forall t :: t in targets ==> t.updatingTexture == old(t.updatingTexture)
  {
    var i := 0;
    while i < |targets|
      invariant 0 <= i <= |targets|
      invariant forall k :: 0 <= k < i ==> targets[k].updateTexture
      invariant forall t :: t in targets ==> t.GetStyle() == old(t.GetStyle()) && t.texture == old(t.texture)
      invariant forall t :: t in targets ==> t.updatingTexture == old(t.updatingTexture)
    {
      targets[i].updateTexture := true;
      i := i + 1;
    }
  }
}
