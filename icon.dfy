/** StylishIcon.cs: layered icons, the per-entry icon override with its tint
    arrays, the layer editor and the icon picker's window size. */
module Icon {
  import Base
  import Utils

  /** StylishIconOverride.Mode. */
  datatype Mode = None | Replace | Overlay

  /** TextureLayer without its offset and size (rectangle geometry is not
      modelled): a built-in resource name or a texture, and the layer's own tint. */
  datatype TextureLayer = TextureLayer(useResource: bool, resource: string, texture: Base.Option<Base.Texture>, tints: Base.Color)

  /** `new TextureLayer()`. */
  const NewLayer := TextureLayer(false, "", Base.None, Base.White)

  /** `s_SelectedOverlay`, `new Color(0.85f, 0.9f, 1f)`. */
  const SelectedOverlay := Base.Color(0.85, 0.9, 1.0, 1.0)

  /** The texture a layer shows: the built-in resource when `useResource` is set
      and the name is not empty, its own texture otherwise; `resources` stands for
      the cached `GetResource` lookup. */
  function LayerTexture(layer: TextureLayer, resources: string -> Base.Option<Base.Texture>): (t: Base.Option<Base.Texture>)
    ensures layer.useResource && layer.resource != "" ==> t == resources(layer.resource)
    ensures !(layer.useResource && layer.resource != "") ==> t == layer.texture
  {
    if layer.useResource && layer.resource != "" then resources(layer.resource) else layer.texture
  }

  /** The layers that have a texture, each with that texture, in order. */
  function Drawn(layers: seq<TextureLayer>, resources: string -> Base.Option<Base.Texture>): (d: seq<(TextureLayer, Base.Texture)>)
    ensures |d| <= |layers|
  {
    if |layers| == 0 then []
    else
      var last := layers[|layers| - 1];
      var d := Drawn(layers[..|layers| - 1], resources);
      match LayerTexture(last, resources)
      case None => d
      case Some(t) => d + [(last, t)]
  }

  /** Every drawn entry is one of the layers, paired with the texture it shows;
      every textured layer is drawn. */
  lemma {:induction false} DrawnIsTexturedLayers(layers: seq<TextureLayer>, resources: string -> Base.Option<Base.Texture>)
    ensures forall j :: 0 <= j < |Drawn(layers, resources)| ==>
              Drawn(layers, resources)[j].0 in layers
              && LayerTexture(Drawn(layers, resources)[j].0, resources) == Base.Some(Drawn(layers, resources)[j].1)
    ensures forall x :: x in layers && LayerTexture(x, resources).Some? ==> (x, LayerTexture(x, resources).value) in Drawn(layers, resources)
  {
    if |layers| > 0 {
      var init := layers[..|layers| - 1];
      DrawnIsTexturedLayers(init, resources);
      assert layers == init + [layers[|layers| - 1]];
    }
  }

  /** Drawing two runs of layers one after the other draws what each run draws. */
  lemma {:induction false} DrawnAppend(a: seq<TextureLayer>, b: seq<TextureLayer>, resources: string -> Base.Option<Base.Texture>)
    ensures Drawn(a + b, resources) == Drawn(a, resources) + Drawn(b, resources)
  {
    if |b| == 0 {
      assert a + b == a;
    } else {
      assert (a + b)[..|a + b| - 1] == a + b[..|b| - 1];
      DrawnAppend(a, b[..|b| - 1], resources);
    }
  }

  /** A layer without a texture draws nothing and does not take a tint. */
  lemma UntexturedLayerDrawsNothing(a: seq<TextureLayer>, x: TextureLayer, b: seq<TextureLayer>, resources: string -> Base.Option<Base.Texture>)
    requires LayerTexture(x, resources).None?
    ensures Drawn(a + [x] + b, resources) == Drawn(a + b, resources)
  {
    DrawnAppend(a + [x], b, resources);
    DrawnAppend(a, b, resources);
    assert (a + [x])[..|a + [x]| - 1] == a;
  }

  /** One `GUI.DrawTexture` call with the colour set just before it. */
  datatype DrawCall = DrawCall(texture: Base.Texture, color: Base.Color)

  /** The colour of a layer: its tint, blended, then darkened when selected. */
  function Tinted(layerTint: Base.Color, tint: Base.Color, blend: Utils.BlendMode, selected: bool): (c: Base.Color)
    ensures !selected ==> c == Utils.Blend(layerTint, tint, blend)
    ensures selected ==> c == Base.Mul(Utils.Blend(layerTint, tint, blend), SelectedOverlay)
  {
    var c := Utils.Blend(layerTint, tint, blend);
    if selected then Base.Mul(c, SelectedOverlay) else c
  }

  /** The tint for the j-th drawn layer: the stored one, or white once the stored
      ones have run out (the arrays are then reset to white). */
  function TintAt(tints: seq<Base.Color>, j: nat): Base.Color
  {
    if j < |tints| then tints[j] else Base.White
  }

  /** The calls an override issues for drawn layers `d` with tint array `tints`. */
  function OverrideCalls(d: seq<(TextureLayer, Base.Texture)>, tints: seq<Base.Color>, blend: Utils.BlendMode, selected: bool): (r: seq<DrawCall>)
    ensures |r| == |d|
    ensures forall j :: 0 <= j < |d| ==> r[j] == DrawCall(d[j].1, Tinted(d[j].0.tints, TintAt(tints, j), blend, selected))
  {
    seq(|d|, j requires 0 <= j < |d| => DrawCall(d[j].1, Tinted(d[j].0.tints, TintAt(tints, j), blend, selected)))
  }

  /** One more drawn layer adds one call, tinted with the next tint. */
  lemma OverrideCallsSnoc(d: seq<(TextureLayer, Base.Texture)>, x: (TextureLayer, Base.Texture), tints: seq<Base.Color>,
                          blend: Utils.BlendMode, selected: bool)
    ensures OverrideCalls(d + [x], tints, blend, selected)
         == OverrideCalls(d, tints, blend, selected) + [DrawCall(x.1, Tinted(x.0.tints, TintAt(tints, |d|), blend, selected))]
  {
    var l := OverrideCalls(d + [x], tints, blend, selected);
    var r := OverrideCalls(d, tints, blend, selected) + [DrawCall(x.1, Tinted(x.0.tints, TintAt(tints, |d|), blend, selected))];
    assert |l| == |r|;
    forall j | 0 <= j < |l|
      ensures l[j] == r[j]
    {
      if j < |d| {
        assert (d + [x])[j] == d[j];
      }
    }
  }

  /** The layer lists of an icon, as values. */
  datatype IconLayers = IconLayers(normal: seq<TextureLayer>, small: seq<TextureLayer>)

  /** Whether a draw asking for `small` uses the small layers: only when there are some. */
  predicate UsesSmall(icon: IconLayers, small: bool)
  {
    small && |icon.small| > 0
  }

  /** The layers a draw uses: small or normal, falling back to normal when the
      small list is empty. */
  function LayersFor(icon: IconLayers, small: bool): (layers: seq<TextureLayer>)
    ensures layers == (if UsesSmall(icon, small) then icon.small else icon.normal)
    ensures |icon.normal| > 0 ==> |layers| > 0
  {
    if UsesSmall(icon, small) then icon.small else icon.normal
  }

  /** The outcome of an override's draw: the calls and the tint arrays afterwards.
      An exception stops the draw part way; the calls made before it and the tint
      arrays as they stood when it was thrown remain. */
  datatype Outcome =
    | Threw(calls: seq<DrawCall>, normalTints: seq<Base.Color>, smallTints: seq<Base.Color>)
    | Drew(calls: seq<DrawCall>, normalTints: seq<Base.Color>, smallTints: seq<Base.Color>)

  /** The loop state of `StylishIconOverride.Draw`. */
  datatype DrawState = DrawState(index: nat, tints: seq<Base.Color>, normalTints: seq<Base.Color>, smallTints: seq<Base.Color>, calls: seq<DrawCall>)

  /** `StylishIconOverride.Draw` as written: after running out of tints it resets
      both arrays and then re-selects the array by `small` alone, although the
      layers may have fallen back to the normal list. */
  function DrawAsWritten(icon: IconLayers, normalTints: seq<Base.Color>, smallTints: seq<Base.Color>, small: bool,
                         blend: Utils.BlendMode, selected: bool, resources: string -> Base.Option<Base.Texture>): (o: Outcome)
    // the layers in use are those of LayersFor; a completed draw draws each textured one
    ensures |o.calls| <= |Drawn(LayersFor(icon, small), resources)|
    ensures o.Drew? ==> |o.calls| == |Drawn(LayersFor(icon, small), resources)|
    // only the small fallback can throw
    ensures o.Threw? ==> small && |icon.small| == 0
  {
    var layers := if small then icon.small else icon.normal;
    var tints := if small then smallTints else normalTints;
    var tints := if |layers| == 0 then normalTints else tints;
    var layers := if |layers| == 0 then icon.normal else layers;
    assert layers == LayersFor(icon, small);
    LoopAsWrittenCalls(icon, layers, small, blend, selected, resources, DrawState(0, tints, normalTints, smallTints, []));
    LoopAsWritten(icon, layers, small, blend, selected, resources, DrawState(0, tints, normalTints, smallTints, []))
  }

  /** The reset as written: both arrays white, the one in use chosen by `small`. */
  function RefillAsWritten(icon: IconLayers, small: bool, st: DrawState): (r: DrawState)
    ensures r.index == st.index && r.calls == st.calls
    ensures st.index < |st.tints| ==> r == st
    // the array in use is sized by `small`, whichever layers are in use
    ensures st.index >= |st.tints| ==>
              r.normalTints == Base.Whites(|icon.normal|) && r.smallTints == Base.Whites(|icon.small|)
              && r.tints == Base.Whites(if small then |icon.small| else |icon.normal|)
  {
    if st.index >= |st.tints| then
      var n := Base.Whites(|icon.normal|);
      var s := Base.Whites(|icon.small|);
      st.(normalTints := n, smallTints := s, tints := if small then s else n)
    else st
  }

  /** The loop of `StylishIconOverride.Draw` as written, over the layers `rest`
      still to visit. */
  function LoopAsWritten(icon: IconLayers, rest: seq<TextureLayer>, small: bool, blend: Utils.BlendMode, selected: bool,
                         resources: string -> Base.Option<Base.Texture>, st: DrawState): Outcome
    decreases |rest|
  {
    if |rest| == 0 then Drew(st.calls, st.normalTints, st.smallTints)
    else
      match LayerTexture(rest[0], resources)
      case None => LoopAsWritten(icon, rest[1..], small, blend, selected, resources, st)
      case Some(tex) =>
        var st := RefillAsWritten(icon, small, st);
        if st.index >= |st.tints| then Threw(st.calls, st.normalTints, st.smallTints)
        else
          var call := DrawCall(tex, Tinted(rest[0].tints, st.tints[st.index], blend, selected));
          LoopAsWritten(icon, rest[1..], small, blend, selected, resources, st.(index := st.index + 1, calls := st.calls + [call]))
  }

  /** The loop as written only adds calls, one per textured layer it visits; it
      throws at a textured layer, and only once the layers drawn reach the size
      of the list `small` chooses. */
  lemma {:induction false} LoopAsWrittenCalls(icon: IconLayers, rest: seq<TextureLayer>, small: bool, blend: Utils.BlendMode,
                                            selected: bool, resources: string -> Base.Option<Base.Texture>, st: DrawState)
    ensures var o := LoopAsWritten(icon, rest, small, blend, selected, resources, st);
            |st.calls| <= |o.calls| && o.calls[..|st.calls|] == st.calls
            && (o.Drew? ==> |o.calls| == |st.calls| + |Drawn(rest, resources)|)
            && (o.Threw? ==> |o.calls| < |st.calls| + |Drawn(rest, resources)|)
            && (o.Threw? ==> st.index + (|o.calls| - |st.calls|) >= (if small then |icon.small| else |icon.normal|))
    decreases |rest|
  {
    if |rest| > 0 {
      DrawnAppend([rest[0]], rest[1..], resources);
      assert [rest[0]] + rest[1..] == rest;
      assert [rest[0]][..0] == [];
      match LayerTexture(rest[0], resources)
      case None =>
        LoopAsWrittenCalls(icon, rest[1..], small, blend, selected, resources, st);
      case Some(tex) =>
        var st1 := RefillAsWritten(icon, small, st);
        if st1.index < |st1.tints| {
          var call := DrawCall(tex, Tinted(rest[0].tints, st1.tints[st1.index], blend, selected));
          var st2 := st1.(index := st1.index + 1, calls := st1.calls + [call]);
          LoopAsWrittenCalls(icon, rest[1..], small, blend, selected, resources, st2);
          var o := LoopAsWritten(icon, rest[1..], small, blend, selected, resources, st2);
          assert o.calls[..|st.calls|] == o.calls[..|st2.calls|][..|st.calls|];
        }
    }
  }

  /** The finding: an icon with one textured normal layer and no small layers,
      drawn small with no stored tints, throws (`tints[index]` on an empty array)
      before drawing anything. The reset has already stored a white normal array,
      so the next draw of the same override takes the fallback tints and draws:
      the exception happens once, not on every repaint. */
  lemma TintResetFallbackThrows(resources: string -> Base.Option<Base.Texture>)
    ensures var layer := TextureLayer(false, "", Base.Some(Base.Texture(0)), Base.White);
            var icon := IconLayers([layer], []);
            var first := DrawAsWritten(icon, [], [], true, Utils.Override, false, resources);
            first == Threw([], [Base.White], [])
            && DrawAsWritten(icon, first.normalTints, first.smallTints, true, Utils.Override, false, resources)
               == Drew([DrawCall(Base.Texture(0), Tinted(Base.White, Base.White, Utils.Override, false))], [Base.White], [])
  {
    var layer := TextureLayer(false, "", Base.Some(Base.Texture(0)), Base.White);
    var icon := IconLayers([layer], []);
    assert LayerTexture(layer, resources) == Base.Some(Base.Texture(0));
    assert Base.Whites(1) == [Base.White] && Base.Whites(0) == [];
    var st := DrawState(0, [], [], [], []);
    assert DrawAsWritten(icon, [], [], true, Utils.Override, false, resources)
        == LoopAsWritten(icon, [layer], true, Utils.Override, false, resources, st);
    var st2 := DrawState(0, [Base.White], [Base.White], [], []);
    var call := DrawCall(Base.Texture(0), Tinted(Base.White, Base.White, Utils.Override, false));
    assert DrawAsWritten(icon, [Base.White], [], true, Utils.Override, false, resources)
        == LoopAsWritten(icon, [layer], true, Utils.Override, false, resources, st2);
    assert [layer][1..] == [];
    assert LoopAsWritten(icon, [layer], true, Utils.Override, false, resources, st2)
        == LoopAsWritten(icon, [], true, Utils.Override, false, resources, st2.(index := 1, calls := [call]));
  }

  /** The corrected draw: the tint array is re-selected by the layers in use. It
      never fails, draws every textured layer, and resets the arrays exactly when
      they hold fewer tints than there are textured layers. */
  function DrawCorrected(icon: IconLayers, normalTints: seq<Base.Color>, smallTints: seq<Base.Color>, small: bool,
                         blend: Utils.BlendMode, selected: bool, resources: string -> Base.Option<Base.Texture>): (o: Outcome)
    ensures o.Drew?
    ensures |o.calls| == |Drawn(LayersFor(icon, small), resources)|
    ensures var t := if UsesSmall(icon, small) then smallTints else normalTints;
            var k := |Drawn(LayersFor(icon, small), resources)|;
            (k <= |t| ==> o.normalTints == normalTints && o.smallTints == smallTints)
            && (k > |t| ==> o.normalTints == Base.Whites(|icon.normal|) && o.smallTints == Base.Whites(|icon.small|))
  {
    var t := if UsesSmall(icon, small) then smallTints else normalTints;
    var d := Drawn(LayersFor(icon, small), resources);
    var calls := OverrideCalls(d, t, blend, selected);
    if |d| <= |t| then Drew(calls, normalTints, smallTints)
    else Drew(calls, Base.Whites(|icon.normal|), Base.Whites(|icon.small|))
  }

  /** The tint arrays after a draw has run out of tints: all white, sized to the
      icon's lists, with the array in use re-selected by the layers in use. */
  function ResetTints(icon: IconLayers, small: bool, st: DrawState): (r: DrawState)
    ensures r.index == st.index && r.calls == st.calls
    ensures r.tints == Base.Whites(|LayersFor(icon, small)|)
  {
    var n := Base.Whites(|icon.normal|);
    var s := Base.Whites(|icon.small|);
    st.(normalTints := n, smallTints := s, tints := if UsesSmall(icon, small) then s else n)
  }

  /** The state in which a textured layer reads its tint: the arrays are reset
      first when the index has run past the array in use. */
  function Refill(icon: IconLayers, small: bool, st: DrawState): DrawState
  {
    if st.index >= |st.tints| then ResetTints(icon, small, st) else st
  }

  /** One iteration of the corrected loop on layer `x`. */
  function NextCorrected(icon: IconLayers, small: bool, x: TextureLayer, blend: Utils.BlendMode, selected: bool,
                         resources: string -> Base.Option<Base.Texture>, st: DrawState): DrawState
  {
    match LayerTexture(x, resources)
    case None => st
    case Some(tex) =>
      var st1 := Refill(icon, small, st);
      st1.(index := st1.index + 1, calls := st1.calls + [DrawCall(tex, Tinted(x.tints, TintAt(st1.tints, st1.index), blend, selected))])
  }

  /** The corrected loop over the layers `rest` still to visit. */
  function CorrectedLoop(icon: IconLayers, small: bool, rest: seq<TextureLayer>, blend: Utils.BlendMode, selected: bool,
                         resources: string -> Base.Option<Base.Texture>, st: DrawState): DrawState
    decreases |rest|
  {
    if |rest| == 0 then st
    else CorrectedLoop(icon, small, rest[1..], blend, selected, resources, NextCorrected(icon, small, rest[0], blend, selected, resources, st))
  }

  /** The loop invariant shared by the corrected draw and, outside the fallback
      case, the code as written: `done` are the layers already visited and `t0`
      the tint array selected at the start. */
  ghost predicate LoopMatches(icon: IconLayers, small: bool, t0: seq<Base.Color>, normalTints: seq<Base.Color>, smallTints: seq<Base.Color>,
                              done: seq<TextureLayer>, blend: Utils.BlendMode, selected: bool,
                              resources: string -> Base.Option<Base.Texture>, st: DrawState)
  {
    var d := Drawn(done, resources);
    st.index == |d|
    && st.calls == OverrideCalls(d, t0, blend, selected)
    && (st.index <= |t0| ==> st.tints == t0 && st.normalTints == normalTints && st.smallTints == smallTints)
    && (st.index > |t0| ==>
          st.tints == Base.Whites(|LayersFor(icon, small)|)
          && st.normalTints == Base.Whites(|icon.normal|) && st.smallTints == Base.Whites(|icon.small|))
  }

  /** Under the invariant, the tint a textured layer reads is in range and is
      the one the corrected draw assigns it; the arrays are kept while the
      initial array lasts and are all white after. */
  lemma RefillTint(icon: IconLayers, small: bool, t0: seq<Base.Color>, normalTints: seq<Base.Color>, smallTints: seq<Base.Color>,
                   done: seq<TextureLayer>, blend: Utils.BlendMode, selected: bool,
                   resources: string -> Base.Option<Base.Texture>, st: DrawState)
    requires |done| < |LayersFor(icon, small)|
    requires LoopMatches(icon, small, t0, normalTints, smallTints, done, blend, selected, resources, st)
    ensures var st1 := Refill(icon, small, st);
            st1.index == st.index && st1.calls == st.calls
            && st1.index < |st1.tints| && st1.tints[st1.index] == TintAt(t0, st.index)
            && (st.index < |t0| ==> st1.tints == t0 && st1.normalTints == normalTints && st1.smallTints == smallTints)
            && (st.index >= |t0| ==>
                  st1.tints == Base.Whites(|LayersFor(icon, small)|)
                  && st1.normalTints == Base.Whites(|icon.normal|) && st1.smallTints == Base.Whites(|icon.small|))
  {
    assert st.index <= |done|;
    if st.index == |t0| {
      assert Refill(icon, small, st) == ResetTints(icon, small, st);
    }
  }

  /** A corrected iteration keeps the invariant. */
  lemma CorrectedStep(icon: IconLayers, small: bool, t0: seq<Base.Color>, normalTints: seq<Base.Color>, smallTints: seq<Base.Color>,
                      done: seq<TextureLayer>, x: TextureLayer, blend: Utils.BlendMode, selected: bool,
                      resources: string -> Base.Option<Base.Texture>, st: DrawState)
    requires |done| < |LayersFor(icon, small)|
    requires LoopMatches(icon, small, t0, normalTints, smallTints, done, blend, selected, resources, st)
    ensures LoopMatches(icon, small, t0, normalTints, smallTints, done + [x], blend, selected, resources,
                        NextCorrected(icon, small, x, blend, selected, resources, st))
  {
    var d := Drawn(done, resources);
    assert (done + [x])[..|done + [x]| - 1] == done;
    match LayerTexture(x, resources)
    case None =>
      assert Drawn(done + [x], resources) == d;
    case Some(tex) =>
      assert Drawn(done + [x], resources) == d + [(x, tex)];
      RefillTint(icon, small, t0, normalTints, smallTints, done, blend, selected, resources, st);
      OverrideCallsSnoc(d, (x, tex), t0, blend, selected);
  }

  /** Running the corrected loop over the remaining layers keeps the invariant. */
  lemma {:induction false} CorrectedLoopMatches(icon: IconLayers, small: bool, t0: seq<Base.Color>,
                                              normalTints: seq<Base.Color>, smallTints: seq<Base.Color>,
                                              done: seq<TextureLayer>, rest: seq<TextureLayer>,
                                              blend: Utils.BlendMode, selected: bool,
                                              resources: string -> Base.Option<Base.Texture>, st: DrawState)
    requires done + rest == LayersFor(icon, small)
    requires LoopMatches(icon, small, t0, normalTints, smallTints, done, blend, selected, resources, st)
    ensures LoopMatches(icon, small, t0, normalTints, smallTints, LayersFor(icon, small), blend, selected, resources,
                        CorrectedLoop(icon, small, rest, blend, selected, resources, st))
    decreases |rest|
  {
    if |rest| == 0 {
      assert done + rest == done;
    } else {
      CorrectedStep(icon, small, t0, normalTints, smallTints, done, rest[0], blend, selected, resources, st);
      assert (done + [rest[0]]) + rest[1..] == done + rest;
      CorrectedLoopMatches(icon, small, t0, normalTints, smallTints, done + [rest[0]], rest[1..], blend, selected, resources,
                           NextCorrected(icon, small, rest[0], blend, selected, resources, st));
    }
  }

  /** The corrected loop, run over all layers from the initial state, gives the
      corrected draw's outcome. */
  lemma CorrectedLoopOutcome(icon: IconLayers, small: bool, normalTints: seq<Base.Color>, smallTints: seq<Base.Color>,
                             blend: Utils.BlendMode, selected: bool, resources: string -> Base.Option<Base.Texture>)
    ensures var t0 := if UsesSmall(icon, small) then smallTints else normalTints;
            var st := CorrectedLoop(icon, small, LayersFor(icon, small), blend, selected, resources, DrawState(0, t0, normalTints, smallTints, []));
            DrawCorrected(icon, normalTints, smallTints, small, blend, selected, resources) == Drew(st.calls, st.normalTints, st.smallTints)
  {
    var t0 := if UsesSmall(icon, small) then smallTints else normalTints;
    var st0 := DrawState(0, t0, normalTints, smallTints, []);
    assert Drawn([], resources) == [];
    assert [] + LayersFor(icon, small) == LayersFor(icon, small);
    CorrectedLoopMatches(icon, small, t0, normalTints, smallTints, [], LayersFor(icon, small), blend, selected, resources, st0);
    CorrectedDone(icon, small, normalTints, smallTints, blend, selected, resources,
                  CorrectedLoop(icon, small, LayersFor(icon, small), blend, selected, resources, st0));
  }

  /** Once every layer is visited, the invariant gives the corrected draw's outcome. */
  lemma CorrectedDone(icon: IconLayers, small: bool, normalTints: seq<Base.Color>, smallTints: seq<Base.Color>,
                      blend: Utils.BlendMode, selected: bool, resources: string -> Base.Option<Base.Texture>, st: DrawState)
    requires LoopMatches(icon, small, if UsesSmall(icon, small) then smallTints else normalTints, normalTints, smallTints,
                         LayersFor(icon, small), blend, selected, resources, st)
    ensures DrawCorrected(icon, normalTints, smallTints, small, blend, selected, resources) == Drew(st.calls, st.normalTints, st.smallTints)
  {
  }

  /** Outside the fallback case an iteration of the code as written is a
      corrected iteration. */
  lemma AsWrittenStep(icon: IconLayers, small: bool, rest: seq<TextureLayer>, blend: Utils.BlendMode, selected: bool,
                      resources: string -> Base.Option<Base.Texture>, st: DrawState)
    requires small ==> UsesSmall(icon, small)
    requires |rest| > 0
    requires Refill(icon, small, st).index < |Refill(icon, small, st).tints|
    ensures LoopAsWritten(icon, rest, small, blend, selected, resources, st)
         == LoopAsWritten(icon, rest[1..], small, blend, selected, resources, NextCorrected(icon, small, rest[0], blend, selected, resources, st))
  {
    var x := rest[0];
    match LayerTexture(x, resources)
    case None =>
    case Some(tex) =>
      var st1 := Refill(icon, small, st);
      if st.index >= |st.tints| {
        assert LayersFor(icon, small) == if small then icon.small else icon.normal;
      }
      assert RefillAsWritten(icon, small, st) == st1;
      var call := DrawCall(tex, Tinted(x.tints, st1.tints[st1.index], blend, selected));
      assert NextCorrected(icon, small, x, blend, selected, resources, st) == st1.(index := st1.index + 1, calls := st1.calls + [call]);
      assert LoopAsWritten(icon, rest, small, blend, selected, resources, st)
          == LoopAsWritten(icon, rest[1..], small, blend, selected, resources, st1.(index := st1.index + 1, calls := st1.calls + [call]));
  }

  lemma {:induction false} LoopAsWrittenMatches(icon: IconLayers, small: bool, t0: seq<Base.Color>,
                                              normalTints: seq<Base.Color>, smallTints: seq<Base.Color>,
                                              done: seq<TextureLayer>, rest: seq<TextureLayer>,
                                              blend: Utils.BlendMode, selected: bool,
                                              resources: string -> Base.Option<Base.Texture>, st: DrawState)
    requires small ==> UsesSmall(icon, small)
    requires done + rest == LayersFor(icon, small)
    requires LoopMatches(icon, small, t0, normalTints, smallTints, done, blend, selected, resources, st)
    ensures var d := Drawn(LayersFor(icon, small), resources);
            LoopAsWritten(icon, rest, small, blend, selected, resources, st)
              == Drew(OverrideCalls(d, t0, blend, selected),
                 if |d| <= |t0| then normalTints else Base.Whites(|icon.normal|),
                 if |d| <= |t0| then smallTints else Base.Whites(|icon.small|))
    decreases |rest|
  {
    if |rest| == 0 {
      assert done + rest == done;
    } else {
      RefillTint(icon, small, t0, normalTints, smallTints, done, blend, selected, resources, st);
      AsWrittenStep(icon, small, rest, blend, selected, resources, st);
      CorrectedStep(icon, small, t0, normalTints, smallTints, done, rest[0], blend, selected, resources, st);
      assert (done + [rest[0]]) + rest[1..] == done + rest;
      LoopAsWrittenMatches(icon, small, t0, normalTints, smallTints, done + [rest[0]], rest[1..], blend, selected, resources,
                           NextCorrected(icon, small, rest[0], blend, selected, resources, st));
    }
  }

  /** Except in the fallback case (small requested, no small layers), the code as
      written and the corrected draw agree. */
  lemma AsWrittenAgreesOutsideFallback(icon: IconLayers, normalTints: seq<Base.Color>, smallTints: seq<Base.Color>, small: bool,
                                       blend: Utils.BlendMode, selected: bool, resources: string -> Base.Option<Base.Texture>)
    requires small ==> |icon.small| > 0
    ensures DrawAsWritten(icon, normalTints, smallTints, small, blend, selected, resources)
         == DrawCorrected(icon, normalTints, smallTints, small, blend, selected, resources)
  {
    var t0 := if UsesSmall(icon, small) then smallTints else normalTints;
    var st := DrawState(0, t0, normalTints, smallTints, []);
    assert Drawn([], resources) == [];
    assert [] + LayersFor(icon, small) == LayersFor(icon, small);
    LoopAsWrittenMatches(icon, small, t0, normalTints, smallTints, [], LayersFor(icon, small), blend, selected, resources, st);
  }

  class StylishIcon {
    var normal: seq<TextureLayer>
    var small: seq<TextureLayer>

    /** `StylishIcon.Create()`: an icon with no layers. */
    constructor()
      ensures normal == [] && small == []
    {
      normal, small := [], [];
    }

    function Layers(): IconLayers
      reads this
    {
      IconLayers(normal, small)
    }

    /** `StylishIcon.Draw(small, selected)`: one call per textured layer of the
        small or (fallback) normal list, in the layer's own tint. */
    method Draw(small: bool, selected: bool, resources: string -> Base.Option<Base.Texture>) returns (calls: seq<DrawCall>)
      ensures var d := Drawn(LayersFor(Layers(), small), resources);
              |calls| == |d|
              && forall j :: 0 <= j < |d| ==>
                   calls[j] == DrawCall(d[j].1, if selected then Base.Mul(d[j].0.tints, SelectedOverlay) else d[j].0.tints)
    {
      var layers := if small then this.small else this.normal;
      if |layers| == 0 {
        layers := this.normal;
      }
      calls := [];
      var i := 0;
      while i < |layers|
        invariant 0 <= i <= |layers|
        invariant var d := Drawn(layers[..i], resources);
                  |calls| == |d|
                  && forall j :: 0 <= j < |d| ==>
                       calls[j] == DrawCall(d[j].1, if selected then Base.Mul(d[j].0.tints, SelectedOverlay) else d[j].0.tints)
      {
        var layer := layers[i];
        assert layers[..i + 1][..i] == layers[..i];
        var tex := LayerTexture(layer, resources);
        if tex.Some? {
          var c := layer.tints;
          if selected {
            c := Base.Mul(c, SelectedOverlay);
          }
          calls := calls + [DrawCall(tex.value, c)];
        }
        i := i + 1;
      }
      assert layers[..i] == layers;
    }

    /** The editor's "+" for the whole list: appends a new layer. */
    method AddLayer(toSmall: bool)
      modifies this
      ensures toSmall ==> small == old(small) + [NewLayer] && normal == old(normal)
      ensures !toSmall ==> normal == old(normal) + [NewLayer] && small == old(small)
    {
      if toSmall {
        small := small + [NewLayer];
      } else {
        normal := normal + [NewLayer];
      }
    }

    /** The editor's "-" for the whole list: removes the last layer; on an empty
        list `RemoveAt(-1)` throws and nothing changes. */
    method RemoveLastLayer(fromSmall: bool) returns (ok: bool)
      modifies this
      ensures ok <==> |if fromSmall then old(small) else old(normal)| > 0
      ensures fromSmall ==> normal == old(normal) && small == (if ok then old(small)[..|old(small)| - 1] else old(small))
      ensures !fromSmall ==> small == old(small) && normal == (if ok then old(normal)[..|old(normal)| - 1] else old(normal))
    {
      var layers := if fromSmall then small else normal;
      if |layers| == 0 {
        return false;
      }
      layers := layers[..|layers| - 1];
      if fromSmall {
        small := layers;
      } else {
        normal := layers;
      }
      ok := true;
    }

    /** A layer's "+": inserts a new layer before layer `i`. */
    method InsertLayer(toSmall: bool, i: nat)
      requires i < |if toSmall then small else normal|
      modifies this
      ensures toSmall ==> small == Inserted(old(small), i, NewLayer) && normal == old(normal)
      ensures !toSmall ==> normal == Inserted(old(normal), i, NewLayer) && small == old(small)
    {
      if toSmall {
        small := small[..i] + [NewLayer] + small[i..];
      } else {
        normal := normal[..i] + [NewLayer] + normal[i..];
      }
    }

    /** A layer's "-": removes layer `i`. */
    method RemoveLayer(fromSmall: bool, i: nat)
      requires i < |if fromSmall then small else normal|
      modifies this
      ensures fromSmall ==> small == RemovedAt(old(small), i) && normal == old(normal)
      ensures !fromSmall ==> normal == RemovedAt(old(normal), i) && small == old(small)
    {
      if fromSmall {
        small := small[..i] + small[i + 1..];
      } else {
        normal := normal[..i] + normal[i + 1..];
      }
    }
  }

  /** `List.Insert(i, x)`. */
  function Inserted(s: seq<TextureLayer>, i: nat, x: TextureLayer): (r: seq<TextureLayer>)
    requires i <= |s|
    ensures |r| == |s| + 1 && r[i] == x
    ensures r[..i] == s[..i] && r[i + 1..] == s[i..]
  {
    s[..i] + [x] + s[i..]
  }

  /** `List.RemoveAt(i)`. */
  function RemovedAt(s: seq<TextureLayer>, i: nat): (r: seq<TextureLayer>)
    requires i < |s|
    ensures |r| == |s| - 1
    ensures r[..i] == s[..i] && r[i..] == s[i + 1..]
  {
    s[..i] + s[i + 1..]
  }

  /** Removing a layer right after inserting it there gives the list back. */
  lemma RemoveUndoesInsert(s: seq<TextureLayer>, i: nat, x: TextureLayer)
    requires i <= |s|
    ensures RemovedAt(Inserted(s, i, x), i) == s
  {
    var r := Inserted(s, i, x);
    assert RemovedAt(r, i) == r[..i] + r[i + 1..];
    assert s == s[..i] + s[i..];
  }

  /** A freshly inserted layer has no texture, so it draws nothing. */
  lemma NewLayerDrawsNothing(s: seq<TextureLayer>, i: nat, resources: string -> Base.Option<Base.Texture>)
    requires i <= |s|
    ensures Drawn(Inserted(s, i, NewLayer), resources) == Drawn(s, resources)
  {
    var a, b := s[..i], s[i..];
    calc {
      Drawn(Inserted(s, i, NewLayer), resources);
      { assert Inserted(s, i, NewLayer) == a + [NewLayer] + b; }
      Drawn(a + [NewLayer] + b, resources);
      { assert LayerTexture(NewLayer, resources) == Base.None;
        UntexturedLayerDrawsNothing(a, NewLayer, b, resources); }
      Drawn(a + b, resources);
      { assert a + b == s; }
      Drawn(s, resources);
    }
  }

  class StylishIconOverride {
    var mode: Mode
    var blend: Utils.BlendMode
    var icon: StylishIcon?
    var normalTints: seq<Base.Color>
    var smallTints: seq<Base.Color>

    /** A default override: no icon, no tints (a serialized null array reads back empty). */
    constructor()
      ensures mode == None && blend == Utils.BlendMode.None && icon == null
      ensures normalTints == [] && smallTints == []
    {
      mode, blend, icon, normalTints, smallTints := None, Utils.BlendMode.None, null, [], [];
    }

    /** `StylishIconOverride.Draw(small, selected)` with the tint array re-selected
        by the layers in use after a reset. Without an icon it does nothing. */
    method Draw(small: bool, selected: bool, resources: string -> Base.Option<Base.Texture>) returns (calls: seq<DrawCall>)
      modifies this
      ensures mode == old(mode) && blend == old(blend) && icon == old(icon)
      ensures icon == null ==> calls == [] && normalTints == old(normalTints) && smallTints == old(smallTints)
      ensures icon != null ==>
        DrawCorrected(icon.Layers(), old(normalTints), old(smallTints), small, blend, selected, resources)
          == Drew(calls, normalTints, smallTints)
    {
      if icon == null {
        return [];
      }
      calls, normalTints, smallTints := DrawLayers(icon.Layers(), normalTints, smallTints, small, blend, selected, resources);
    }
  }

  /** One iteration of the corrected loop on a textured layer, spelled out: reset
      the arrays when the index has run past the one in use, then draw with the
      tint at the index, which is then in range. */
  lemma DrawStep(icon: IconLayers, small: bool, layer: TextureLayer, blend: Utils.BlendMode, selected: bool,
                 resources: string -> Base.Option<Base.Texture>, st: DrawState, n: nat)
    requires n == |LayersFor(icon, small)| && st.index < n
    ensures LayerTexture(layer, resources).None? ==> NextCorrected(icon, small, layer, blend, selected, resources, st) == st
    ensures LayerTexture(layer, resources).Some? ==>
              var st1 := if st.index >= |st.tints| then
                           st.(normalTints := Base.Whites(|icon.normal|), smallTints := Base.Whites(|icon.small|),
                               tints := if UsesSmall(icon, small) then Base.Whites(|icon.small|) else Base.Whites(|icon.normal|))
                         else st;
              st1.index < |st1.tints|
              && NextCorrected(icon, small, layer, blend, selected, resources, st)
                 == st1.(index := st1.index + 1,
                         calls := st1.calls + [DrawCall(LayerTexture(layer, resources).value, Tinted(layer.tints, st1.tints[st1.index], blend, selected))])
  {
  }

  /** The body of `StylishIconOverride.Draw` on the icon's layer lists and the
      override's tint arrays: it selects the layers and the tint array, falling
      back to the normal ones, and draws every textured layer with the next
      tint, resetting both arrays to white (sized to the icon) when they run
      out. */
  method DrawLayers(icon: IconLayers, normalTints: seq<Base.Color>, smallTints: seq<Base.Color>, small: bool,
                    blend: Utils.BlendMode, selected: bool, resources: string -> Base.Option<Base.Texture>)
    returns (calls: seq<DrawCall>, nTints: seq<Base.Color>, sTints: seq<Base.Color>)
    ensures DrawCorrected(icon, normalTints, smallTints, small, blend, selected, resources) == Drew(calls, nTints, sTints)
  {
    var layers := if small then icon.small else icon.normal;
    var tints := if small then smallTints else normalTints;
    if |layers| == 0 {
      tints := normalTints;
      layers := icon.normal;
    }
    var useSmall := small && |icon.small| > 0;
    assert layers == LayersFor(icon, small);
    nTints, sTints := normalTints, smallTints;
    var index := 0;
    calls := [];
    ghost var final := CorrectedLoop(icon, small, layers, blend, selected, resources, DrawState(0, tints, nTints, sTints, []));
    var i := 0;
    while i < |layers|
      invariant 0 <= index <= i <= |layers|
      invariant CorrectedLoop(icon, small, layers[i..], blend, selected, resources, DrawState(index, tints, nTints, sTints, calls)) == final
    {
      var layer := layers[i];
      ghost var st := DrawState(index, tints, nTints, sTints, calls);
      assert layers[i..][1..] == layers[i + 1..];
      var tex := LayerTexture(layer, resources);
      DrawStep(icon, small, layer, blend, selected, resources, st, |layers|);
      if tex.Some? {
        if index >= |tints| {
          nTints := Base.Whites(|icon.normal|);
          sTints := Base.Whites(|icon.small|);
          tints := if useSmall then sTints else nTints;
        }
        var c := Tinted(layer.tints, tints[index], blend, selected);
        calls := calls + [DrawCall(tex.value, c)];
        index := index + 1;
      }
      assert DrawState(index, tints, nTints, sTints, calls)
          == NextCorrected(icon, small, layer, blend, selected, resources, st);
      i := i + 1;
    }
    CorrectedLoopOutcome(icon, small, normalTints, smallTints, blend, selected, resources);
  }

  /** `GetConfigHeight(targets)`: the full 68-pixel block when the targets agree on
      a mode other than None (when `DrawConfig` shows the icon block), one line
      otherwise. */
  function ConfigHeight(modes: seq<Mode>, mode: Mode, lineHeight: real): (h: real)
    ensures (forall i :: 0 <= i < |modes| ==> modes[i] == modes[0]) && mode != None ==> h == 68.0
    ensures (exists i :: 0 <= i < |modes| && modes[i] != modes[0]) || mode == None ==> h == lineHeight
  {
    var mix := exists i :: 0 <= i < |modes| && modes[i] != modes[0];
    if !mix && mode != None then 68.0 else lineHeight
  }

  /** Picking an icon in the selector: every target takes the icon and all-white
      tint arrays sized to its layer lists. */
  method SelectIcon(targets: seq<StylishIconOverride>, selected: StylishIcon)
    modifies set t | t in targets
    ensures forall t :: t in targets ==>
      t.icon == selected && t.normalTints == Base.Whites(|selected.normal|) && t.smallTints == Base.Whites(|selected.small|)
      && t.mode == old(t.mode) && t.blend == old(t.blend)
  {
    var i := 0;
    while i < |targets|
      invariant 0 <= i <= |targets|
      invariant forall k :: 0 <= k < i ==>
        targets[k].icon == selected
        && targets[k].normalTints == Base.Whites(|selected.normal|) && targets[k].smallTints == Base.Whites(|selected.small|)
      invariant forall t :: t in targets ==> t.mode == old(t.mode) && t.blend == old(t.blend)
    {
      var t := targets[i];
      t.icon := selected;
      t.normalTints := Base.Whites(|selected.normal|);
      t.smallTints := Base.Whites(|selected.small|);
      i := i + 1;
    }
  }

  /** After a pick the tint arrays fit the icon, so a draw keeps them and blends
      every drawn layer with white; the code as written does not throw either. */
  lemma FreshTintsAreKept(icon: IconLayers, small: bool, blend: Utils.BlendMode, selected: bool, resources: string -> Base.Option<Base.Texture>)
    ensures var o := DrawCorrected(icon, Base.Whites(|icon.normal|), Base.Whites(|icon.small|), small, blend, selected, resources);
            o.normalTints == Base.Whites(|icon.normal|) && o.smallTints == Base.Whites(|icon.small|)
            && forall j :: 0 <= j < |o.calls| ==> o.calls[j].color == Tinted(Drawn(LayersFor(icon, small), resources)[j].0.tints, Base.White, blend, selected)
  {
  }

  /** `StylishIconSelector.GetWindowSize` for `count` icons and a screen that fits
      `maxRow` rows: icons fill columns of `rows` from left to right. */
  method GetWindowSize(count: nat, maxRow: nat) returns (width: int, height: int, rows: nat, columns: nat)
    requires maxRow >= 1
    ensures rows == (if count <= maxRow then count else maxRow)
    ensures count <= maxRow ==> columns == 1
    // every icon has a place, and no column is left empty: columns is the
    // ceiling of count / maxRow
    ensures count <= columns * rows
    ensures count > 0 ==> (columns - 1) * rows < count
    ensures width == 102 * columns && height == 70 * rows
  {
    var left := count;
    rows := count;
    height := count * 70;
    columns := 1;
    while left > maxRow
      invariant columns >= 1 && left <= count
      invariant left + (columns - 1) * maxRow == count
      invariant columns > 1 ==> rows == maxRow && left > 0 && count > maxRow
      invariant columns == 1 ==> rows == count
      invariant height == 70 * rows
      decreases left
    {
      rows := maxRow;
      height := maxRow * 70;
      columns := columns + 1;
      left := left - maxRow;
    }
    assert columns * maxRow == (columns - 1) * maxRow + maxRow;
    width := columns * 102;
  }
}
