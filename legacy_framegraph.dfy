/**
 * The older `QgsShadowRenderingFrameGraph` (`src/3d/`): the same name-to-view registry as the
 * `framegraph/` version, the ambient-occlusion and eye-dome-lighting settings it stores and
 * forwards, the two debug preview quads placed in a window corner, and a `setSize` that resizes
 * only the forward view.
 */
module LegacyFrameGraph {
  import opened Wrappers
  import opened RenderViews

  const ForwardRenderView := "forward"
  const ShadowRenderView := "shadow"

  /** `Qt::Corner`. */
  datatype Corner = TopLeftCorner | TopRightCorner | BottomLeftCorner | BottomRightCorner

  /** A point or a size in normalised texture coordinates (`QPointF`, `QSizeF`). */
  datatype Pair = Pair(x: real, y: real)

  /**
   * The centre of a debug quad of edge `size` (in window units) placed in `corner`; (0, 0) is the
   * top-left corner of the window.
   */
  function CornerCenter(corner: Corner, size: real): (c: Pair)
    ensures corner == TopLeftCorner || corner == BottomLeftCorner ==> c.x - size / 2.0 == 0.0
    ensures corner == TopRightCorner || corner == BottomRightCorner ==> c.x + size / 2.0 == 1.0
    ensures corner == TopLeftCorner || corner == TopRightCorner ==> c.y - size / 2.0 == 0.0
    ensures corner == BottomLeftCorner || corner == BottomRightCorner ==> c.y + size / 2.0 == 1.0
  {
    match corner
    case TopRightCorner => Pair(1.0 - size / 2.0, 0.0 + size / 2.0)
    case TopLeftCorner => Pair(0.0 + size / 2.0, 0.0 + size / 2.0)
    case BottomRightCorner => Pair(1.0 - size / 2.0, 1.0 - size / 2.0)
    case BottomLeftCorner => Pair(0.0 + size / 2.0, 1.0 - size / 2.0)
  }

  /** The half-extent passed with the centre: `0.5 * QSizeF(size, size)`. */
  function HalfSize(size: real): (h: Pair)
    ensures h.x + h.x == size && h.y == h.x
  {
    Pair(0.5 * size, 0.5 * size)
  }

  /** A quad of edge at most the window lies inside the window, whatever the corner. */
  lemma CornerQuadInsideWindow(corner: Corner, size: real)
    requires 0.0 <= size <= 1.0
    ensures var c := CornerCenter(corner, size); var h := HalfSize(size);
      0.0 <= c.x - h.x && c.x + h.x <= 1.0 && 0.0 <= c.y - h.y && c.y + h.y <= 1.0
  {
  }

  /** Different corners give different centres as soon as the quad is narrower than the window. */
  lemma CornersDistinct(a: Corner, b: Corner, size: real)
    requires size < 1.0 && a != b
    ensures CornerCenter(a, size) != CornerCenter(b, size)
  {
  }

  /** `QgsPreviewQuad`, reduced to its enabled flag and its viewport. */
  class PreviewQuad {
    var enabled: bool
    var center: Pair
    var halfSize: Pair

    constructor (center: Pair, halfSize: Pair)
      ensures enabled && this.center == center && this.halfSize == halfSize
    {
      enabled := true;
      this.center := center;
      this.halfSize := halfSize;
    }

    method SetEnabled(enabled: bool)
      modifies this`enabled
      ensures this.enabled == enabled
    {
      this.enabled := enabled;
    }

    method SetViewPort(center: Pair, halfSize: Pair)
      modifies this`center, this`halfSize
      ensures this.center == center && this.halfSize == halfSize
    {
      this.center := center;
      this.halfSize := halfSize;
    }
  }

  /**
   * The settings forwarded to `mAmbientOcclusionRenderEntity`. The class `QgsAmbientOcclusionRenderEntity`
   * is not part of this model: its initial state is the model's assumption, namely the frame
   * graph's own defaults, so that the two agree from construction on (`SettingsForwarded`).
   */
  class AmbientOcclusionRenderEntity {
    var enabled: bool
    var intensity: real
    var radius: real
    var threshold: real

    constructor ()
      ensures !enabled && intensity == 0.5 && radius == 25.0 && threshold == 0.5
    {
      enabled := false;
      intensity := 0.5;
      radius := 25.0;
      threshold := 0.5;
    }
  }

  /**
   * The settings forwarded to `mPostprocessingEntity`. The class `QgsPostprocessingEntity` is not
   * part of this model: its initial state is the model's assumption, namely the frame graph's own
   * defaults, so that the two agree from construction on (`SettingsForwarded`).
   */
  class PostprocessingEntity {
    var ambientOcclusionEnabled: bool
    var eyeDomeLightingEnabled: bool
    var eyeDomeLightingStrength: real
    var eyeDomeLightingDistance: int

    constructor ()
      ensures !ambientOcclusionEnabled && !eyeDomeLightingEnabled
      ensures eyeDomeLightingStrength == 1000.0 && eyeDomeLightingDistance == 1
    {
      ambientOcclusionEnabled := false;
      eyeDomeLightingEnabled := false;
      eyeDomeLightingStrength := 1000.0;
      eyeDomeLightingDistance := 1;
    }
  }

  /**
   * The passes the constructor builds, in the source's order, of which two register a view: the
   * forward view renders depth and colour into textures of the frame size and the shadow view
   * depth into a shadow map of the default resolution. Both names are new, so each
   * `registerRenderView` binds its view and attaches it; the `renderView` lookups the constructor
   * makes for the debug quads find them bound and change nothing (`TouchKeepsBindings`).
   */
  method RegisteredPasses(width: int, height: int) returns (m: ViewMap)
    ensures m.Keys == {ForwardRenderView, ShadowRenderView} && NoNullEntries(m)
    ensures forall n | n in m :: m[n].value.attached && m[n].value.subTreeEnabled
    ensures var v := m[ForwardRenderView].value;
      v.kind == ForwardView && AttachmentPoints(v.targetOutputs) == [Depth, Color0]
      && forall o | o in v.targetOutputs :: o.texture.width == width && o.texture.height == height
    ensures var v := m[ShadowRenderView].value;
      v.kind == ShadowView && AttachmentPoints(v.targetOutputs) == [Depth]
      && forall o | o in v.targetOutputs ::
           o.texture.width == DefaultShadowMapResolution && o.texture.height == DefaultShadowMapResolution
  {
    var frv := ForwardRenderPass(width, height);
    var srv := ShadowRenderPass();
    frv.attached, srv.attached := true, true;
    m := map[ForwardRenderView := Some(frv), ShadowRenderView := Some(srv)];
    assert ForwardRenderView[0] != ShadowRenderView[0];
  }

  class QgsShadowRenderingFrameGraph {
    var renderViewMap: ViewMap
    var size: (int, int)
    var externalRenderTargetSize: (int, int)
    var renderCaptureEnabled: bool
    var renderCaptureSelectorEnabled: bool

    var ambientOcclusionEnabled: bool
    var ambientOcclusionIntensity: real
    var ambientOcclusionRadius: real
    var ambientOcclusionThreshold: real
    var eyeDomeLightingEnabled: bool
    var eyeDomeLightingStrength: real
    var eyeDomeLightingDistance: int

    const ambientOcclusionRenderEntity: AmbientOcclusionRenderEntity
    const postprocessingEntity: PostprocessingEntity
    const debugShadowMapPreviewQuad: PreviewQuad
    const debugDepthMapPreviewQuad: PreviewQuad

    const renderCaptureColorTexture: Texture2D
    const renderCaptureDepthTexture: Texture2D
    const depthRenderCaptureDepthTexture: Texture2D
    const depthRenderCaptureColorTexture: Texture2D
    const ambientOcclusionRenderTexture: Texture2D
    const ambientOcclusionBlurTexture: Texture2D

    /**
     * The size it is given (also the surface's external render target size), the defaults of
     * the stored settings, the forward and shadow views `RegisteredPasses` builds and registers,
     * and the two debug quads, created at (0.9, 0.9) with half-size 0.1 and disabled.
     */
    constructor (width: int, height: int)
      ensures renderViewMap.Keys == {ForwardRenderView, ShadowRenderView} && NoNullEntries(renderViewMap)
      ensures forall n | n in renderViewMap :: renderViewMap[n].value.attached && renderViewMap[n].value.subTreeEnabled
      ensures var v := renderViewMap[ForwardRenderView].value;
        v.kind == ForwardView && AttachmentPoints(v.targetOutputs) == [Depth, Color0]
        && forall o | o in v.targetOutputs :: o.texture.width == width && o.texture.height == height
      ensures var v := renderViewMap[ShadowRenderView].value;
        v.kind == ShadowView && AttachmentPoints(v.targetOutputs) == [Depth]
        && forall o | o in v.targetOutputs ::
             o.texture.width == DefaultShadowMapResolution && o.texture.height == DefaultShadowMapResolution
      ensures size == (width, height) && externalRenderTargetSize == (width, height)
      ensures renderCaptureEnabled && !ambientOcclusionEnabled && !eyeDomeLightingEnabled
      ensures eyeDomeLightingStrength == 1000.0 && eyeDomeLightingDistance == 1
      ensures ambientOcclusionIntensity == 0.5 && ambientOcclusionRadius == 25.0 && ambientOcclusionThreshold == 0.5
      ensures !debugShadowMapPreviewQuad.enabled && !debugDepthMapPreviewQuad.enabled
      ensures SettingsForwarded()
    {
      size := (width, height);
      externalRenderTargetSize := (width, height);
      renderCaptureEnabled := true;
      renderCaptureSelectorEnabled := true;
      ambientOcclusionEnabled := false;
      ambientOcclusionIntensity := 0.5;
      ambientOcclusionRadius := 25.0;
      ambientOcclusionThreshold := 0.5;
      eyeDomeLightingEnabled := false;
      eyeDomeLightingStrength := 1000.0;
      eyeDomeLightingDistance := 1;
      ambientOcclusionRenderEntity := new AmbientOcclusionRenderEntity();
      postprocessingEntity := new PostprocessingEntity();
      var depthQuad := new PreviewQuad(Pair(0.9, 0.9), Pair(0.1, 0.1));
      var shadowQuad := new PreviewQuad(Pair(0.9, 0.9), Pair(0.1, 0.1));
      depthQuad.SetEnabled(false);
      shadowQuad.SetEnabled(false);
      debugDepthMapPreviewQuad := depthQuad;
      debugShadowMapPreviewQuad := shadowQuad;
      renderCaptureColorTexture := new Texture2D(width, height);
      renderCaptureDepthTexture := new Texture2D(width, height);
      depthRenderCaptureDepthTexture := new Texture2D(width, height);
      depthRenderCaptureColorTexture := new Texture2D(width, height);
      ambientOcclusionRenderTexture := new Texture2D(width, height);
      ambientOcclusionBlurTexture := new Texture2D(width, height);
      var registry := RegisteredPasses(width, height);
      renderViewMap := registry;
    }

    /** Every stored ambient-occlusion and eye-dome-lighting setting equals the one its entity holds. */
    predicate SettingsForwarded()
      reads this, ambientOcclusionRenderEntity, postprocessingEntity
    {
      && ambientOcclusionRenderEntity.enabled == ambientOcclusionEnabled
      && ambientOcclusionRenderEntity.intensity == ambientOcclusionIntensity
      && ambientOcclusionRenderEntity.radius == ambientOcclusionRadius
      && ambientOcclusionRenderEntity.threshold == ambientOcclusionThreshold
      && postprocessingEntity.ambientOcclusionEnabled == ambientOcclusionEnabled
      && postprocessingEntity.eyeDomeLightingEnabled == eyeDomeLightingEnabled
      && postprocessingEntity.eyeDomeLightingStrength == eyeDomeLightingStrength
      && postprocessingEntity.eyeDomeLightingDistance == eyeDomeLightingDistance
    }

    function BoundView(name: string): set<QgsAbstractRenderView>
      reads this
    {
      if Bound(renderViewMap, name) then {renderViewMap[name].value} else {}
    }

    /** `unregisterRenderView`: detaches and removes a bound view; an unknown name gets a null entry. */
    method UnregisterRenderView(name: string)
      modifies this`renderViewMap, BoundView(name)`attached
      ensures renderViewMap == Unregistered(old(renderViewMap), name)
      ensures old(Bound(renderViewMap, name)) ==> !old(renderViewMap[name].value).attached
    {
      renderViewMap := Touched(renderViewMap, name);
      var renderView := renderViewMap[name];
      if renderView.Some? {
        renderView.value.attached := false;
        renderViewMap := renderViewMap - {name};
      }
    }

    /** `registerRenderView`: binds an unbound name and attaches the view; a bound name is kept. */
    method RegisterRenderView(renderView: QgsAbstractRenderView, name: string) returns (out: bool)
      modifies this`renderViewMap, renderView`attached
      ensures out <==> !old(Bound(renderViewMap, name))
      ensures renderViewMap == Registered(old(renderViewMap), name, renderView)
      ensures out ==> renderView.attached
      ensures !out ==> renderView.attached == old(renderView.attached)
    {
      renderViewMap := Touched(renderViewMap, name);
      if renderViewMap[name] == None {
        renderViewMap := renderViewMap[name := Some(renderView)];
        renderView.attached := true;
        out := true;
      } else {
        out := false;
      }
    }

    /** `setEnableRenderView`: only the named view changes, and only if the name is bound. */
    method SetEnableRenderView(name: string, enable: bool)
      modifies this`renderViewMap, BoundView(name)`subTreeEnabled
      ensures renderViewMap == Touched(old(renderViewMap), name)
      ensures old(Bound(renderViewMap, name)) ==> old(renderViewMap[name].value).subTreeEnabled == enable
    {
      renderViewMap := Touched(renderViewMap, name);
      if renderViewMap[name].Some? {
        renderViewMap[name].value.EnableSubTree(enable);
      }
    }

    /** `renderView(name)`: the bound view or null. */
    method RenderView(name: string) returns (view: Option<QgsAbstractRenderView>)
      modifies this`renderViewMap
      ensures renderViewMap == Touched(old(renderViewMap), name)
      ensures view.Some? <==> old(Bound(renderViewMap, name))
      ensures view.Some? ==> view == old(renderViewMap[name])
    {
      renderViewMap := Touched(renderViewMap, name);
      view := renderViewMap[name];
    }

    /** `isRenderViewEnabled(name)`: false for an unbound name, else the view's enabled state. */
    method IsRenderViewEnabled(name: string) returns (enabled: bool)
      modifies this`renderViewMap
      ensures renderViewMap == Touched(old(renderViewMap), name)
      ensures enabled <==> old(Bound(renderViewMap, name)) && old(renderViewMap[name].value.subTreeEnabled)
    {
      renderViewMap := Touched(renderViewMap, name);
      enabled := renderViewMap[name] != None && renderViewMap[name].value.subTreeEnabled;
    }

    /** `setAmbientOcclusionEnabled`: stored, and forwarded to both entities. */
    method SetAmbientOcclusionEnabled(enabled: bool)
      modifies this`ambientOcclusionEnabled, ambientOcclusionRenderEntity`enabled
      modifies postprocessingEntity`ambientOcclusionEnabled
      ensures ambientOcclusionEnabled == enabled && ambientOcclusionRenderEntity.enabled == enabled
      ensures postprocessingEntity.ambientOcclusionEnabled == enabled
      ensures old(SettingsForwarded()) ==> SettingsForwarded()
    {
      ambientOcclusionEnabled := enabled;
      ambientOcclusionRenderEntity.enabled := enabled;
      postprocessingEntity.ambientOcclusionEnabled := enabled;
    }

    /** `setAmbientOcclusionIntensity`. */
    method SetAmbientOcclusionIntensity(intensity: real)
      modifies this`ambientOcclusionIntensity, ambientOcclusionRenderEntity`intensity
      ensures ambientOcclusionIntensity == intensity && ambientOcclusionRenderEntity.intensity == intensity
      ensures old(SettingsForwarded()) ==> SettingsForwarded()
    {
      ambientOcclusionIntensity := intensity;
      ambientOcclusionRenderEntity.intensity := intensity;
    }

    /** `setAmbientOcclusionRadius`. */
    method SetAmbientOcclusionRadius(radius: real)
      modifies this`ambientOcclusionRadius, ambientOcclusionRenderEntity`radius
      ensures ambientOcclusionRadius == radius && ambientOcclusionRenderEntity.radius == radius
      ensures old(SettingsForwarded()) ==> SettingsForwarded()
    {
      ambientOcclusionRadius := radius;
      ambientOcclusionRenderEntity.radius := radius;
    }

    /** `setAmbientOcclusionThreshold`. */
    method SetAmbientOcclusionThreshold(threshold: real)
      modifies this`ambientOcclusionThreshold, ambientOcclusionRenderEntity`threshold
      ensures ambientOcclusionThreshold == threshold && ambientOcclusionRenderEntity.threshold == threshold
      ensures old(SettingsForwarded()) ==> SettingsForwarded()
    {
      ambientOcclusionThreshold := threshold;
      ambientOcclusionRenderEntity.threshold := threshold;
    }

    /** `setupEyeDomeLighting`: the three values are stored and forwarded. */
    method SetupEyeDomeLighting(enabled: bool, strength: real, distance: int)
      modifies this`eyeDomeLightingEnabled, this`eyeDomeLightingStrength, this`eyeDomeLightingDistance
      modifies postprocessingEntity`eyeDomeLightingEnabled, postprocessingEntity`eyeDomeLightingStrength
      modifies postprocessingEntity`eyeDomeLightingDistance
      ensures (eyeDomeLightingEnabled, eyeDomeLightingStrength, eyeDomeLightingDistance) == (enabled, strength, distance)
      ensures postprocessingEntity.eyeDomeLightingEnabled == enabled
      ensures postprocessingEntity.eyeDomeLightingStrength == strength
      ensures postprocessingEntity.eyeDomeLightingDistance == distance
      ensures old(SettingsForwarded()) ==> SettingsForwarded()
    {
      eyeDomeLightingEnabled := enabled;
      eyeDomeLightingStrength := strength;
      eyeDomeLightingDistance := distance;
      postprocessingEntity.eyeDomeLightingEnabled := enabled;
      postprocessingEntity.eyeDomeLightingStrength := strength;
      postprocessingEntity.eyeDomeLightingDistance := distance;
    }

    /** `setupShadowMapDebugging`: when disabled only the flag changes. */
    method SetupShadowMapDebugging(enabled: bool, corner: Corner, size: real)
      modifies debugShadowMapPreviewQuad
      ensures debugShadowMapPreviewQuad.enabled == enabled
      ensures enabled ==> (debugShadowMapPreviewQuad.center == CornerCenter(corner, size)
                           && debugShadowMapPreviewQuad.halfSize == HalfSize(size))
      ensures !enabled ==> (debugShadowMapPreviewQuad.center == old(debugShadowMapPreviewQuad.center)
                            && debugShadowMapPreviewQuad.halfSize == old(debugShadowMapPreviewQuad.halfSize))
    {
      debugShadowMapPreviewQuad.SetEnabled(enabled);
      if enabled {
        PlaceInCorner(debugShadowMapPreviewQuad, corner, size);
      }
    }

    /** `setupDepthMapDebugging`: when disabled only the flag changes. */
    method SetupDepthMapDebugging(enabled: bool, corner: Corner, size: real)
      modifies debugDepthMapPreviewQuad
      ensures debugDepthMapPreviewQuad.enabled == enabled
      ensures enabled ==> (debugDepthMapPreviewQuad.center == CornerCenter(corner, size)
                           && debugDepthMapPreviewQuad.halfSize == HalfSize(size))
      ensures !enabled ==> (debugDepthMapPreviewQuad.center == old(debugDepthMapPreviewQuad.center)
                            && debugDepthMapPreviewQuad.halfSize == old(debugDepthMapPreviewQuad.halfSize))
    {
      debugDepthMapPreviewQuad.SetEnabled(enabled);
      if enabled {
        PlaceInCorner(debugDepthMapPreviewQuad, corner, size);
      }
    }

    /** The `switch ( corner )` both debugging setups share. */
    static method PlaceInCorner(quad: PreviewQuad, corner: Corner, size: real)
      modifies quad`center, quad`halfSize
      ensures quad.center == CornerCenter(corner, size) && quad.halfSize == HalfSize(size)
    {
      match corner {
        case TopRightCorner =>
          quad.SetViewPort(Pair(1.0 - size / 2.0, 0.0 + size / 2.0), Pair(0.5 * size, 0.5 * size));
        case TopLeftCorner =>
          quad.SetViewPort(Pair(0.0 + size / 2.0, 0.0 + size / 2.0), Pair(0.5 * size, 0.5 * size));
        case BottomRightCorner =>
          quad.SetViewPort(Pair(1.0 - size / 2.0, 1.0 - size / 2.0), Pair(0.5 * size, 0.5 * size));
        case BottomLeftCorner =>
          quad.SetViewPort(Pair(0.0 + size / 2.0, 1.0 - size / 2.0), Pair(0.5 * size, 0.5 * size));
      }
    }

    /**
     * `setSize`: stores the size and resizes the forward view (when "forward" is bound to a forward
     * view) and the six frame-graph textures. Looking the view up leaves a null entry if absent.
     */
    method SetSize(width: int, height: int)
      modifies this`size, this`externalRenderTargetSize, this`renderViewMap
      modifies renderCaptureColorTexture, renderCaptureDepthTexture
      modifies depthRenderCaptureDepthTexture, depthRenderCaptureColorTexture
      modifies ambientOcclusionRenderTexture, ambientOcclusionBlurTexture
      modifies if Bound(renderViewMap, ForwardRenderView) && renderViewMap[ForwardRenderView].value.kind == ForwardView
        then renderViewMap[ForwardRenderView].value.Textures() else {}
      ensures size == (width, height) && externalRenderTargetSize == (width, height)
      ensures renderViewMap == Touched(old(renderViewMap), ForwardRenderView)
      ensures Bound(renderViewMap, ForwardRenderView) && renderViewMap[ForwardRenderView].value.kind == ForwardView ==>
        forall t | t in renderViewMap[ForwardRenderView].value.Textures() :: t.width == width && t.height == height
      ensures renderCaptureColorTexture.width == width && renderCaptureColorTexture.height == height
      ensures renderCaptureDepthTexture.width == width && renderCaptureDepthTexture.height == height
      ensures depthRenderCaptureDepthTexture.width == width && depthRenderCaptureDepthTexture.height == height
      ensures depthRenderCaptureColorTexture.width == width && depthRenderCaptureColorTexture.height == height
      ensures ambientOcclusionRenderTexture.width == width && ambientOcclusionRenderTexture.height == height
      ensures ambientOcclusionBlurTexture.width == width && ambientOcclusionBlurTexture.height == height
    {
      size := (width, height);
      var frv := RenderView(ForwardRenderView);
      if frv.Some? && frv.value.kind == ForwardView {
        frv.value.UpdateTargetOutputSize(width, height);
      }
      renderCaptureColorTexture.SetSize(width, height);
      renderCaptureDepthTexture.SetSize(width, height);
      depthRenderCaptureDepthTexture.SetSize(width, height);
      depthRenderCaptureColorTexture.SetSize(width, height);
      externalRenderTargetSize := (width, height);
      ambientOcclusionRenderTexture.SetSize(width, height);
      ambientOcclusionBlurTexture.SetSize(width, height);
    }

    /** `setRenderCaptureEnabled`: a call with the current value changes nothing. */
    method SetRenderCaptureEnabled(enabled: bool)
      modifies this`renderCaptureEnabled, this`renderCaptureSelectorEnabled
      ensures renderCaptureEnabled == enabled
      ensures old(renderCaptureEnabled) == enabled ==> renderCaptureSelectorEnabled == old(renderCaptureSelectorEnabled)
      ensures old(renderCaptureEnabled) != enabled ==> renderCaptureSelectorEnabled == enabled
    {
      if enabled == renderCaptureEnabled {
        return;
      }
      renderCaptureEnabled := enabled;
      renderCaptureSelectorEnabled := renderCaptureEnabled;
    }
  }
}
