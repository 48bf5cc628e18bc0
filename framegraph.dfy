/**
 * The render-view registry of `QgsShadowRenderingFrameGraph` (the `framegraph/` version): views are
 * registered under a name, looked up, enabled, unregistered, and resized together by `setSize`.
 * Every access goes through the non-const `QMap::operator[]`, so asking about an unknown name
 * leaves a null entry for it (see `RenderViews.Touched`).
 */
module FrameGraph {
  import opened Wrappers
  import opened RenderViews

  /** The names the constructor registers its views under (`FORWARD_RENDERVIEW` and so on). */
  const ForwardRenderView := "forward"
  const ShadowRenderView := "shadow"
  const DepthRenderView := "depth"
  const DebugRenderView := "debug"

  /** `constructDepthRenderPass` up to registration: colour and depth textures of the frame size. */
  method DepthRenderPass(width: int, height: int) returns (drv: QgsAbstractRenderView)
    ensures fresh(drv) && drv.kind == DepthView && drv.subTreeEnabled && !drv.attached
    ensures AttachmentPoints(drv.targetOutputs) == [Color0, Depth]
    ensures forall o | o in drv.targetOutputs :: fresh(o.texture) && o.texture.width == width && o.texture.height == height
  {
    var colorTexture := new Texture2D(width, height);
    var depthTexture := new Texture2D(width, height);
    drv := new QgsAbstractRenderView(DepthView, 1);
    drv.SetTargetOutputs([RenderTargetOutput(Color0, colorTexture), RenderTargetOutput(Depth, depthTexture)]);
  }

  /**
   * The passes the constructor builds, in the source's order, each registering its view: the
   * forward view renders depth and colour into textures of the frame size, the depth view colour
   * and depth, the shadow view depth into a shadow map of the default resolution, and the
   * debug-texture view has no outputs. Every name is new, so each `registerRenderView` binds its
   * view and attaches it; the `renderView` lookups the passes make on names already bound change
   * nothing (`TouchKeepsBindings`) and are left out.
   */
  method RegisteredPasses(width: int, height: int) returns (m: ViewMap)
    ensures m.Keys == {ForwardRenderView, DepthRenderView, ShadowRenderView, DebugRenderView} && NoNullEntries(m)
    ensures forall n | n in m :: m[n].value.attached && m[n].value.subTreeEnabled
    ensures var v := m[ForwardRenderView].value;
      v.kind == ForwardView && AttachmentPoints(v.targetOutputs) == [Depth, Color0]
      && forall o | o in v.targetOutputs :: o.texture.width == width && o.texture.height == height
    ensures var v := m[DepthRenderView].value;
      v.kind == DepthView && AttachmentPoints(v.targetOutputs) == [Color0, Depth]
      && forall o | o in v.targetOutputs :: o.texture.width == width && o.texture.height == height
    ensures var v := m[ShadowRenderView].value;
      v.kind == ShadowView && AttachmentPoints(v.targetOutputs) == [Depth]
      && forall o | o in v.targetOutputs ::
           o.texture.width == DefaultShadowMapResolution && o.texture.height == DefaultShadowMapResolution
    ensures m[DebugRenderView].value.kind == DebugTextureView && m[DebugRenderView].value.targetOutputs == []
  {
    var frv := ForwardRenderPass(width, height);
    var drv := DepthRenderPass(width, height);
    var srv := ShadowRenderPass();
    var dtv := new QgsAbstractRenderView(DebugTextureView, 3);
    frv.attached, drv.attached, srv.attached, dtv.attached := true, true, true, true;
    m := map[ForwardRenderView := Some(frv), DepthRenderView := Some(drv),
             ShadowRenderView := Some(srv), DebugRenderView := Some(dtv)];
    assert DepthRenderView[2] != DebugRenderView[2];
  }

  class QgsShadowRenderingFrameGraph {
    var renderViewMap: ViewMap
    var size: (int, int)
    /** The render surface selector's external render target size. */
    var externalRenderTargetSize: (int, int)
    var renderCaptureEnabled: bool
    /** The enabled state of `mRenderCaptureTargetSelector`. */
    var renderCaptureSelectorEnabled: bool
    const renderCaptureColorTexture: Texture2D
    const renderCaptureDepthTexture: Texture2D
    const ambientOcclusionRenderTexture: Texture2D
    const ambientOcclusionBlurTexture: Texture2D

    /**
     * The constructor: the size it is given (also the surface's external render target size),
     * render capture on, and the four views `RegisteredPasses` builds and registers.
     */
    constructor (width: int, height: int)
      ensures size == (width, height) && externalRenderTargetSize == (width, height)
      ensures renderCaptureEnabled && renderCaptureSelectorEnabled
      ensures renderViewMap.Keys == {ForwardRenderView, DepthRenderView, ShadowRenderView, DebugRenderView} && NoNullEntries(renderViewMap)
      ensures forall n | n in renderViewMap :: renderViewMap[n].value.attached && renderViewMap[n].value.subTreeEnabled
      ensures var v := renderViewMap[ForwardRenderView].value;
        v.kind == ForwardView && AttachmentPoints(v.targetOutputs) == [Depth, Color0]
        && forall o | o in v.targetOutputs :: o.texture.width == width && o.texture.height == height
      ensures var v := renderViewMap[DepthRenderView].value;
        v.kind == DepthView && AttachmentPoints(v.targetOutputs) == [Color0, Depth]
        && forall o | o in v.targetOutputs :: o.texture.width == width && o.texture.height == height
      ensures var v := renderViewMap[ShadowRenderView].value;
        v.kind == ShadowView && AttachmentPoints(v.targetOutputs) == [Depth]
        && forall o | o in v.targetOutputs ::
             o.texture.width == DefaultShadowMapResolution && o.texture.height == DefaultShadowMapResolution
      ensures renderViewMap[DebugRenderView].value.kind == DebugTextureView && renderViewMap[DebugRenderView].value.targetOutputs == []
    {
      size := (width, height);
      externalRenderTargetSize := (width, height);
      renderCaptureEnabled := true;
      renderCaptureSelectorEnabled := true;
      renderCaptureColorTexture := new Texture2D(width, height);
      renderCaptureDepthTexture := new Texture2D(width, height);
      ambientOcclusionRenderTexture := new Texture2D(width, height);
      ambientOcclusionBlurTexture := new Texture2D(width, height);
      new;
      renderViewMap := RegisteredPasses(width, height);
    }

    /** The view bound to `name`, as a set of zero or one objects (a frame). */
    function BoundView(name: string): set<QgsAbstractRenderView>
      reads this
    {
      if Bound(renderViewMap, name) then {renderViewMap[name].value} else {}
    }

    /** The output textures of every registered view. */
    ghost function ViewTextures(): set<Texture2D>
      reads this, Views(renderViewMap)
    {
      set v, t | v in Views(renderViewMap) && t in v.Textures() :: t
    }

    /** `unregisterRenderView`: detaches and removes a bound view; an unknown name gets a null entry. */
    method UnregisterRenderView(name: string)
      modifies this`renderViewMap, BoundView(name)`attached
      ensures renderViewMap == Unregistered(old(renderViewMap), name)
      ensures old(Bound(renderViewMap, name)) ==> !old(renderViewMap[name].value).attached
    {
      renderViewMap := Touched(renderViewMap, name);
      var renderView := renderViewMap[name];
      if renderView.Some? {
        renderView.value.attached := false;
        renderViewMap := renderViewMap - {name};
      }
    }

    /** `registerRenderView`: binds an unbound name and attaches the view; a bound name is kept. */
    method RegisterRenderView(renderView: QgsAbstractRenderView, name: string) returns (out: bool)
      modifies this`renderViewMap, renderView`attached
      ensures out <==> !old(Bound(renderViewMap, name))
      ensures renderViewMap == Registered(old(renderViewMap), name, renderView)
      ensures out ==> renderView.attached
      ensures !out ==> renderView.attached == old(renderView.attached)
    {
      renderViewMap := Touched(renderViewMap, name);
      if renderViewMap[name] == None {
        renderViewMap := renderViewMap[name := Some(renderView)];
        renderView.attached := true;
        out := true;
      } else {
        out := false;
      }
    }

    /** `setEnableRenderView`: only the named view changes, and only if the name is bound. */
    method SetEnableRenderView(name: string, enable: bool)
      modifies this`renderViewMap, BoundView(name)`subTreeEnabled
      ensures renderViewMap == Touched(old(renderViewMap), name)
      ensures old(Bound(renderViewMap, name)) ==> old(renderViewMap[name].value).subTreeEnabled == enable
    {
      renderViewMap := Touched(renderViewMap, name);
      if renderViewMap[name].Some? {
        renderViewMap[name].value.EnableSubTree(enable);
      }
    }

    /** `renderView(name)`: the bound view or null. */
    method RenderView(name: string) returns (view: Option<QgsAbstractRenderView>)
      modifies this`renderViewMap
      ensures renderViewMap == Touched(old(renderViewMap), name)
      ensures view.Some? <==> old(Bound(renderViewMap, name))
      ensures view.Some? ==> view == old(renderViewMap[name])
    {
      renderViewMap := Touched(renderViewMap, name);
      view := renderViewMap[name];
    }

    /** `filterLayer(name)`: dereferences the entry, so the name must be bound. */
    method FilterLayer(name: string) returns (layer: nat)
      requires Bound(renderViewMap, name)
      ensures layer == renderViewMap[name].value.layer
    {
      layer := renderViewMap[name].value.layer;
    }

    /** `isRenderViewEnabled(name)`: false for an unbound name, else the view's enabled state. */
    method IsRenderViewEnabled(name: string) returns (enabled: bool)
      modifies this`renderViewMap
      ensures renderViewMap == Touched(old(renderViewMap), name)
      ensures enabled <==> old(Bound(renderViewMap, name)) && old(renderViewMap[name].value.subTreeEnabled)
    {
      renderViewMap := Touched(renderViewMap, name);
      enabled := renderViewMap[name] != None && renderViewMap[name].value.subTreeEnabled;
    }

    /**
     * `setSize` as written: it calls `updateTargetOutputSize` on every value of the dictionary,
     * so it needs every entry to be a view (see `LookupBreaksSetSize`).
     */
    method SetSize(width: int, height: int)
      requires NoNullEntries(renderViewMap)
      modifies this`size, this`externalRenderTargetSize, ViewTextures()
      modifies renderCaptureColorTexture, renderCaptureDepthTexture
      modifies ambientOcclusionRenderTexture, ambientOcclusionBlurTexture
      ensures size == (width, height) && externalRenderTargetSize == (width, height)
      ensures forall n | n in renderViewMap ::
        forall t | t in renderViewMap[n].value.Textures() :: t.width == width && t.height == height
      ensures renderCaptureColorTexture.width == width && renderCaptureColorTexture.height == height
      ensures renderCaptureDepthTexture.width == width && renderCaptureDepthTexture.height == height
      ensures ambientOcclusionRenderTexture.width == width && ambientOcclusionRenderTexture.height == height
      ensures ambientOcclusionBlurTexture.width == width && ambientOcclusionBlurTexture.height == height
    {
      size := (width, height);
      var names := renderViewMap.Keys;
      ghost var done: set<string> := {};
      while names != {}
        invariant names + done == renderViewMap.Keys && names !! done
        invariant size == (width, height)
        invariant forall n | n in done ::
          forall t | t in renderViewMap[n].value.Textures() :: t.width == width && t.height == height
        decreases names
      {
        var name :| name in names;
        var rv := renderViewMap[name].value;
        assert rv in Views(renderViewMap);
        rv.UpdateTargetOutputSize(width, height);
        names := names - {name};
        done := done + {name};
      }
      renderCaptureColorTexture.SetSize(width, height);
      renderCaptureDepthTexture.SetSize(width, height);
      externalRenderTargetSize := (width, height);
      ambientOcclusionRenderTexture.SetSize(width, height);
      ambientOcclusionBlurTexture.SetSize(width, height);
    }

    /** `setSize` with the null check the registry needs: null entries are skipped. */
    method SetSizeSkippingNull(width: int, height: int)
      modifies this`size, this`externalRenderTargetSize, ViewTextures()
      modifies renderCaptureColorTexture, renderCaptureDepthTexture
      modifies ambientOcclusionRenderTexture, ambientOcclusionBlurTexture
      ensures size == (width, height) && externalRenderTargetSize == (width, height)
      ensures forall n | Bound(renderViewMap, n) ::
        forall t | t in renderViewMap[n].value.Textures() :: t.width == width && t.height == height
      ensures renderCaptureColorTexture.width == width && renderCaptureColorTexture.height == height
      ensures renderCaptureDepthTexture.width == width && renderCaptureDepthTexture.height == height
      ensures ambientOcclusionRenderTexture.width == width && ambientOcclusionRenderTexture.height == height
      ensures ambientOcclusionBlurTexture.width == width && ambientOcclusionBlurTexture.height == height
    {
      size := (width, height);
      var names := renderViewMap.Keys;
      ghost var done: set<string> := {};
      while names != {}
        invariant names + done == renderViewMap.Keys && names !! done
        invariant size == (width, height)
        invariant forall n | n in done && Bound(renderViewMap, n) ::
          forall t | t in renderViewMap[n].value.Textures() :: t.width == width && t.height == height
        decreases names
      {
        var name :| name in names;
        if renderViewMap[name].Some? {
          var rv := renderViewMap[name].value;
          assert rv in Views(renderViewMap);
          rv.UpdateTargetOutputSize(width, height);
        }
        names := names - {name};
        done := done + {name};
      }
      renderCaptureColorTexture.SetSize(width, height);
      renderCaptureDepthTexture.SetSize(width, height);
      externalRenderTargetSize := (width, height);
      ambientOcclusionRenderTexture.SetSize(width, height);
      ambientOcclusionBlurTexture.SetSize(width, height);
    }

    /** `setRenderCaptureEnabled`: a call with the current value changes nothing. */
    method SetRenderCaptureEnabled(enabled: bool)
      modifies this`renderCaptureEnabled, this`renderCaptureSelectorEnabled
      ensures renderCaptureEnabled == enabled
      ensures old(renderCaptureEnabled) == enabled ==> renderCaptureSelectorEnabled == old(renderCaptureSelectorEnabled)
      ensures old(renderCaptureEnabled) != enabled ==> renderCaptureSelectorEnabled == enabled
    {
      if enabled == renderCaptureEnabled {
        return;
      }
      renderCaptureEnabled := enabled;
      renderCaptureSelectorEnabled := renderCaptureEnabled;
    }
  }

  /**
   * Looking up an unknown name (with `renderView`, `isRenderViewEnabled`, `setEnableRenderView` or
   * `unregisterRenderView`) leaves a null entry, after which `setSize` as written dereferences it.
   */
  lemma LookupBreaksSetSize(m: ViewMap, name: string)
    requires name !in m
    ensures !NoNullEntries(Touched(m, name))
    ensures !NoNullEntries(Unregistered(m, name))
  {
    TouchUnknownAddsNull(m, name);
  }
}
