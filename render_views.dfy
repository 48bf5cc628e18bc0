/**
 * Render views (`QgsAbstractRenderView`) and the name-to-view dictionary both frame graphs keep.
 *
 * A view owns a list of render target outputs, each an attachment point with a texture; the
 * frame graph's dictionary maps names to views, where a null pointer is `None`. Reading the
 * dictionary with the non-const `QMap::operator[]` inserts a null entry for an unknown name, which
 * is what `Touched` describes.
 */
module RenderViews {
  import opened Wrappers

  /** `Qt3DRender::QRenderTargetOutput::AttachmentPoint`. */
  datatype AttachmentPoint = Color0 | Color1 | Color2 | Color3 | Depth | Stencil | DepthStencil

  /** `Qt3DRender::QTexture2D`, reduced to its size. */
  class Texture2D {
    var width: int
    var height: int

    constructor (width: int, height: int)
      ensures this.width == width && this.height == height
    {
      this.width := width;
      this.height := height;
    }

    /** `setSize(width, height)`. */
    method SetSize(width: int, height: int)
      modifies this
      ensures this.width == width && this.height == height
    {
      this.width := width;
      this.height := height;
    }
  }

  /** A `QRenderTargetOutput`: where it attaches and the texture it renders into. */
  datatype RenderTargetOutput = RenderTargetOutput(attachmentPoint: AttachmentPoint, texture: Texture2D)

  /** The concrete render view classes, as far as `dynamic_cast` tells them apart. */
  datatype ViewKind = ForwardView | ShadowView | DepthView | AmbientOcclusionView | DebugTextureView | AxisView

  /** The texture of the first output attached at `attachment`, if any. */
  function FirstTexture(outputs: seq<RenderTargetOutput>, attachment: AttachmentPoint): Option<Texture2D> {
    if outputs == [] then None
    else if outputs[0].attachmentPoint == attachment then Some(outputs[0].texture)
    else FirstTexture(outputs[1..], attachment)
  }

  /** `FirstTexture` finds output `i` when it is the first one attached there. */
  lemma {:induction false} FirstTextureAt(outputs: seq<RenderTargetOutput>, attachment: AttachmentPoint, i: int)
    requires 0 <= i < |outputs| && outputs[i].attachmentPoint == attachment
    requires forall j | 0 <= j < i :: outputs[j].attachmentPoint != attachment
    ensures FirstTexture(outputs, attachment) == Some(outputs[i].texture)
  {
    if i > 0 {
      FirstTextureAt(outputs[1..], attachment, i - 1);
    }
  }

  /** `FirstTexture` is `None` exactly when nothing is attached there (the empty list included). */
  lemma {:induction false} FirstTextureNone(outputs: seq<RenderTargetOutput>, attachment: AttachmentPoint)
    ensures FirstTexture(outputs, attachment).None?
        <==> forall j | 0 <= j < |outputs| :: outputs[j].attachmentPoint != attachment
  {
    if outputs != [] {
      FirstTextureNone(outputs[1..], attachment);
      assert forall j | 1 <= j < |outputs| :: outputs[j] == outputs[1..][j - 1];
    }
  }

  class QgsAbstractRenderView {
    const kind: ViewKind
    /** The layer `layerToFilter()` returns, by identity. */
    const layer: nat
    var targetOutputs: seq<RenderTargetOutput>
    /** The state `enableSubTree` sets and `isSubTreeEnabled` reports. */
    var subTreeEnabled: bool
    /** Whether `topGraphNode()` is parented to the frame graph's main viewport. */
    var attached: bool

    constructor (kind: ViewKind, layer: nat)
      ensures this.kind == kind && this.layer == layer
      ensures targetOutputs == [] && subTreeEnabled && !attached
    {
      this.kind := kind;
      this.layer := layer;
      targetOutputs := [];
      subTreeEnabled := true;
      attached := false;
    }

    ghost function Textures(): set<Texture2D>
      reads this`targetOutputs
    {
      set i | 0 <= i < |targetOutputs| :: targetOutputs[i].texture
    }

    /** `setTargetOutputs`: replaces the list. */
    method SetTargetOutputs(targetOutputList: seq<RenderTargetOutput>)
      modifies this`targetOutputs
      ensures targetOutputs == targetOutputList
    {
      targetOutputs := targetOutputList;
    }

    /** `updateTargetOutputSize`: every output texture gets the size. */
    method UpdateTargetOutputSize(width: int, height: int)
      modifies Textures()
      ensures forall t | t in Textures() :: t.width == width && t.height == height
    {
      for i := 0 to |targetOutputs|
        invariant forall j | 0 <= j < i :: targetOutputs[j].texture.width == width
        invariant forall j | 0 <= j < i :: targetOutputs[j].texture.height == height
      {
        targetOutputs[i].texture.SetSize(width, height);
      }
    }

    /** `outputTexture`: the first output with the attachment point wins; `None` if there is none. */
    method OutputTexture(attachment: AttachmentPoint) returns (texture: Option<Texture2D>)
      ensures texture == FirstTexture(targetOutputs, attachment)
    {
      for i := 0 to |targetOutputs|
        invariant forall j | 0 <= j < i :: targetOutputs[j].attachmentPoint != attachment
      {
        if targetOutputs[i].attachmentPoint == attachment {
          FirstTextureAt(targetOutputs, attachment, i);
          return Some(targetOutputs[i].texture);
        }
      }
      FirstTextureNone(targetOutputs, attachment);
      return None;
    }

    /** `enableSubTree`. */
    method EnableSubTree(enable: bool)
      modifies this`subTreeEnabled
      ensures subTreeEnabled == enable
    {
      subTreeEnabled := enable;
    }
  }

  /** `mDefaultShadowMapResolution`: the width and height of the shadow map texture. */
  const DefaultShadowMapResolution := 2048

  /** The attachment points of an output list, in order. */
  function AttachmentPoints(outputs: seq<RenderTargetOutput>): seq<AttachmentPoint> {
    seq(|outputs|, i requires 0 <= i < |outputs| => outputs[i].attachmentPoint)
  }

  /**
   * `constructForwardRenderPass` up to registration, the same in both frame graphs: a forward view
   * whose outputs render depth and colour into new textures of the frame size.
   */
  method ForwardRenderPass(width: int, height: int) returns (frv: QgsAbstractRenderView)
    ensures fresh(frv) && frv.kind == ForwardView && frv.subTreeEnabled && !frv.attached
    ensures AttachmentPoints(frv.targetOutputs) == [Depth, Color0]
    ensures forall o | o in frv.targetOutputs :: fresh(o.texture) && o.texture.width == width && o.texture.height == height
  {
    var forwardColorTexture := new Texture2D(width, height);
    var forwardDepthTexture := new Texture2D(width, height);
    frv := new QgsAbstractRenderView(ForwardView, 0);
    frv.SetTargetOutputs([RenderTargetOutput(Depth, forwardDepthTexture), RenderTargetOutput(Color0, forwardColorTexture)]);
  }

  /**
   * `constructShadowRenderPass` up to registration, the same in both frame graphs: a shadow view
   * whose one output renders depth into a new shadow map of the default resolution.
   */
  method ShadowRenderPass() returns (srv: QgsAbstractRenderView)
    ensures fresh(srv) && srv.kind == ShadowView && srv.subTreeEnabled && !srv.attached
    ensures AttachmentPoints(srv.targetOutputs) == [Depth]
    ensures forall o | o in srv.targetOutputs ::
      fresh(o.texture) && o.texture.width == DefaultShadowMapResolution && o.texture.height == DefaultShadowMapResolution
  {
    var shadowMapTexture := new Texture2D(DefaultShadowMapResolution, DefaultShadowMapResolution);
    srv := new QgsAbstractRenderView(ShadowView, 2);
    srv.SetTargetOutputs([RenderTargetOutput(Depth, shadowMapTexture)]);
  }

  // ---------------------------------------------------------------------------------------------
  // The dictionary `mRenderViewMap`

  type ViewMap = map<string, Option<QgsAbstractRenderView>>

  /** A name is bound when it maps to a non-null view. */
  predicate Bound(m: ViewMap, name: string) {
    name in m && m[name].Some?
  }

  /** The dictionary after `mRenderViewMap[name]` has been evaluated. */
  function Touched(m: ViewMap, name: string): (r: ViewMap)
    ensures name in r
  {
    if name in m then m else m[name := None]
  }

  /** No null entry: what iterating over the views and dereferencing each needs. */
  predicate NoNullEntries(m: ViewMap) {
    forall n | n in m :: m[n].Some?
  }

  /** The views the dictionary holds. */
  function Views(m: ViewMap): set<QgsAbstractRenderView> {
    set n | n in m && m[n].Some? :: m[n].value
  }

  /** The dictionary after `registerRenderView(view, name)`. */
  function Registered(m: ViewMap, name: string, view: QgsAbstractRenderView): ViewMap {
    if Bound(m, name) then m else m[name := Some(view)]
  }

  /** The dictionary after `unregisterRenderView(name)`. */
  function Unregistered(m: ViewMap, name: string): ViewMap {
    if Bound(m, name) then m - {name} else Touched(m, name)
  }

  /** Evaluating `operator[]` binds and unbinds nothing and holds the same views. */
  lemma TouchKeepsBindings(m: ViewMap, name: string)
    ensures forall n :: Bound(Touched(m, name), n) <==> Bound(m, n)
    ensures forall n | Bound(m, n) :: Touched(m, name)[n] == m[n]
    ensures Views(Touched(m, name)) == Views(m)
  {
    var t := Touched(m, name);
    forall v | v in Views(t)
      ensures v in Views(m)
    {
      var n :| n in t && t[n].Some? && t[n].value == v;
      assert n in m && m[n] == t[n];
    }
  }

  /** ... but on an unknown name it leaves a null entry behind. */
  lemma TouchUnknownAddsNull(m: ViewMap, name: string)
    requires name !in m
    ensures !NoNullEntries(Touched(m, name))
  {
    assert Touched(m, name)[name] == None;
  }

  /** Registering on an unbound name binds it to the view and leaves every other name alone. */
  lemma RegisterBinds(m: ViewMap, name: string, view: QgsAbstractRenderView)
    requires !Bound(m, name)
    ensures Bound(Registered(m, name, view), name) && Registered(m, name, view)[name] == Some(view)
    ensures forall n | n != name :: (n in m <==> n in Registered(m, name, view))
    ensures forall n | n != name && n in m :: Registered(m, name, view)[n] == m[n]
  {
  }

  /** Unregistering unbinds the name and leaves every other name alone. */
  lemma UnregisterUnbinds(m: ViewMap, name: string)
    ensures !Bound(Unregistered(m, name), name)
    ensures forall n | n != name :: (n in m <==> n in Unregistered(m, name))
    ensures forall n | n != name && n in m :: Unregistered(m, name)[n] == m[n]
  {
  }

  /** Register then unregister on a name that was absent gives the dictionary back. */
  lemma RegisterUnregisterRoundTrip(m: ViewMap, name: string, view: QgsAbstractRenderView)
    requires name !in m
    ensures Unregistered(Registered(m, name, view), name) == m
  {
    assert Registered(m, name, view) - {name} == m;
  }
}
