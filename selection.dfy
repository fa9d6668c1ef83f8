/** The side bar's shared state: which property panel is shown, the selected
    image layer and effect, the canvas settings and the mask-brush controls. */
module Selection {
  import opened EffectModel
  import opened Layers

  datatype DisplayType = EffectProps | ImageProps | MaskProps

  /** Canvas size in pixels and whether it was set up. */
  datatype CanvasSettings = CanvasSettings(width: int, height: int, initialized: bool)

  const InitialCanvas := CanvasSettings(1280, 720, false)

  datatype MaskControls = MaskControls(brushSize: real, brushHardness: real, brushAmount: real,
                                       maskOpacity: real, isDrawMode: bool, flowMode: bool)

  const InitialMaskControls := MaskControls(50.0, 0.8, 255.0, 0.5, false, false)

  /** The three refs the selection functions read and write. */
  datatype Refs = Refs(display: DisplayType, image: ImageLayer?, effect: Effect?)

  /** `selectImage`: picking another layer shows its image panel and forgets the
      selected effect; picking the selected layer again changes nothing. */
  function SelectImageIn(v: Refs, image: ImageLayer): (r: Refs)
    ensures r.image == image
    ensures image == v.image ==> r == v
    ensures image != v.image ==> r.display == ImageProps && r.effect == null
  {
    if image != v.image then Refs(ImageProps, image, null) else v
  }

  /** `selectEffect`: only the selected effect changes. */
  function SelectEffectIn(v: Refs, effect: Effect): (r: Refs)
    ensures r.effect == effect && r.display == v.display && r.image == v.image
  {
    v.(effect := effect)
  }

  /** Selecting the same layer twice is selecting it once. */
  lemma SelectImageIdempotent(v: Refs, image: ImageLayer)
    ensures SelectImageIn(SelectImageIn(v, image), image) == SelectImageIn(v, image)
  {
  }

  /** After selecting an effect, selecting the layer already selected keeps that
      effect; selecting any other layer drops it. */
  lemma SelectEffectThenImage(v: Refs, effect: Effect, image: ImageLayer)
    ensures SelectImageIn(SelectEffectIn(v, effect), image).effect == if image == v.image then effect else null
  {
  }

  class EditorState {
    var propBarDisplay: DisplayType
    var currentImage: ImageLayer?
    var currentEffect: Effect?
    var canvasSettings: CanvasSettings
    var maskControls: MaskControls

    /** The refs' initial values. */
    constructor ()
      ensures propBarDisplay == ImageProps && currentImage == null && currentEffect == null
      ensures canvasSettings == InitialCanvas && maskControls == InitialMaskControls
    {
      propBarDisplay := ImageProps;
      currentImage := null;
      currentEffect := null;
      canvasSettings := InitialCanvas;
      maskControls := InitialMaskControls;
    }

    function Current(): Refs
      reads this
    {
      Refs(propBarDisplay, currentImage, currentEffect)
    }

    method SelectImage(image: ImageLayer)
      modifies this
      ensures Current() == SelectImageIn(old(Current()), image)
      ensures canvasSettings == old(canvasSettings) && maskControls == old(maskControls)
    {
      if image != currentImage {
        currentImage := image;
        propBarDisplay := ImageProps;
        currentEffect := null;
      }
    }

    method SelectEffect(effect: Effect)
      modifies this
      ensures Current() == SelectEffectIn(old(Current()), effect)
      ensures canvasSettings == old(canvasSettings) && maskControls == old(maskControls)
    {
      currentEffect := effect;
    }
  }
}
