/**
  The window's surface configuration: how `create` picks the surface
  format and present mode from the surface capabilities, and how `resize`
  validates a new size. Window, adapter and device creation and the
  `surface.configure` calls are foreign and not modelled; the window's
  inner size and the capabilities are parameters.
 */
module Window {
  import opened Wrappers

  /** A `wgpu::TextureFormat`, seen through a code and whether it is sRGB. */
  datatype TextureFormat = TextureFormat(code: nat, srgb: bool)

  /** `wgpu::PresentMode`. */
  datatype PresentMode = AutoVsync | AutoNoVsync | Fifo | FifoRelaxed | Immediate | Mailbox

  /** `wgpu::CompositeAlphaMode`. */
  datatype CompositeAlphaMode = Auto | Opaque | PreMultiplied | PostMultiplied | Inherit

  /** `wgpu::SurfaceCapabilities`. */
  datatype SurfaceCapabilities = SurfaceCapabilities(
    formats: seq<TextureFormat>,
    presentModes: seq<PresentMode>,
    alphaModes: seq<CompositeAlphaMode>)

  /** The fields of `wgpu::SurfaceConfiguration` that `create` chooses. */
  datatype SurfaceConfiguration = SurfaceConfiguration(
    format: TextureFormat,
    width: nat,
    height: nat,
    presentMode: PresentMode,
    alphaMode: CompositeAlphaMode)

  /** `iter().find(p)`, given as the index of the element it finds: the first one satisfying `p`. */
  function FindFirst<T>(s: seq<T>, p: T -> bool): (r: Option<nat>)
    ensures r.Some? ==> r.value < |s| && p(s[r.value])
    ensures r.Some? ==> forall j :: 0 <= j < r.value ==> !p(s[j])
    ensures r.None? ==> forall j :: 0 <= j < |s| ==> !p(s[j])
    decreases |s|
  {
    if s == [] then None
    else if p(s[0]) then Some(0)
    else match FindFirst(s[1..], p)
      case None => None
      case Some(j) => Some(j + 1)
  }

  /**
    The surface format: the first sRGB format listed, or else the first
    format. `unwrap_or(formats[0])` indexes eagerly, so an empty list
    panics even before the search.
   */
  function ChooseSurfaceFormat(formats: seq<TextureFormat>): (f: TextureFormat)
    requires |formats| > 0
    ensures f in formats
    ensures (exists i :: 0 <= i < |formats| && formats[i].srgb) ==>
              f.srgb && exists i :: 0 <= i < |formats| && formats[i] == f && forall j :: 0 <= j < i ==> !formats[j].srgb
    ensures (forall i :: 0 <= i < |formats| ==> !formats[i].srgb) ==> f == formats[0]
  {
    match FindFirst(formats, (t: TextureFormat) => t.srgb)
    case Some(i) => formats[i]
    case None => formats[0]
  }

  /** The present mode: `Immediate` when listed, or else the first mode listed. */
  function ChoosePresentMode(modes: seq<PresentMode>): (m: PresentMode)
    requires |modes| > 0
    ensures m == (if Immediate in modes then Immediate else modes[0])
  {
    match FindFirst(modes, (p: PresentMode) => p == Immediate)
    case Some(i) => modes[i]
    case None => modes[0]
  }

  /**
    The configuration `create` builds for a window of the given inner
    size: the chosen format and present mode, the first alpha mode.
   */
  function InitialConfig(width: nat, height: nat, caps: SurfaceCapabilities): (c: SurfaceConfiguration)
    requires |caps.formats| > 0 && |caps.presentModes| > 0 && |caps.alphaModes| > 0
    ensures c.width == width && c.height == height
    ensures c.format == ChooseSurfaceFormat(caps.formats)
    ensures c.presentMode == ChoosePresentMode(caps.presentModes)
    ensures c.alphaMode == caps.alphaModes[0]
  {
    SurfaceConfiguration(ChooseSurfaceFormat(caps.formats), width, height,
      ChoosePresentMode(caps.presentModes), caps.alphaModes[0])
  }

  /** The error `resize` reports for a zero dimension. */
  const ErrZeroSize: string := "Window size cannot be zero."

  class Window {
    var config: SurfaceConfiguration

    /** `Window::create`, once the surface is obtained: configured for its inner size. */
    constructor (width: nat, height: nat, caps: SurfaceCapabilities)
      requires |caps.formats| > 0 && |caps.presentModes| > 0 && |caps.alphaModes| > 0
      ensures config == InitialConfig(width, height, caps)
    {
      config := InitialConfig(width, height, caps);
    }

    /**
      `resize`: a size with both dimensions positive becomes the configured
      width and height, and nothing else changes; a zero dimension is
      rejected and the configuration stays as it was.
     */
    method Resize(width: nat, height: nat) returns (r: Result<Unit, string>)
      modifies this
      ensures r.Ok? <==> width > 0 && height > 0
      ensures r.Ok? ==> config == old(config).(width := width, height := height)
      ensures r.Err? ==> r.error == ErrZeroSize && config == old(config)
    {
      if width > 0 && height > 0 {
        config := config.(width := width, height := height);
        r := Ok(Unit);
      } else {
        r := Err(ErrZeroSize);
      }
    }
  }

  /** A rejected resize keeps the last good size, and a later valid one applies. */
  method ZeroResizeKeepsSize(caps: SurfaceCapabilities, width: nat, height: nat)
    returns (first: Result<Unit, string>, kept: (nat, nat), second: Result<Unit, string>, now: (nat, nat))
    requires |caps.formats| > 0 && |caps.presentModes| > 0 && |caps.alphaModes| > 0
    requires width > 0 && height > 0
    ensures first.Err? && kept == (1280, 720)
    ensures second.Ok? && now == (width, height)
  {
    var w := new Window(1280, 720, caps);
    first := w.Resize(0, height);
    kept := (w.config.width, w.config.height);
    second := w.Resize(width, height);
    now := (w.config.width, w.config.height);
  }
}
