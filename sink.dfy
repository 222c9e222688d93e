/** The arguments ApplyRenderScale hands to the platform, modelled as a
    recorded call whose contents depend only on the scales and the platform. */
module Sink {
  import opened Scale

  /** The two branches of the conditional compilation in ApplyRenderScale: an
      Android player build, and every other build (the Editor on any host, and
      the desktop, iOS, console and WebGL players). */
  datatype Platform = AndroidPlayer | NotAndroidPlayer

  /** Whether the call also writes XRSettings.renderViewportScale. */
  datatype Viewport = Untouched | SetTo(scale: real)

  /** One ApplyRenderScale: the optional viewport write and the two
      arguments of ScalableBufferManager.ResizeBuffers. */
  datatype ApplyCall = ApplyCall(viewport: Viewport, resizeWidth: real, resizeHeight: real)

  /** The viewport scale the Android player branch writes. */
  const AndroidViewportScale: real := 0.5

  /** In an Android player the raw scales are passed on and the viewport
      scale is set to one half; elsewhere each scale is capped at 1.0. */
  function ApplyArgs(p: Platform, s: Scales): (c: ApplyCall)
    ensures p == AndroidPlayer ==>
              c.viewport == SetTo(AndroidViewportScale) && c.resizeWidth == s.width && c.resizeHeight == s.height
    ensures p == NotAndroidPlayer ==> c.viewport == Untouched
    ensures p == NotAndroidPlayer ==>
              c.resizeWidth <= 1.0 && c.resizeWidth <= s.width && (c.resizeWidth == 1.0 || c.resizeWidth == s.width)
    ensures p == NotAndroidPlayer ==>
              c.resizeHeight <= 1.0 && c.resizeHeight <= s.height && (c.resizeHeight == 1.0 || c.resizeHeight == s.height)
  {
    match p
    case AndroidPlayer => ApplyCall(SetTo(AndroidViewportScale), s.width, s.height)
    case NotAndroidPlayer => ApplyCall(Untouched, Min(s.width, 1.0), Min(s.height, 1.0))
  }

  /** In every other build, scales up to 1.0 pass through unchanged and larger ones
      are all sent as 1.0, so the upper half of the default range is not
      distinguishable from 1.0 by the sink. */
  lemma NotAndroidCapsAtOne(s: Scales, t: Scales)
    requires s.width <= 1.0 && s.height <= 1.0
    requires 1.0 <= t.width && 1.0 <= t.height
    ensures ApplyArgs(NotAndroidPlayer, s) == ApplyCall(Untouched, s.width, s.height)
    ensures ApplyArgs(NotAndroidPlayer, t) == ApplyCall(Untouched, 1.0, 1.0)
  {
  }
}
