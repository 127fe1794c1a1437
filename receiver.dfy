/**
 * `ImageReceiver`: an image widget holding one frame set from outside. On
 * each tick it filters the held frame (without replacing it) and publishes
 * the result as a new texture.
 */
module Receiver {
  import opened Options
  import opened Frames
  import opened Filtering

  /**
   * Texture byte k of the pixel in column j of row i, counted row-major over
   * the texture's own size, is element [i, j, k] of the frame.
   */
  lemma CreateTextureAt(frame: Frame, i: nat, j: nat, k: nat)
    requires WellShaped(frame) && frame.channels == RGBA
    requires i < frame.height && j < frame.width && k < RGBA
    ensures var t := ImageReceiver.CreateTexture(frame);
            (i * t.width + j) * RGBA + k < |t.pixels| && t.pixels[(i * t.width + j) * RGBA + k] == At(frame, i, j, k)
  {
    OffsetInRange(frame, i, j, k);
    assert (i * frame.width + j) * RGBA + k == Offset(frame, i, j, k);
  }

  /** Encoding an RGBA frame and reshaping the texture back gives the same frame. */
  lemma FrameRoundTrip(frame: Frame)
    requires WellShaped(frame) && frame.channels == RGBA
    ensures var t := ImageReceiver.CreateTexture(frame);
            |t.pixels| == t.height * t.width * RGBA && FromBuffer(t.pixels, t.width, t.height) == frame
  {
  }

  /** Reshaping a texture's bytes and encoding the frame gives the same texture. */
  lemma TextureRoundTrip(t: Texture)
    requires Reshapable(t)
    ensures ImageReceiver.CreateTexture(FromBuffer(t.pixels, t.width, t.height)) == t
  {
  }

  class ImageReceiver {
    const chain: Filterable
    var frame: Option<Frame>
    var texture: Option<Texture>

    /** A new receiver holds no frame, shows no texture, and runs `filters`. */
    constructor (filters: seq<Filter>)
      ensures frame == None && texture == None
      ensures fresh(chain) && chain.filters == filters
    {
      chain := new Filterable(filters);
      frame := None;
      texture := None;
    }

    /**
     * `_create_texture`: a texture of size (shape[1], shape[0]), i.e.
     * (columns, rows), whose buffer is the frame's bytes in row-major order.
     */
    static function CreateTexture(frame: Frame): (t: Texture)
      ensures t.width == frame.width && t.height == frame.height
      ensures WellShaped(frame) && frame.channels == RGBA ==> Reshapable(t)
    {
      Texture(frame.width, frame.height, frame.data)
    }

    /**
     * `_update_frame`: with no held frame nothing is published; otherwise the
     * filtered frame is published as a texture. The held frame is not changed.
     */
    method UpdateFrame()
      modifies this`texture
      ensures frame == old(frame)
      ensures frame.None? ==> texture == old(texture)
      ensures frame.Some? ==> texture == Some(CreateTexture(ApplyChain(chain.filters, frame.value)))
    {
      if frame.Some? {
        var newFrame := chain.ApplyFilter(frame.value);
        texture := Some(CreateTexture(newFrame));
      }
    }

    /** `set_frame`: last write wins; nothing else changes. */
    method SetFrame(f: Option<Frame>)
      modifies this`frame
      ensures frame == f
    {
      frame := f;
    }
  }
}
