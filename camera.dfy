/**
 * `KivyCvCamera`: a camera widget that, on each tick, reads the texture the
 * camera currently shows, reshapes its bytes into an RGBA frame, flips the
 * rows on Android, runs its filter chain and keeps the result as the latest
 * frame. The texture is an input of the tick; the platform name is fixed
 * when the camera is created, as it is for the whole process.
 */
module Camera {
  import opened Options
  import opened Frames
  import opened Filtering

  /** The frame a tick builds from texture `t` before filtering. */
  function Oriented(t: Texture, platform: string): (f: Frame)
    requires Reshapable(t)
    ensures WellShaped(f) && f.height == t.height && f.width == t.width && f.channels == RGBA
  {
    var raw := FromBuffer(t.pixels, t.width, t.height);
    if platform == "android" then FlipUD(raw) else raw
  }

  /**
   * Pixel [i, j, k] of the oriented frame is pixel [height-1-i, j, k] of the
   * texture's buffer on Android, and pixel [i, j, k] elsewhere.
   */
  lemma OrientedAt(t: Texture, platform: string, i: nat, j: nat, k: nat)
    requires Reshapable(t) && i < t.height && j < t.width && k < RGBA
    ensures At(Oriented(t, platform), i, j, k)
         == At(FromBuffer(t.pixels, t.width, t.height),
               if platform == "android" then t.height - 1 - i else i, j, k)
  {
    if platform == "android" {
      FlipUDAt(FromBuffer(t.pixels, t.width, t.height), i, j, k);
    }
  }

  /** Off Android the frame holds the texture's bytes exactly as they came. */
  lemma OrientedElsewhere(t: Texture, platform: string)
    requires Reshapable(t) && platform != "android"
    ensures Oriented(t, platform).data == t.pixels
  {
  }

  class KivyCvCamera {
    const platform: string
    const chain: Filterable
    var frame: Option<Frame>

    /** A new camera on `platform` has no frame yet and an empty filter chain. */
    constructor (platform: string)
      ensures this.platform == platform
      ensures frame == None
      ensures fresh(chain) && chain.filters == []
    {
      this.platform := platform;
      chain := new Filterable([]);
      frame := None;
    }

    /**
     * `_update_frame`: with no texture the latest frame stays as it was;
     * otherwise it becomes the chain applied to the oriented texture bytes.
     */
    method UpdateFrame(texture: Option<Texture>)
      requires texture.Some? ==> Reshapable(texture.value)
      modifies this
      ensures texture.None? ==> frame == old(frame)
      ensures texture.Some? ==> frame == Some(ApplyChain(chain.filters, Oriented(texture.value, platform)))
    {
      if texture.Some? {
        var t := texture.value;
        var frameNp := FromBuffer(t.pixels, t.width, t.height);
        if platform == "android" {
          frameNp := FlipUD(frameNp);
        }
        var filtered := chain.ApplyFilter(frameNp);
        frame := Some(filtered);
      }
    }

    /** `get_frame`: the latest frame, or None before the first textured tick. */
    function GetFrame(): Option<Frame>
      reads this
    {
      frame
    }
  }
}
