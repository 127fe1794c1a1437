/**
 * Whole-pipeline runs built from the widgets' own operations: each method
 * allocates fresh widgets, drives their ticks in order and states what is
 * published or stored.
 */
module Scenarios {
  import opened Options
  import opened Frames
  import opened Filtering
  import opened Camera
  import opened Receiver
  import opened CameraSet

  /**
   * Configure, one camera tick with texture `t`, one relay, one image tick:
   * the published texture is the concatenated chain camFilters + imgFilters
   * applied to the oriented frame; with empty chains off Android it is `t`.
   */
  method RunPipeline(t: Texture, platform: string, imgFilters: seq<Filter>, camFilters: seq<Filter>)
    returns (published: Option<Texture>)
    requires Reshapable(t)
    ensures published == Some(ImageReceiver.CreateTexture(ApplyChain(camFilters + imgFilters, Oriented(t, platform))))
    ensures camFilters == [] && imgFilters == [] && platform != "android" ==> published == Some(t)
  {
    var cameraSet := new KivyCvCameraSet(imgFilters, camFilters, platform);
    cameraSet.ApplyFilter();
    cameraSet.camera.UpdateFrame(Some(t));
    cameraSet.Relay();
    cameraSet.image.UpdateFrame();
    published := cameraSet.image.texture;
    ApplyChainAppend(camFilters, imgFilters, Oriented(t, platform));
    TextureRoundTrip(t);
  }

  /** A camera that never sees a texture never has a frame, however many ticks run. */
  method CameraWithoutTexture(ticks: nat, platform: string) returns (latest: Option<Frame>)
    ensures latest == None
  {
    var camera := new KivyCvCamera(platform);
    for n := 0 to ticks
      invariant camera.frame == None
    {
      camera.UpdateFrame(None);
    }
    latest := camera.GetFrame();
  }

  /** A receiver whose frame is never set never publishes a texture. */
  method SinkWithoutFrame(ticks: nat, filters: seq<Filter>) returns (published: Option<Texture>)
    ensures published == None
  {
    var image := new ImageReceiver(filters);
    for n := 0 to ticks
      invariant image.frame == None && image.texture == None
    {
      image.UpdateFrame();
    }
    published := image.texture;
  }

  /**
   * After `set_frame(frame)`, any positive number of image ticks publishes the
   * same texture: the held frame is filtered each time, never replaced.
   */
  method RepeatedSinkTicks(frame: Frame, filters: seq<Filter>, ticks: nat) returns (published: Option<Texture>)
    requires ticks >= 1
    ensures published == Some(ImageReceiver.CreateTexture(ApplyChain(filters, frame)))
  {
    var image := new ImageReceiver(filters);
    image.SetFrame(Some(frame));
    for n := 0 to ticks
      invariant image.frame == Some(frame) && image.chain.filters == filters
      invariant n >= 1 ==> image.texture == Some(ImageReceiver.CreateTexture(ApplyChain(filters, frame)))
    {
      image.UpdateFrame();
    }
    published := image.texture;
  }

  /** Replaces every byte b by b XOR 0xFF; a filter used by the scenario below. */
  function Invert(f: Frame): Frame {
    f.(data := seq(|f.data|, p requires 0 <= p < |f.data| => f.data[p] ^ 0xFF))
  }

  /**
   * A camera whose chain is [Invert], ticked with a 4x4 texture of zero
   * bytes, holds a 4x4 RGBA frame of 0xFF bytes, on Android as elsewhere.
   */
  method InvertedBlackTexture(platform: string) returns (latest: Option<Frame>)
    ensures latest == Some(Frame(4, 4, RGBA, seq(64, p => 0xFF)))
  {
    var camera := new KivyCvCamera(platform);
    camera.chain.AddFilter(Invert);
    var black := Texture(4, 4, seq(64, p => 0x00));
    camera.UpdateFrame(Some(black));
    latest := camera.GetFrame();
    var oriented := Oriented(black, platform);
    assert camera.chain.filters == [Invert];
    assert ApplyChain([Invert], oriented) == Invert(oriented);
    forall p | 0 <= p < 64
      ensures oriented.data[p] == 0x00
    {
      if platform == "android" {
        var i, j := SplitPosition(4, 16, p);
        ReverseRowsAt(black.pixels, 16, 4, i, 3 - i, j);
      }
    }
    var white: seq<Byte> := seq(64, p => 0xFF);
    assert forall p | 0 <= p < 64 :: Invert(oriented).data[p] == white[p];
    assert Invert(oriented) == Frame(4, 4, RGBA, white);
  }
}
