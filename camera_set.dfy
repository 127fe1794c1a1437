/**
 * `KivyCvCameraSet`: owns one camera and one image receiver, relays the
 * camera's latest frame to the receiver, and holds the two filter lists that
 * its configure step hands to them.
 */
module CameraSet {
  import opened Options
  import opened Frames
  import opened Filtering
  import opened Camera
  import opened Receiver

  class KivyCvCameraSet {
    const camera: KivyCvCamera
    const image: ImageReceiver
    var imgFilters: seq<Filter>
    var camFilters: seq<Filter>

    /** The two components run separate chains. */
    ghost predicate Valid() {
      camera.chain != image.chain
    }

    /**
     * Both components start with empty chains; the lists given here reach
     * them only at the configure step, `ApplyFilter`. The camera runs on
     * `platform`.
     */
    constructor (imgFilters: seq<Filter>, camFilters: seq<Filter>, platform: string)
      ensures Valid()
      ensures camera.platform == platform
      ensures this.imgFilters == imgFilters && this.camFilters == camFilters
      ensures fresh(camera) && fresh(image) && fresh(camera.chain) && fresh(image.chain)
      ensures camera.frame == None && camera.chain.filters == []
      ensures image.frame == None && image.texture == None && image.chain.filters == []
    {
      camera := new KivyCvCamera(platform);
      image := new ImageReceiver([]);
      this.imgFilters := imgFilters;
      this.camFilters := camFilters;
    }

    /**
     * The relay tick: the image's held frame becomes exactly what the
     * camera's `get_frame` returns, None included; nothing else changes.
     */
    method Relay()
      modifies image`frame
      ensures image.frame == camera.GetFrame()
    {
      var latest := camera.GetFrame();
      image.SetFrame(latest);
    }

    /**
     * `_apply_filter`, the configure step: the image runs `imgFilters` and the
     * camera runs `camFilters`, each replacing the chain it had.
     */
    method ApplyFilter()
      requires Valid()
      modifies image.chain, camera.chain
      ensures image.chain.filters == imgFilters
      ensures camera.chain.filters == camFilters
    {
      image.chain.filters := imgFilters;
      camera.chain.filters := camFilters;
    }

    /** `add_filter`: append `f` to the chain of the component given, and to no other. */
    method AddFilter(comp: Filterable, f: Filter)
      modifies comp
      ensures comp.filters == old(comp.filters) + [f]
    {
      comp.AddFilter(f);
    }
  }
}
