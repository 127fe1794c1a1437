/**
 * The filter chain shared by the camera and the image widget: an ordered list
 * of frame-to-frame functions, applied as a left-to-right fold that starts
 * from the input frame.
 */
module Filtering {
  import opened Frames

  /** A filter is total and has no side effects. */
  type Filter = Frame -> Frame

  /** The chain's meaning: feed the frame to fs[0], its output to fs[1], and so on. */
  function ApplyChain(fs: seq<Filter>, frame: Frame): Frame
    decreases |fs|
  {
    if fs == [] then frame else ApplyChain(fs[1..], fs[0](frame))
  }

  /** An empty chain returns its input unchanged. */
  lemma ApplyChainEmpty(frame: Frame)
    ensures ApplyChain([], frame) == frame
  {
  }

  /** Running fs ++ gs is running fs, then running gs on its output. */
  lemma {:induction false} ApplyChainAppend(fs: seq<Filter>, gs: seq<Filter>, frame: Frame)
    ensures ApplyChain(fs + gs, frame) == ApplyChain(gs, ApplyChain(fs, frame))
    decreases |fs|
  {
    if fs == [] {
      assert fs + gs == gs;
    } else {
      assert (fs + gs)[1..] == fs[1..] + gs;
      ApplyChainAppend(fs[1..], gs, fs[0](frame));
    }
  }

  /** A filter appended to a chain runs last, on the output of the earlier ones. */
  lemma {:induction false} ApplyChainSnoc(fs: seq<Filter>, f: Filter, frame: Frame)
    ensures ApplyChain(fs + [f], frame) == f(ApplyChain(fs, frame))
  {
    ApplyChainAppend(fs, [f], frame);
    assert ApplyChain([f], ApplyChain(fs, frame)) == ApplyChain([], f(ApplyChain(fs, frame)));
  }

  /** `Filterable`: the part of a widget that owns and runs a filter chain. */
  class Filterable {
    var filters: seq<Filter>

    constructor (filters: seq<Filter>)
      ensures this.filters == filters
    {
      this.filters := filters;
    }

    /** `_apply_filter`: run every filter in list order on the running frame. */
    method ApplyFilter(frame: Frame) returns (newFrame: Frame)
      ensures newFrame == ApplyChain(filters, frame)
    {
      newFrame := frame;
      for n := 0 to |filters|
        invariant newFrame == ApplyChain(filters[..n], frame)
      {
        ApplyChainSnoc(filters[..n], filters[n], frame);
        assert filters[..n + 1] == filters[..n] + [filters[n]];
        newFrame := filters[n](newFrame);
      }
      assert filters[..|filters|] == filters;
    }

    /** `add_filter`: append one filter; the earlier ones keep their order. */
    method AddFilter(f: Filter)
      modifies this
      ensures filters == old(filters) + [f]
      ensures |filters| == |old(filters)| + 1 && filters[|filters| - 1] == f
      ensures filters[..|old(filters)|] == old(filters)
    {
      filters := filters + [f];
    }
  }
}
