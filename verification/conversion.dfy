/** The lazily allocated pixel-conversion resources of `MediaSession`: the scaling
    context `mSwsCtx`, the output frame `mRGBFrame` and its buffer
    `mRGBFrameBuffer`, allocated together by `allocateConversionCtx`. */
module Conversion {

  /** The native resources a session allocates and frees. */
  datatype Resource = CodecCtx | AvFrame | SwsCtx | RgbFrame | RgbFrameBuffer

  /** `[r]` when the pointer for `r` is non-null, else nothing. */
  function Opt(nonNull: bool, r: Resource): seq<Resource>
  {
    if nonNull then [r] else []
  }

  /** What the three allocators answer when `allocateConversionCtx` calls them:
      `sws_getContext`, `av_frame_alloc` and `av_malloc`, each non-null or null. */
  datatype ConvAlloc = ConvAlloc(sws: bool, rgbFrame: bool, rgbBuffer: bool)
  {
    predicate Succeeds() { sws && rgbFrame && rgbBuffer }
  }

  /** The conversion resources seen as one: none allocated, or all three,
      sized for the given frame dimensions. */
  datatype ConvState = Unallocated | Allocated(width: int, height: int)

  /** Result code and new state of `allocateConversionCtx(width, height)`. */
  datatype AllocResult = AllocResult(state: ConvState, rc: int)

  /** `allocateConversionCtx` on the conversion state: nothing to do when the
      resources exist, else all three are made or, at the first null, none are
      kept and the call fails. */
  function Allocate(c: ConvState, width: int, height: int, o: ConvAlloc): AllocResult
  {
    if c.Allocated? then AllocResult(c, 0)
    else if o.Succeeds() then AllocResult(Allocated(width, height), 0)
    else AllocResult(Unallocated, -1)
  }

  /** What `allocateConversionCtx` allocates, in order, when the allocators
      answer `o`: it stops at the first null. */
  function ConvAcquired(o: ConvAlloc): seq<Resource>
  {
    Opt(o.sws, SwsCtx) + Opt(o.sws && o.rgbFrame, RgbFrame) + Opt(o.Succeeds(), RgbFrameBuffer)
  }

  /** What it frees on its error paths: everything allocated before the null. */
  function ConvReleased(o: ConvAlloc): seq<Resource>
  {
    Opt(o.sws && !o.Succeeds(), SwsCtx) + Opt(o.sws && o.rgbFrame && !o.rgbBuffer, RgbFrame)
  }

  /** A failed allocation leaks nothing: it frees exactly what it allocated. A
      successful one frees nothing and holds all three resources. */
  lemma ConvRollbackBalanced(o: ConvAlloc)
    ensures !o.Succeeds() ==> multiset(ConvReleased(o)) == multiset(ConvAcquired(o))
    ensures o.Succeeds() ==>
              ConvReleased(o) == [] && ConvAcquired(o) == [SwsCtx, RgbFrame, RgbFrameBuffer]
  {
  }

  /** The conversion state together with the logs of every allocation that
      returned non-null and every free of a non-null pointer, in order. */
  datatype Ledger = Ledger(conv: ConvState, acquired: seq<Resource>, released: seq<Resource>)

  /** A frame as `displayFrame` sees it: the decoder context's dimensions, and what
      the allocators would answer if the conversion resources had to be made. */
  datatype Shown = Shown(width: int, height: int, conv: ConvAlloc)

  /** `displayFrame` on the ledger: when the resources exist nothing happens,
      else `allocateConversionCtx` runs and logs what it allocates and frees. */
  function Display(g: Ledger, f: Shown): Ledger
  {
    if g.conv.Allocated? then g
    else
      Ledger(Allocate(g.conv, f.width, f.height, f.conv).state,
             g.acquired + ConvAcquired(f.conv), g.released + ConvReleased(f.conv))
  }

  /** The ledger after `displayFrame` ran once for each frame of `fs`. */
  function AfterFrames(g: Ledger, fs: seq<Shown>): Ledger
  {
    if fs == [] then g
    else Display(AfterFrames(g, fs[..|fs| - 1]), fs[|fs| - 1])
  }

  /** The drain loop's step: the ledger after the first `k + 1` frames is what
      one more `displayFrame` makes of the ledger after the first `k`. */
  lemma AfterFramesStep(g: Ledger, fs: seq<Shown>, k: nat)
    requires k < |fs|
    ensures AfterFrames(g, fs[..k + 1]) == Display(AfterFrames(g, fs[..k]), fs[k])
  {
    assert fs[..k + 1][..k] == fs[..k];
  }

  /** A second call of `allocateConversionCtx` after a successful one changes
      nothing, whatever dimensions and allocator answers it is given. */
  lemma AllocateIdempotent(c: ConvState, w: int, h: int, o: ConvAlloc, w2: int, h2: int, o2: ConvAlloc)
    requires Allocate(c, w, h, o).rc == 0
    ensures Allocate(Allocate(c, w, h, o).state, w2, h2, o2)
              == AllocResult(Allocate(c, w, h, o).state, 0)
  {
  }

  /** Once allocated, the resources are never rebuilt: later frames, of whatever
      dimensions, leave the state and the logs as they are. */
  lemma {:induction false} AfterFramesKeeps(g: Ledger, fs: seq<Shown>)
    requires g.conv.Allocated?
    ensures AfterFrames(g, fs) == g
  {
    if fs != [] {
      AfterFramesKeeps(g, fs[..|fs| - 1]);
    }
  }

  /** The resources end up allocated exactly when they already were or some frame
      found all three allocators succeeding. */
  lemma {:induction false} AfterFramesAllocated(g: Ledger, fs: seq<Shown>)
    ensures AfterFrames(g, fs).conv.Allocated? <==>
              g.conv.Allocated? || exists j :: 0 <= j < |fs| && fs[j].conv.Succeeds()
  {
    if fs != [] {
      var init := fs[..|fs| - 1];
      AfterFramesAllocated(g, init);
      if exists j :: 0 <= j < |init| && init[j].conv.Succeeds() {
        var j :| 0 <= j < |init| && init[j].conv.Succeeds();
        assert fs[j] == init[j];
      }
    }
  }

  /** And then they are sized for the first frame whose allocation succeeded, not
      for the frames that came after it. */
  lemma {:induction false} AfterFramesFirstSuccess(g: Ledger, fs: seq<Shown>, j: nat)
    requires g.conv.Unallocated?
    requires j < |fs| && fs[j].conv.Succeeds()
    requires forall i :: 0 <= i < j ==> !fs[i].conv.Succeeds()
    ensures AfterFrames(g, fs).conv == Allocated(fs[j].width, fs[j].height)
  {
    var init := fs[..|fs| - 1];
    if j == |fs| - 1 {
      assert !AfterFrames(g, init).conv.Allocated? by {
        AfterFramesAllocated(g, init);
        assert forall i :: 0 <= i < |init| ==> init[i] == fs[i];
      }
    } else {
      assert init[j] == fs[j];
      AfterFramesFirstSuccess(g, init, j);
    }
  }

  /** The conversion resources a state holds. */
  function Held(c: ConvState): multiset<Resource>
  {
    if c.Allocated? then multiset{SwsCtx, RgbFrame, RgbFrameBuffer} else multiset{}
  }

  /** Nothing leaked between ledger `g` and a later ledger `h`: what was allocated
      in between was freed again, or is held in `h` and was not held in `g`. */
  ghost predicate Balanced(g: Ledger, h: Ledger)
  {
    multiset(h.acquired) + multiset(g.released) + Held(g.conv)
      == multiset(h.released) + multiset(g.acquired) + Held(h.conv)
  }

  /** Two stretches without a leak make one. */
  lemma BalancedTrans(f: Ledger, g: Ledger, h: Ledger)
    requires Balanced(f, g) && Balanced(g, h)
    ensures Balanced(f, h)
  {
    var lhs := multiset(h.acquired) + multiset(f.released) + Held(f.conv);
    var rhs := multiset(h.released) + multiset(f.acquired) + Held(h.conv);
    forall r: Resource
      ensures lhs[r] == rhs[r]
    {
      // the counts of `r` in the two equations add up, and `g`'s cancel
      assert (multiset(g.acquired) + multiset(f.released) + Held(f.conv))[r]
               == (multiset(g.released) + multiset(f.acquired) + Held(g.conv))[r];
      assert (multiset(h.acquired) + multiset(g.released) + Held(g.conv))[r]
               == (multiset(h.released) + multiset(g.acquired) + Held(h.conv))[r];
    }
    assert lhs == rhs;
  }

  /** `displayFrame` leaks nothing: a failed allocation frees what it made, a
      successful one holds all three resources, and an existing one is kept. */
  lemma DisplayBalanced(g: Ledger, f: Shown)
    ensures Balanced(g, Display(g, f))
  {
    ConvRollbackBalanced(f.conv);
  }

  /** Over any run of frames, what the conversion resources gained is exactly
      what they now hold: the drain loop leaks nothing. */
  lemma {:induction false} AfterFramesBalanced(g: Ledger, fs: seq<Shown>)
    ensures Balanced(g, AfterFrames(g, fs))
  {
    if fs != [] {
      var mid := AfterFrames(g, fs[..|fs| - 1]);
      AfterFramesBalanced(g, fs[..|fs| - 1]);
      DisplayBalanced(mid, fs[|fs| - 1]);
      BalancedTrans(g, mid, AfterFrames(g, fs));
    }
  }
}
