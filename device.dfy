/**
 * The device state of the STK1160 capture driver and the operations that
 * change it: the single-owner guard over open files, the owner-gated ioctls,
 * the videobuf2 queue callbacks and the stream start/stop sequences.
 *
 * What the driver hands to USB, to videobuf2 or to the decoder chip is
 * recorded in an append-only event log; the results those calls return are
 * parameters of the operation that makes them.
 */
module Stk1160 {
  import opened V4l2
  import opened Formats
  import opened Standards
  import opened Alternate

  /** Constants of the driver's headers. */
  datatype Config = Config(
    minPktSize: nat,       // STK1160_MIN_PKT_SIZE
    minVideoBuffers: nat,  // STK1160_MIN_VIDEO_BUFFERS
    maxVideoBuffers: nat,  // STK1160_MAX_VIDEO_BUFFERS
    maxInput: nat,         // STK1160_MAX_INPUT
    numIsocBufs: nat,      // number of isochronous requests stk1160_alloc_isoc sets up
    dctrl: nat,            // STK1160_DCTRL
    regs: Registers,
    norms: NormMasks)

  predicate ValidConfig(c: Config)
  {
    c.minVideoBuffers <= c.maxVideoBuffers && ValidRegisters(c.regs) && ValidMasks(c.norms)
  }

  /** Completion states handed to vb2_buffer_done. */
  datatype VbState = Done | Error

  /** The owner-gated ioctls that pass straight to videobuf2. */
  datatype QueueOp = QueryBuf | QBuf | DqBuf | StreamOn | StreamOff

  datatype Event =
    | WriteReg(reg: nat, val: nat)       // stk1160_write_reg
    | SetInterface(alt: nat)             // usb_set_interface(udev, 0, alt)
    | DecoderStream(enable: bool)        // s_stream broadcast to the decoder
    | DecoderStd(norm: StdId)             // s_std broadcast to the decoder
    | SelectInput(input: nat)            // stk1160_select_input
    | BufferDone(buf: Buffer, state: VbState)  // vb2_buffer_done
    | AllocIsoc                          // stk1160_alloc_isoc
    | SubmitUrb(index: nat)              // usb_submit_urb(urb[index])
    | UninitIsoc                         // stk1160_uninit_isoc
    | CancelIsoc                         // stk1160_cancel_isoc
    | FreeIsoc                           // stk1160_free_isoc
    | Vb2ReqBufs(count: nat)             // vb2_reqbufs
    | Vb2Queue(op: QueueOp)              // vb2_querybuf, vb2_qbuf, ...
    | Vb2QueueRelease                    // vb2_queue_release

  /** An open file of the video node; only its identity matters. */
  class OpenFile { }

  /** A capture buffer (struct stk1160_buffer) as the driver sees it. */
  class Buffer {
    const index: nat
    var length: nat
    var bytesused: nat
    var pos: nat

    constructor (index: nat)
      ensures this.index == index
    {
      this.index := index;
    }
  }

  /** Register writes for the entries of a table, in table order. */
  function WriteEvents(t: seq<RegVal>): seq<Event>
  {
    seq(|t|, i requires 0 <= i < |t| => WriteReg(t[i].reg, t[i].val))
  }

  /** vb2_buffer_done with the same state for each buffer, in list order. */
  function Completed(bufs: seq<Buffer>, state: VbState): seq<Event>
  {
    seq(|bufs|, i requires 0 <= i < |bufs| => BufferDone(bufs[i], state))
  }

  /** Submission attempts for requests 0 .. n-1. */
  function Submits(n: nat): seq<Event>
  {
    seq(n, i requires 0 <= i < n => SubmitUrb(i))
  }

  /** The buffer completions in a stretch of the log, in log order. */
  function Completions(es: seq<Event>): (done: seq<Event>)
    ensures |done| <= |es|
    ensures forall i :: 0 <= i < |done| ==> done[i].BufferDone? && done[i] in es
  {
    if es == [] then []
    else (if es[0].BufferDone? then [es[0]] else []) + Completions(es[1..])
  }

  lemma {:induction false} CompletionsAppend(a: seq<Event>, b: seq<Event>)
    ensures Completions(a + b) == Completions(a) + Completions(b)
  {
    if a == [] {
      assert a + b == b;
    } else {
      assert (a + b)[0] == a[0];
      assert (a + b)[1..] == a[1..] + b;
      CompletionsAppend(a[1..], b);
    }
  }

  lemma {:induction false} CompletionsOfNone(es: seq<Event>)
    requires forall i :: 0 <= i < |es| ==> !es[i].BufferDone?
    ensures Completions(es) == []
  {
    if es != [] {
      CompletionsOfNone(es[1..]);
    }
  }

  lemma {:induction false} CompletionsOfCompleted(bufs: seq<Buffer>, state: VbState)
    ensures Completions(Completed(bufs, state)) == Completed(bufs, state)
  {
    if bufs != [] {
      assert Completed(bufs, state) == [BufferDone(bufs[0], state)] + Completed(bufs[1..], state);
      CompletionsAppend([BufferDone(bufs[0], state)], Completed(bufs[1..], state));
      CompletionsOfCompleted(bufs[1..], state);
    }
  }

  /** The hardware half of a stop, done only while the device is plugged in. */
  function StopHardware(c: Config): seq<Event>
  {
    [SetInterface(0), WriteReg(c.dctrl, 0x00), WriteReg(c.dctrl + 3, 0x00), DecoderStream(false)]
  }

  /** The hardware half of a successful start. */
  function StartHardware(c: Config): seq<Event>
  {
    [DecoderStream(true), WriteReg(c.dctrl, 0xb3), WriteReg(c.dctrl + 3, 0x00)]
  }

  /** Everything stk1160_stop_streaming hands to the outside, in order. */
  function StopEvents(c: Config, keepBuffers: bool, plugged: bool, avail: seq<Buffer>): seq<Event>
  {
    [CancelIsoc]
      + (if keepBuffers then [] else [FreeIsoc])
      + (if plugged then StopHardware(c) else [])
      + Completed(avail, Error)
  }

  /**
   * A stop completes every buffer that was waiting, each once, with the
   * error state and in list order, and completes nothing else.
   */
  lemma StopCompletesExactlyTheWaiting(c: Config, keepBuffers: bool, plugged: bool, avail: seq<Buffer>)
    ensures Completions(StopEvents(c, keepBuffers, plugged, avail)) == Completed(avail, Error)
  {
    var free: seq<Event> := if keepBuffers then [] else [FreeIsoc];
    var hw := if plugged then StopHardware(c) else [];
    var prefix := [CancelIsoc] + free + hw;
    assert StopEvents(c, keepBuffers, plugged, avail) == prefix + Completed(avail, Error);
    CompletionsAppend(prefix, Completed(avail, Error));
    CompletionsAppend([CancelIsoc] + free, hw);
    CompletionsAppend([CancelIsoc], free);
    CompletionsOfNone(prefix);
    CompletionsOfCompleted(avail, Error);
  }

  /** The index of the first failing submission among the first n, or n when all succeed. */
  function FirstFailure(codes: seq<int>, n: nat): (k: nat)
    requires n <= |codes|
    ensures k <= n
    ensures forall j :: 0 <= j < k ==> codes[j] == 0
    ensures k < n ==> codes[k] != 0
  {
    if n == 0 || codes[0] != 0 then 0 else 1 + FirstFailure(codes[1..], n - 1)
  }

  /**
   * The outcome of stk1160_start_streaming once the alternate setting is
   * chosen (`selected` is the log up to that point): with `realloc` the pool
   * is allocated first and a failed allocation returns its code; then the
   * requests are submitted in order, and either the first failure tears the
   * pool down and returns its code, or the decoder and the capture engine
   * are started.
   */
  ghost predicate StartedAs(c: Config, realloc: bool, allocRc: int, submitRc: seq<int>, oldPool: nat,
                            selected: seq<Event>, rc: int, pool: nat, log: seq<Event>)
    requires |submitRc| >= c.numIsocBufs && oldPool <= c.numIsocBufs
  {
    var setup := selected + (if realloc then [AllocIsoc] else []);
    if realloc && allocRc < 0 then
      rc == allocRc && pool == 0 && log == setup
    else
      var n := if realloc then c.numIsocBufs else oldPool;
      var k := FirstFailure(submitRc, n);
      if k < n then
        rc == submitRc[k] && rc != 0 && pool == 0 && log == setup + Submits(k + 1) + [UninitIsoc]
      else
        rc == 0 && pool == n && log == setup + Submits(n) + StartHardware(c)
  }

  /** The device (struct stk1160) with the state the capture core reads and writes. */
  class Device {
    const cfg: Config
    /** The keep_buffers module parameter. */
    const keepBuffers: bool
    /** Maximum packet size of each alternate setting (alt_max_pkt_size[0 .. num_alt-1]). */
    const altMaxPktSize: seq<nat>

    /** Whether the USB handle udev is still there (the disconnect path that clears it is not modelled). */
    var udevPresent: bool
    var alt: nat
    var maxPktSize: nat
    var norm: StdId
    var width: nat
    var height: nat
    var ctlInput: nat
    /** fh_owner: the file that owns the queue, if any. */
    var owner: OpenFile?
    /** isoc_ctl.num_bufs: size of the allocated isochronous request pool. */
    var isocBufs: nat
    /** avail_bufs: buffers waiting to be filled, head first. */
    var availBufs: seq<Buffer>
    /** isoc_ctl.buf: the buffer being filled, if any. */
    var current: Buffer?
    var events: seq<Event>

    ghost predicate Valid()
      reads this
    {
      && ValidConfig(cfg)
      && |altMaxPktSize| > 0 && alt < |altMaxPktSize|
      && (isocBufs == 0 || isocBufs == cfg.numIsocBufs)
      && (forall i, j :: 0 <= i < j < |availBufs| ==> availBufs[i] != availBufs[j])
      && (current != null ==> current !in availBufs)
    }

    /** The stored geometry is the one of the stored standard. */
    ghost predicate GeometryMatchesNorm()
      reads this
    {
      InFamily(cfg.norms, norm) && width == FRAME_WIDTH && height == FrameHeight(cfg.norms, norm)
    }

    /** The state stk1160_video_register leaves: a 525-line default standard, no owner, nothing queued. */
    constructor (cfg: Config, keepBuffers: bool, altMaxPktSize: seq<nat>, defaultNorm: StdId)
      requires ValidConfig(cfg) && |altMaxPktSize| > 0 && Is525(cfg.norms, defaultNorm)
      ensures Valid() && GeometryMatchesNorm()
      ensures this.cfg == cfg && this.keepBuffers == keepBuffers && this.altMaxPktSize == altMaxPktSize
      ensures udevPresent && alt == 0 && norm == defaultNorm && width == 720 && height == 480
      ensures owner == null && isocBufs == 0 && availBufs == [] && current == null && events == []
    {
      this.cfg := cfg;
      this.keepBuffers := keepBuffers;
      this.altMaxPktSize := altMaxPktSize;
      udevPresent := true;
      alt := 0;
      maxPktSize := 0;
      norm := defaultNorm;
      width, height := 720, 480;
      ctlInput := 0;
      owner := null;
      isocBufs := 0;
      availBufs := [];
      current := null;
      events := [];
    }

    // ---------------------------------------------------------------- ownership

    /** Whether stk1160_acquire_owner would let this file in. */
    predicate MayAcquire(file: OpenFile)
      reads this
    {
      owner == null || owner == file
    }

    /** stk1160_is_owner. */
    predicate IsOwner(file: OpenFile): (r: bool)
      reads this
      ensures r ==> MayAcquire(file) && owner != null
      ensures !r && owner != null ==> !MayAcquire(file)
    {
      owner == file
    }

    /** stk1160_acquire_owner: free or already ours, and then ours. */
    method AcquireOwner(file: OpenFile) returns (ok: bool)
      modifies this`owner
      ensures ok <==> old(MayAcquire(file))
      ensures owner == if ok then file else old(owner)
    {
      if owner != null && owner != file {
        return false;
      }
      owner := file;
      ok := true;
    }

    /** stk1160_drop_owner: no owner afterwards, whatever there was. */
    method DropOwner()
      modifies this`owner
      ensures owner == null
    {
      owner := null;
    }

    // ---------------------------------------------------------------- ioctls

    /**
     * vidioc_querybuf, vidioc_qbuf, vidioc_dqbuf, vidioc_streamon and
     * vidioc_streamoff: only the owner reaches videobuf2.
     */
    method QueueIoctl(file: OpenFile, op: QueueOp, vb2Rc: int) returns (rc: int)
      modifies this`events
      ensures !IsOwner(file) ==> rc == -EBUSY && events == old(events)
      ensures IsOwner(file) ==> rc == vb2Rc && events == old(events) + [Vb2Queue(op)]
    {
      if !IsOwner(file) {
        return -EBUSY;
      }
      events := events + [Vb2Queue(op)];
      rc := vb2Rc;
    }

    /**
     * vidioc_reqbufs: claims the queue, passes the request to videobuf2 and,
     * when the count it leaves is zero, gives the queue up again.
     * `countAfter` is the count field as vb2_reqbufs leaves it.
     */
    method ReqBufs(file: OpenFile, count: nat, countAfter: nat, vb2Rc: int) returns (rc: int)
      requires count == 0 ==> countAfter == 0
      modifies this`owner, this`events
      ensures !old(MayAcquire(file)) ==> rc == -EBUSY && owner == old(owner) && events == old(events)
      ensures old(MayAcquire(file)) ==> rc == vb2Rc && events == old(events) + [Vb2ReqBufs(count)]
      ensures old(MayAcquire(file)) ==> owner == if countAfter == 0 then null else file
      ensures old(MayAcquire(file)) && count == 0 ==> owner == null
    {
      var ok := AcquireOwner(file);
      if !ok {
        return -EBUSY;
      }
      events := events + [Vb2ReqBufs(count)];
      rc := vb2Rc;
      if countAfter == 0 {
        DropOwner();
      }
    }

    /** stk1160_close: the owner's queue is released and the queue left without owner. */
    method Close(file: OpenFile, releaseRc: int) returns (rc: int)
      modifies this`owner, this`events
      ensures old(owner) == file ==> owner == null && events == old(events) + [Vb2QueueRelease]
      ensures old(owner) != file ==> owner == old(owner) && events == old(events)
      ensures rc == releaseRc
    {
      if IsOwner(file) {
        events := events + [Vb2QueueRelease];
        DropOwner();
      }
      rc := releaseRc;
    }

    /**
     * vidioc_s_fmt_vid_cap: claims the queue, then answers as try_fmt does,
     * except that a streaming queue refuses a format try_fmt accepted.
     */
    method SetFormat(file: OpenFile, f: PixFormat, streaming: bool) returns (rc: int, out: PixFormat)
      modifies this`owner
      ensures !old(MayAcquire(file)) ==> rc == -EBUSY && out == f && owner == old(owner)
      ensures old(MayAcquire(file)) ==> owner == file && out == TryFormat(f, width, height).fmt
      ensures old(MayAcquire(file)) && f.pixelformat != PIX_FMT_UYVY ==> rc == -EINVAL
      ensures old(MayAcquire(file)) && f.pixelformat == PIX_FMT_UYVY ==> rc == if streaming then -EBUSY else 0
    {
      out := f;
      var ok := AcquireOwner(file);
      if !ok {
        return -EBUSY, out;
      }
      var reply := TryFormat(f, width, height);
      out := reply.fmt;
      if reply.rc < 0 {
        return reply.rc, out;
      }
      if streaming {
        return -EBUSY, out;
      }
      rc := 0;
    }

    /**
     * stk1160_set_std: walks the table of the stored standard up to its
     * sentinel, writing each entry. The stored standard must be in one of
     * the two families (the source stops the kernel otherwise).
     */
    method SetStd()
      requires Valid() && InFamily(cfg.norms, norm)
      modifies this`events
      ensures Is525(cfg.norms, norm) ==> events == old(events) + WriteEvents(Std525Table(cfg.regs)[..8])
      ensures !Is525(cfg.norms, norm) ==> events == old(events) + WriteEvents(Std625Table(cfg.regs)[..8])
    {
      var table := StdTable(cfg.regs, cfg.norms, norm);
      var i := 0;
      while table[i].reg != SENTINEL
        invariant 0 <= i <= 8
        invariant events == old(events) + WriteEvents(table[..i])
        decreases 8 - i
      {
        events := events + [WriteReg(table[i].reg, table[i].val)];
        i := i + 1;
        assert WriteEvents(table[..i]) == WriteEvents(table[..i - 1]) + [WriteReg(table[i - 1].reg, table[i - 1].val)];
      }
    }

    /**
     * vidioc_s_std as written: the new width and height are chosen from the
     * standard stored BEFORE the call, and only then is the requested
     * standard stored and programmed. `streaming` is what vb2_is_streaming
     * answers.
     */
    method SetStandard(file: OpenFile, requested: StdId, streaming: bool) returns (rc: int)
      requires Valid()
      requires MayAcquire(file) && !streaming && udevPresent && InFamily(cfg.norms, norm)
               ==> InFamily(cfg.norms, requested)
      modifies this`owner, this`norm, this`width, this`height, this`events
      ensures Valid()
      ensures !old(MayAcquire(file)) ==> rc == -EBUSY && owner == old(owner)
      ensures old(MayAcquire(file)) ==> owner == file
      ensures rc != 0 ==> norm == old(norm) && width == old(width) && height == old(height) && events == old(events)
      ensures old(MayAcquire(file)) && streaming ==> rc == -EBUSY
      ensures old(MayAcquire(file)) && !streaming && !udevPresent ==> rc == -ENODEV
      ensures old(MayAcquire(file)) && !streaming && udevPresent && !InFamily(cfg.norms, old(norm)) ==> rc == -EINVAL
      ensures old(MayAcquire(file)) && !streaming && udevPresent && InFamily(cfg.norms, old(norm)) ==>
                && rc == 0 && norm == requested
                && width == FRAME_WIDTH && height == FrameHeight(cfg.norms, old(norm))
                && events == old(events) + WriteEvents(StdTable(cfg.regs, cfg.norms, requested)[..8]) + [DecoderStd(requested)]
    {
      var ok := AcquireOwner(file);
      if !ok {
        return -EBUSY;
      }
      if streaming {
        return -EBUSY;
      }
      if !udevPresent {
        return -ENODEV;
      }
      if Is525(cfg.norms, norm) {
        width, height := 720, 480;
      } else if Is625(cfg.norms, norm) {
        width, height := 720, 576;
      } else {
        return -EINVAL;
      }
      norm := requested;
      SetStd();
      events := events + [DecoderStd(norm)];
      rc := 0;
    }

    /**
     * vidioc_s_std as evidently intended: the geometry is chosen from the
     * requested standard, so the stored width and height always match the
     * stored standard and the registers just programmed.
     */
    method SetStandardIntended(file: OpenFile, requested: StdId, streaming: bool) returns (rc: int)
      requires Valid()
      modifies this`owner, this`norm, this`width, this`height, this`events
      ensures Valid()
      ensures !old(MayAcquire(file)) ==> rc == -EBUSY && owner == old(owner)
      ensures old(MayAcquire(file)) ==> owner == file
      ensures rc != 0 ==> norm == old(norm) && width == old(width) && height == old(height) && events == old(events)
      ensures old(MayAcquire(file)) && streaming ==> rc == -EBUSY
      ensures old(MayAcquire(file)) && !streaming && !udevPresent ==> rc == -ENODEV
      ensures old(MayAcquire(file)) && !streaming && udevPresent && !InFamily(cfg.norms, requested) ==> rc == -EINVAL
      ensures old(MayAcquire(file)) && !streaming && udevPresent ==> (rc == 0 <==> InFamily(cfg.norms, requested))
      ensures rc == 0 ==> norm == requested && GeometryMatchesNorm()
      ensures rc == 0 ==> events == old(events) + WriteEvents(StdTable(cfg.regs, cfg.norms, norm)[..8]) + [DecoderStd(norm)]
    {
      var ok := AcquireOwner(file);
      if !ok {
        return -EBUSY;
      }
      if streaming {
        return -EBUSY;
      }
      if !udevPresent {
        return -ENODEV;
      }
      if !InFamily(cfg.norms, requested) {
        return -EINVAL;
      }
      width, height := FRAME_WIDTH, FrameHeight(cfg.norms, requested);
      norm := requested;
      SetStd();
      events := events + [DecoderStd(norm)];
      rc := 0;
    }

    /** vidioc_s_input: claims the queue, then accepts any input up to the largest. */
    method SetInput(file: OpenFile, i: nat) returns (rc: int)
      modifies this`owner, this`ctlInput, this`events
      ensures !old(MayAcquire(file)) ==> rc == -EBUSY && owner == old(owner)
      ensures old(MayAcquire(file)) ==> owner == file && rc == (if i > cfg.maxInput then -EINVAL else 0)
      ensures old(MayAcquire(file)) ==> rc == EnumInput(i, cfg.maxInput)
      ensures rc == 0 ==> ctlInput == i && events == old(events) + [SelectInput(i)]
      ensures rc != 0 ==> ctlInput == old(ctlInput) && events == old(events)
    {
      var ok := AcquireOwner(file);
      if !ok {
        return -EBUSY;
      }
      if i > cfg.maxInput {
        return -EINVAL;
      }
      ctlInput := i;
      events := events + [SelectInput(i)];
      rc := 0;
    }

    // ---------------------------------------------------------------- videobuf2 callbacks

    /**
     * buffer_queue: with the device gone, or a buffer too small for a frame,
     * the buffer goes straight back with the error state; otherwise it is
     * reset and joins the tail of the waiting list. `planeSize` is what
     * vb2_plane_size reports.
     */
    method BufferQueue(buf: Buffer, planeSize: nat)
      requires Valid() && buf !in availBufs && buf != current
      modifies this`availBufs, this`events, buf
      ensures Valid()
      ensures !udevPresent ==> events == old(events) + [BufferDone(buf, Error)] && availBufs == old(availBufs)
      ensures !udevPresent ==> buf.length == old(buf.length) && buf.bytesused == old(buf.bytesused) && buf.pos == old(buf.pos)
      ensures udevPresent ==> buf.length == planeSize && buf.bytesused == 0 && buf.pos == 0
      ensures udevPresent && planeSize < FrameSize(width, height) ==>
                events == old(events) + [BufferDone(buf, Error)] && availBufs == old(availBufs)
      ensures udevPresent && planeSize >= FrameSize(width, height) ==>
                events == old(events) && availBufs == old(availBufs) + [buf]
    {
      if !udevPresent {
        events := events + [BufferDone(buf, Error)];
      } else {
        buf.length := planeSize;
        buf.bytesused := 0;
        buf.pos := 0;
        if buf.length < FrameSize(width, height) {
          events := events + [BufferDone(buf, Error)];
        } else {
          availBufs := availBufs + [buf];
        }
      }
    }

    /**
     * stk1160_set_alternate: scans the settings for the first one with
     * enough bandwidth (falling back to the largest), switches the interface
     * only if the choice changed, and reports whether the packet size did.
     */
    method SetAlternate() returns (newPktSize: bool)
      requires Valid()
      modifies this`alt, this`maxPktSize, this`events
      ensures Valid()
      ensures alt == ChosenAlt(altMaxPktSize, cfg.minPktSize, old(alt))
      ensures maxPktSize == altMaxPktSize[alt]
      ensures newPktSize <==> old(maxPktSize) != maxPktSize
      ensures events == old(events) + (if alt != old(alt) then [SetInterface(alt)] else [])
    {
      var prevAlt := alt;
      var i := 0;
      while i < |altMaxPktSize|
        invariant 0 <= i <= |altMaxPktSize| && alt < |altMaxPktSize|
        invariant AltScan(altMaxPktSize, cfg.minPktSize, alt, i) == ChosenAlt(altMaxPktSize, cfg.minPktSize, prevAlt)
        invariant maxPktSize == old(maxPktSize) && events == old(events)
      {
        if altMaxPktSize[i] >= cfg.minPktSize {
          alt := i;
          break;
        } else if altMaxPktSize[i] > altMaxPktSize[alt] {
          alt := i;
        }
        i := i + 1;
      }
      if alt != prevAlt {
        events := events + [SetInterface(alt)];
      }
      newPktSize := maxPktSize != altMaxPktSize[alt];
      maxPktSize := altMaxPktSize[alt];
    }

    /**
     * The submission loop of stk1160_start_streaming: submits request after
     * request; the first failure tears the pool down (stk1160_uninit_isoc)
     * and its code is returned. `submitRc[i]` is what usb_submit_urb returns
     * for request i.
     */
    method SubmitAll(submitRc: seq<int>) returns (rc: int)
      requires Valid() && |submitRc| >= isocBufs
      modifies this`events, this`isocBufs
      ensures Valid()
      ensures var k := FirstFailure(submitRc, old(isocBufs));
              if k < old(isocBufs) then
                rc == submitRc[k] && rc != 0 && isocBufs == 0
                && events == old(events) + Submits(k + 1) + [UninitIsoc]
              else
                rc == 0 && isocBufs == old(isocBufs) && events == old(events) + Submits(k)
    {
      ghost var n := isocBufs;
      rc := 0;
      var i := 0;
      while i < isocBufs
        invariant 0 <= i <= isocBufs == n <= |submitRc|
        invariant forall j :: 0 <= j < i ==> submitRc[j] == 0
        invariant events == old(events) + Submits(i)
        invariant rc == 0
      {
        events := events + [SubmitUrb(i)];
        assert Submits(i + 1) == Submits(i) + [SubmitUrb(i)];
        rc := submitRc[i];
        if rc != 0 {
          events := events + [UninitIsoc];
          isocBufs := 0;
          assert FirstFailure(submitRc, n) == i;
          return rc;
        }
        i := i + 1;
      }
      assert FirstFailure(submitRc, n) == n;
    }

    /**
     * stk1160_start_streaming. `allocRc` is what stk1160_alloc_isoc returns
     * and `submitRc[i]` what usb_submit_urb returns for request i. The pool
     * is (re)allocated when there is none or the packet size changed; only a
     * complete submission starts the decoder and the capture engine.
     */
    method StartStreaming(allocRc: int, submitRc: seq<int>) returns (rc: int)
      requires Valid() && |submitRc| >= cfg.numIsocBufs
      modifies this`alt, this`maxPktSize, this`events, this`isocBufs
      ensures Valid()
      ensures !old(udevPresent) ==>
                && rc == -ENODEV && alt == old(alt) && maxPktSize == old(maxPktSize)
                && isocBufs == old(isocBufs) && events == old(events)
      ensures old(udevPresent) ==>
                alt == ChosenAlt(altMaxPktSize, cfg.minPktSize, old(alt)) && maxPktSize == altMaxPktSize[alt]
      ensures old(udevPresent) ==>
                StartedAs(cfg, old(isocBufs) == 0 || old(maxPktSize) != maxPktSize, allocRc, submitRc, old(isocBufs),
                          old(events) + (if alt != old(alt) then [SetInterface(alt)] else []),
                          rc, isocBufs, events)
    {
      if !udevPresent {
        return -ENODEV;
      }
      var newPktSize := SetAlternate();
      ghost var selected := events;
      ghost var oldPool := isocBufs;
      if isocBufs == 0 || newPktSize {
        events := events + [AllocIsoc];
        if allocRc < 0 {
          isocBufs := 0;
          return allocRc;
        }
        isocBufs := cfg.numIsocBufs;
      }
      ghost var setup := events;
      rc := SubmitAll(submitRc);
      if rc != 0 {
        return rc;
      }
      events := events + StartHardware(cfg);
      assert events == setup + Submits(FirstFailure(submitRc, isocBufs)) + StartHardware(cfg);
    }

    /**
     * The release of all waiting buffers at the end of
     * stk1160_stop_streaming: each is taken off the head of the list and
     * handed back with the error state, and the buffer being filled is
     * forgotten.
     */
    method ReleaseAll()
      requires Valid()
      modifies this`availBufs, this`events, this`current
      ensures Valid()
      ensures availBufs == [] && current == null
      ensures events == old(events) + Completed(old(availBufs), Error)
    {
      ghost var k := 0;
      while availBufs != []
        invariant 0 <= k <= |old(availBufs)| && availBufs == old(availBufs)[k..]
        invariant events == old(events) + Completed(old(availBufs)[..k], Error)
        decreases |availBufs|
      {
        var buf := availBufs[0];
        availBufs := availBufs[1..];
        events := events + [BufferDone(buf, Error)];
        k := k + 1;
        assert Completed(old(availBufs)[..k], Error) == Completed(old(availBufs)[..k - 1], Error) + [BufferDone(buf, Error)];
      }
      assert old(availBufs)[..k] == old(availBufs);
      current := null;
    }

    /**
     * stk1160_stop_streaming: cancels the requests, frees the pool unless
     * buffers are kept, stops the hardware only if it is still plugged in,
     * and always hands every waiting buffer back with the error state.
     */
    method StopStreaming(connected: bool) returns (rc: int)
      requires Valid()
      modifies this`events, this`isocBufs, this`alt, this`availBufs, this`current
      ensures Valid()
      ensures rc == 0
      ensures availBufs == [] && current == null
      ensures isocBufs == if keepBuffers then old(isocBufs) else 0
      ensures alt == if connected && udevPresent then 0 else old(alt)
      ensures events == old(events) + StopEvents(cfg, keepBuffers, connected && udevPresent, old(availBufs))
    {
      ghost var waiting := availBufs;
      ghost var plugged := connected && udevPresent;
      events := events + [CancelIsoc];
      if !keepBuffers {
        events := events + [FreeIsoc];
        isocBufs := 0;
      }
      if connected && udevPresent {
        alt := 0;
        events := events + StopHardware(cfg);
      }
      assert events == old(events) + ([CancelIsoc] + (if keepBuffers then [] else [FreeIsoc])
                                                   + (if plugged then StopHardware(cfg) else []));
      ReleaseAll();
      assert events == old(events) + StopEvents(cfg, keepBuffers, plugged, waiting);
      rc := 0;
    }

    /** A second stop right after a first completes no buffer that the first did not. */
    method StopTwice(connected: bool) returns (rc1: int, rc2: int)
      requires Valid()
      modifies this`events, this`isocBufs, this`alt, this`availBufs, this`current
      ensures Valid() && rc1 == 0 && rc2 == 0
      ensures availBufs == [] && current == null
      ensures |old(events)| <= |events|
      ensures Completions(events[|old(events)|..]) == Completed(old(availBufs), Error)
    {
      ghost var e0 := events;
      ghost var waiting := availBufs;
      rc1 := StopStreaming(connected);
      ghost var e1 := events;
      ghost var plugged1 := connected && udevPresent;
      rc2 := StopStreaming(connected);
      ghost var plugged2 := connected && udevPresent;
      assert events[|e0|..] == StopEvents(cfg, keepBuffers, plugged1, waiting) + StopEvents(cfg, keepBuffers, plugged2, []);
      CompletionsAppend(StopEvents(cfg, keepBuffers, plugged1, waiting), StopEvents(cfg, keepBuffers, plugged2, []));
      StopCompletesExactlyTheWaiting(cfg, keepBuffers, plugged1, waiting);
      StopCompletesExactlyTheWaiting(cfg, keepBuffers, plugged2, []);
    }
  }

  /**
   * vidioc_s_std as written, on a device set to a 525-line standard and asked
   * for the 625-line family: the 625-line registers are programmed and the
   * 625-line standard stored, but the geometry stays 720x480.
   */
  method SwitchTo625KeepsStaleGeometry(d: Device, file: OpenFile) returns (rc: int)
    requires d.Valid() && d.udevPresent && d.owner == null && Is525(d.cfg.norms, d.norm)
    modifies d
    ensures rc == 0 && d.norm == d.cfg.norms.std625 && !Is525(d.cfg.norms, d.norm)
    ensures d.height == 480 && FrameHeight(d.cfg.norms, d.norm) == 576
    ensures !d.GeometryMatchesNorm()
  {
    MasksInOwnFamily(d.cfg.norms);
    rc := d.SetStandard(file, d.cfg.norms.std625, false);
  }

  /** The intended vidioc_s_std on the same switch leaves the 625-line geometry. */
  method SwitchTo625UpdatesGeometry(d: Device, file: OpenFile) returns (rc: int)
    requires d.Valid() && d.udevPresent && d.owner == null && Is525(d.cfg.norms, d.norm)
    modifies d
    ensures rc == 0 && d.norm == d.cfg.norms.std625
    ensures d.height == 576 && d.GeometryMatchesNorm()
  {
    MasksInOwnFamily(d.cfg.norms);
    rc := d.SetStandardIntended(file, d.cfg.norms.std625, false);
  }
}
