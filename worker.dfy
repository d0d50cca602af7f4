/** The capture worker of the plugin (`input_run`, `worker_thread`, `switch_resolution`,
    `worker_cleanup`): it streams frames at the configured size and, when an output asks for a
    snapshot, reconfigures the camera to the snapshot size for one frame and back again.

    The pure part states what one pass of the capture loop does to the worker's state; the class
    `CaptureWorker` performs the same passes by updating its fields, and is proved against it.
    Everything the camera, the encoder or the host decide (whether a reset or an allocation
    succeeds, which geometry the camera reports, whether a frame was ready, how large the JPEG
    came out, whether a snapshot was asked for) is an argument. */
module Worker {
  import opened Common
  import opened Init

  /** The size and buffer count the worker saves when it starts, and returns to after every
      snapshot. */
  datatype Steady = Steady(width: U32, height: U32, bufferCount: int)

  /** A call the worker makes on the running camera: a successful `resetCamera` to a
      configuration, or `returnFrameBuffer` giving a captured frame back. */
  datatype CameraCall = Reset(config: StreamConfig) | ReturnFrame

  /** The camera as the worker sees it: the configuration last requested, whether it is started
      and open, and the resets and frame returns made on it, in order. */
  datatype Camera = Camera(config: StreamConfig, running: bool, open: bool, calls: seq<CameraCall>)

  /** How many frames have been given back to the camera. */
  function Returned(calls: seq<CameraCall>): nat {
    multiset(calls)[ReturnFrame]
  }

  /** What `VideoStream` reports about the current stream. */
  datatype Geometry = Geometry(width: U32, height: U32, stride: U32)

  /** The outcome of the steps of `switch_resolution`: whether `resetCamera` returned 0, the
      geometry the camera then reports, and whether `realloc` of the frame buffer succeeded. */
  datatype SwitchReply = SwitchReply(resetOk: bool, geometry: Geometry, reallocOk: bool)

  /** One pass of the capture loop: whether an output set `in->snapshot` before it, the reply
      to a switch to the snapshot size, the frame `readFrame` delivered (the size of its JPEG) or
      None, and the reply to the switch back. Replies that the pass does not need are ignored. */
  datatype Cycle = Cycle(request: bool, toSnapshot: SwitchReply, frame: Option<nat>, toSteady: SwitchReply)

  /** A frame published to the outputs (`pthread_cond_broadcast`): the camera configuration and
      `vdIn` geometry it was captured and encoded with, the JPEG quality and its size. */
  datatype Broadcast = Broadcast(config: StreamConfig, video: VideoIn, quality: int, size: nat)

  /** The worker's state: its saved steady size and quality, `is_switch`, `in->snapshot`,
      `vdIn`, the camera, the capacity of `in->buf`, `in->size`, whether `in->context` is
      still allocated, and the frames published so far. */
  datatype WorkerState = WorkerState(
    steady: Steady, quality: int, isSwitch: bool, snapshot: bool, video: VideoIn, camera: Camera,
    capacity: U32, size: nat, context: bool, broadcasts: seq<Broadcast>)

  /** A state from which the loop goes on, or the state in which the process exits. */
  datatype Outcome = Running(state: WorkerState) | Exited(state: WorkerState)

  /** What a switch to the snapshot size asks of the camera: one buffer, no rotation. */
  function SnapshotConfig(video: VideoIn): StreamConfig {
    StreamConfig(video.snapshotWidth, video.snapshotHeight, 1, 0)
  }

  /** What a switch back to the steady size asks of the camera: no rotation. */
  function SteadyConfig(steady: Steady): StreamConfig {
    StreamConfig(steady.width, steady.height, steady.bufferCount, 0)
  }

  /** `vdIn` after `VideoStream` reported the given geometry. */
  function WithGeometry(video: VideoIn, g: Geometry): VideoIn {
    video.(width := g.width, height := g.height, stride := g.stride)
  }

  /** The saved size differs from the snapshot size, so a snapshot needs a switch. */
  predicate SnapshotDiffers(st: WorkerState) {
    st.steady.width != st.video.snapshotWidth || st.steady.height != st.video.snapshotHeight
  }

  /** A switch fails when the reset or the reallocation fails. */
  predicate Failed(r: SwitchReply) {
    !r.resetOk || !r.reallocOk
  }

  /** `worker_cleanup`: the context is released (if it was still held); nothing else changes. */
  function CleanedUp(st: WorkerState): WorkerState {
    st.(context := false)
  }

  /** The end of `worker_thread` once the host stops it: the camera is stopped and closed, then
      the cleanup handler runs. */
  function Finished(st: WorkerState): WorkerState {
    CleanedUp(st.(camera := st.camera.(running := false, open := false)))
  }

  /** The invariant the capture loop keeps between passes: a positive buffer count, a JPEG
      quality in [0, 100], a started and open camera, configured at the snapshot size while a
      snapshot is pending and at the steady size otherwise. */
  ghost predicate Inv(st: WorkerState) {
    && st.steady.bufferCount >= 1
    && 0 <= st.quality <= 100
    && st.camera.running && st.camera.open
    && (st.isSwitch ==> st.camera.config == SnapshotConfig(st.video))
    && (!st.isSwitch ==> st.camera.config.width == st.steady.width && st.camera.config.height == st.steady.height
                         && st.camera.config.bufferCount == st.steady.bufferCount)
  }

  /** `switch_resolution`: a failed reset leaves the camera alone and exits; a successful one
      records the new configuration (always unrotated) and the geometry the camera reports, and
      the frame buffer is reallocated to width * height bytes, computed in 32 bits; a failed
      reallocation leaves no buffer and exits. Exiting releases the context. Nothing else changes. */
  function Switched(st: WorkerState, width: U32, height: U32, bufferCount: int, reply: SwitchReply): (o: Outcome)
    requires st.context
    ensures o.Exited? <==> Failed(reply)
    ensures o.Running? <==> o.state.context
    ensures o.state.camera.config == (if reply.resetOk then StreamConfig(width, height, bufferCount, 0) else st.camera.config)
    ensures o.state.camera.calls == st.camera.calls + (if reply.resetOk then [Reset(StreamConfig(width, height, bufferCount, 0))] else [])
    ensures o.state.camera.running == st.camera.running && o.state.camera.open == st.camera.open
    ensures reply.resetOk ==> o.state.video.width == reply.geometry.width && o.state.video.height == reply.geometry.height
                              && o.state.video.stride == reply.geometry.stride
    ensures o.state.video.snapshotWidth == st.video.snapshotWidth && o.state.video.snapshotHeight == st.video.snapshotHeight
    ensures o.Running? ==> o.state.capacity == Wrap32(reply.geometry.width * reply.geometry.height)
    ensures !reply.resetOk ==> o.state.video == st.video && o.state.capacity == st.capacity
    ensures o.state.(camera := st.camera, video := st.video, capacity := st.capacity, context := true) == st
  {
    if !reply.resetOk then Exited(CleanedUp(st))
    else
      var config := StreamConfig(width, height, bufferCount, 0);
      var g := reply.geometry;
      var reset := st.(camera := st.camera.(config := config, calls := st.camera.calls + [Reset(config)]),
                       video := st.video.(width := g.width, height := g.height, stride := g.stride));
      if !reply.reallocOk then Exited(CleanedUp(reset.(capacity := 0)))
      else Running(reset.(capacity := Wrap32(g.width * g.height)))
  }

  /** A pass switches to the snapshot size: a snapshot is pending and its size differs from the
      saved one. */
  predicate SwitchesToSnapshot(st: WorkerState, c: Cycle) {
    (st.snapshot || c.request) && SnapshotDiffers(st)
  }

  /** A pass switches back: it read a frame while the camera was at the snapshot size. */
  predicate SwitchesBack(st: WorkerState, c: Cycle) {
    c.frame.Some? && (st.isSwitch || SwitchesToSnapshot(st, c))
  }

  /** The snapshot block of a pass: a pending snapshot (set before this pass or earlier) whose
      size differs from the saved one switches the camera to it, with one buffer; the request is
      consumed either way. With nothing pending, nothing happens. */
  function AfterRequest(st: WorkerState, c: Cycle): (o: Outcome)
    requires st.context
    ensures o.Running? <==> o.state.context
    ensures o.Exited? <==> SwitchesToSnapshot(st, c) && Failed(c.toSnapshot)
    ensures !st.snapshot && !c.request ==> o == Running(st)
    ensures o.Running? ==> !o.state.snapshot && o.state.isSwitch == (st.isSwitch || SwitchesToSnapshot(st, c))
    ensures o.state.steady == st.steady && o.state.quality == st.quality
    ensures o.state.video.snapshotWidth == st.video.snapshotWidth && o.state.video.snapshotHeight == st.video.snapshotHeight
    ensures o.state.broadcasts == st.broadcasts && o.state.size == st.size
    ensures o.state.camera.calls ==
              st.camera.calls + (if SwitchesToSnapshot(st, c) && c.toSnapshot.resetOk then [Reset(SnapshotConfig(st.video))] else [])
    ensures Inv(st) && o.Running? ==> Inv(o.state)
    ensures Inv(st) && o.Running? && (st.snapshot || c.request || st.isSwitch) ==>
              o.state.camera.config.width == st.video.snapshotWidth && o.state.camera.config.height == st.video.snapshotHeight
  {
    var pending := st.(snapshot := st.snapshot || c.request);
    if !pending.snapshot then Running(pending)
    else if !SnapshotDiffers(pending) then Running(pending.(snapshot := false))
    else
      var switched := Switched(pending, pending.video.snapshotWidth, pending.video.snapshotHeight, 1, c.toSnapshot);
      if switched.Exited? then switched
      else Running(switched.state.(isSwitch := true, snapshot := false))
  }

  /** The frame block of a pass: without a frame nothing happens; otherwise the frame is encoded
      into the buffer with the current geometry, `in->size` is its size, it is published and
      given back to the camera, and only then is a camera at the snapshot size switched back to
      the saved steady size. */
  function AfterFrame(st: WorkerState, c: Cycle): (o: Outcome)
    requires st.context
    ensures o.Running? <==> o.state.context
    ensures o.Exited? <==> c.frame.Some? && st.isSwitch && Failed(c.toSteady)
    ensures c.frame.None? ==> o == Running(st)
    ensures c.frame.Some? ==>
              && o.state.broadcasts == st.broadcasts + [Broadcast(st.camera.config, st.video, st.quality, c.frame.value)]
              && o.state.size == c.frame.value
    ensures c.frame.Some? && o.Running? ==> !o.state.isSwitch
    ensures o.state.steady == st.steady && o.state.quality == st.quality && o.state.snapshot == st.snapshot
    ensures o.state.video.snapshotWidth == st.video.snapshotWidth && o.state.video.snapshotHeight == st.video.snapshotHeight
    // the frame goes back to the camera before any switch back
    ensures o.state.camera.calls ==
              st.camera.calls + (if c.frame.Some?
                                 then [ReturnFrame] + (if st.isSwitch && c.toSteady.resetOk then [Reset(SteadyConfig(st.steady))] else [])
                                 else [])
    ensures Inv(st) && o.Running? ==> Inv(o.state)
    ensures Inv(st) && o.Running? && c.frame.Some? && st.isSwitch ==> o.state.camera.config == SteadyConfig(st.steady)
  {
    match c.frame
    case None => Running(st)
    case Some(n) =>
      var published := st.(size := n, broadcasts := st.broadcasts + [Broadcast(st.camera.config, st.video, st.quality, n)],
                           camera := st.camera.(calls := st.camera.calls + [ReturnFrame]));
      if !published.isSwitch then Running(published)
      else
        var back := Switched(published, published.steady.width, published.steady.height, published.steady.bufferCount, c.toSteady);
        if back.Exited? then back else Running(back.state.(isSwitch := false))
  }

  /** One pass of `worker_thread`'s loop: the snapshot block, then, unless it ended the process,
      the frame block. The pass keeps the loop invariant and consumes any snapshot request. */
  function AfterIteration(st: WorkerState, c: Cycle): (o: Outcome)
    requires st.context
    ensures o.Running? <==> o.state.context
    ensures o.state.steady == st.steady && o.state.quality == st.quality
    ensures o.state.video.snapshotWidth == st.video.snapshotWidth && o.state.video.snapshotHeight == st.video.snapshotHeight
    ensures st.camera.calls <= o.state.camera.calls
    ensures st.broadcasts <= o.state.broadcasts
    ensures Inv(st) && o.Running? ==> Inv(o.state) && !o.state.snapshot
  {
    var requested := AfterRequest(st, c);
    if requested.Exited? then requested else AfterFrame(requested.state, c)
  }

  /** A pass ends the process exactly when a switch it makes fails: the switch to a pending
      snapshot's size, or the switch back after reading a frame at that size. */
  lemma PassExitsOnlyOnFailedSwitch(st: WorkerState, c: Cycle)
    requires st.context
    ensures AfterIteration(st, c).Exited? <==>
              || (SwitchesToSnapshot(st, c) && Failed(c.toSnapshot))
              || (!(SwitchesToSnapshot(st, c) && Failed(c.toSnapshot)) && SwitchesBack(st, c) && Failed(c.toSteady))
  {
  }

  /** A pass publishes one frame exactly when it reads one, and nothing otherwise; a frame read
      while a snapshot is pending (requested now, earlier, or switched to in an earlier pass) is
      captured at the snapshot size, any other one with the camera's configuration as it was. */
  lemma PassPublishesFrame(st: WorkerState, c: Cycle)
    requires st.context && Inv(st)
    ensures var o := AfterIteration(st, c);
            && (o.Running? && c.frame.None? ==> o.state.broadcasts == st.broadcasts && o.state.size == st.size)
            && (o.Running? && c.frame.Some? ==>
                  && |o.state.broadcasts| == |st.broadcasts| + 1
                  && o.state.size == c.frame.value == o.state.broadcasts[|st.broadcasts|].size
                  && !o.state.isSwitch)
            && (o.Running? && c.frame.Some? && (st.snapshot || c.request || st.isSwitch) ==>
                  && o.state.broadcasts[|st.broadcasts|].config.width == st.video.snapshotWidth
                  && o.state.broadcasts[|st.broadcasts|].config.height == st.video.snapshotHeight)
            && (o.Running? && c.frame.Some? && !(st.snapshot || c.request || st.isSwitch) ==>
                  o.state.broadcasts[|st.broadcasts|].config == st.camera.config)
  {
  }

  /** The loop run over a sequence of passes, stopping at the first one that exits. */
  function AfterLoop(st: WorkerState, cycles: seq<Cycle>): (o: Outcome)
    requires st.context
    ensures o.Running? <==> o.state.context
    decreases |cycles|
  {
    if cycles == [] then Running(st)
    else
      var before := AfterLoop(st, cycles[..|cycles| - 1]);
      if before.Exited? then before else AfterIteration(before.state, cycles[|cycles| - 1])
  }

  /** A run of passes keeps the loop invariant, the saved steady size, the quality and the
      snapshot size, and only appends to the camera calls and the published frames. */
  lemma {:induction false} LoopKeepsInvariant(st: WorkerState, cycles: seq<Cycle>)
    requires st.context
    ensures var o := AfterLoop(st, cycles);
            && o.state.steady == st.steady && o.state.quality == st.quality
            && o.state.video.snapshotWidth == st.video.snapshotWidth && o.state.video.snapshotHeight == st.video.snapshotHeight
            && st.camera.calls <= o.state.camera.calls
            && st.broadcasts <= o.state.broadcasts
            && (Inv(st) && o.Running? ==> Inv(o.state))
    decreases |cycles|
  {
    if cycles != [] {
      LoopKeepsInvariant(st, cycles[..|cycles| - 1]);
    }
  }

  /** Running more passes after an outcome. */
  function Then(o: Outcome, cycles: seq<Cycle>): Outcome
    requires o.Running? ==> o.state.context
  {
    if o.Exited? then o else AfterLoop(o.state, cycles)
  }

  /** Running two stretches of passes one after the other is running them together. */
  lemma {:induction false} LoopConcat(st: WorkerState, first: seq<Cycle>, second: seq<Cycle>)
    requires st.context
    ensures AfterLoop(st, first + second) == Then(AfterLoop(st, first), second)
    decreases |second|
  {
    if second == [] {
      assert first + second == first;
    } else {
      var all := first + second;
      assert all[..|all| - 1] == first + second[..|second| - 1];
      LoopConcat(st, first, second[..|second| - 1]);
    }
  }

  /** A snapshot round trip: a pass that is asked for a snapshot at a size other than the steady
      one and reads a frame, with every switch succeeding, resets the camera to the snapshot size,
      gives the frame back, resets it to the steady size, publishes exactly that frame, captured
      at the snapshot size, and leaves the camera at the steady size, unrotated, with no
      snapshot pending. */
  lemma SnapshotRoundTrip(st: WorkerState, c: Cycle)
    requires st.context && Inv(st) && !st.isSwitch
    requires c.request && SnapshotDiffers(st) && c.frame.Some?
    requires !Failed(c.toSnapshot) && !Failed(c.toSteady)
    ensures var o := AfterIteration(st, c);
            && o.Running?
            && o.state.camera.calls == st.camera.calls + [Reset(SnapshotConfig(st.video)), ReturnFrame, Reset(SteadyConfig(st.steady))]
            && o.state.camera.config == SteadyConfig(st.steady)
            && o.state.broadcasts == st.broadcasts + [Broadcast(SnapshotConfig(st.video), WithGeometry(st.video, c.toSnapshot.geometry), st.quality, c.frame.value)]
            && o.state.video == WithGeometry(st.video, c.toSteady.geometry)
            && o.state.capacity == Wrap32(c.toSteady.geometry.width * c.toSteady.geometry.height)
            && !o.state.isSwitch && !o.state.snapshot
  {
  }

  /** A snapshot at the size the worker already streams at needs no switch: the camera keeps its
      configuration and is not reset (a frame read is only given back), `vdIn` is untouched and
      the request is cleared. */
  lemma SnapshotAtSteadySize(st: WorkerState, c: Cycle)
    requires st.context && Inv(st) && !st.isSwitch
    requires c.request && !SnapshotDiffers(st)
    ensures var o := AfterIteration(st, c);
            && o.Running?
            && o.state.camera == st.camera.(calls := st.camera.calls + (if c.frame.Some? then [ReturnFrame] else []))
            && o.state.video == st.video
            && !o.state.snapshot
  {
  }

  /** A pass that gets no frame and no request changes nothing, once no snapshot is pending. */
  lemma {:induction false} MissesChangeNothing(st: WorkerState, misses: seq<Cycle>)
    requires st.context && !st.snapshot
    requires forall k :: 0 <= k < |misses| ==> misses[k].frame.None? && !misses[k].request
    ensures AfterLoop(st, misses) == Running(st)
    decreases |misses|
  {
    if misses != [] {
      MissesChangeNothing(st, misses[..|misses| - 1]);
    }
  }

  /** A snapshot request is served by the next frame the camera delivers, however many reads fail
      in between: the camera stays at the snapshot size until then, that frame is published at the
      snapshot size and given back, and then the camera returns to the steady size. */
  lemma SnapshotServedAfterMisses(st: WorkerState, first: Cycle, misses: seq<Cycle>, last: Cycle)
    requires st.context && Inv(st) && !st.isSwitch
    requires first.request && SnapshotDiffers(st) && first.frame.None? && !Failed(first.toSnapshot)
    requires forall k :: 0 <= k < |misses| ==> misses[k].frame.None? && !misses[k].request
    requires last.frame.Some? && !last.request && !Failed(last.toSteady)
    ensures var o := AfterLoop(st, [first] + misses + [last]);
            && o.Running?
            && o.state.camera.calls == st.camera.calls + [Reset(SnapshotConfig(st.video)), ReturnFrame, Reset(SteadyConfig(st.steady))]
            && o.state.camera.config == SteadyConfig(st.steady)
            && |o.state.broadcasts| == |st.broadcasts| + 1
            && o.state.broadcasts[|st.broadcasts|].config == SnapshotConfig(st.video)
  {
    var afterFirst := AfterIteration(st, first);
    assert AfterLoop(st, [first]) == afterFirst by {
      assert [first][..0] == [];
    }
    MissesChangeNothing(afterFirst.state, misses);
    LoopConcat(st, [first], misses);
    LoopConcat(st, [first] + misses, [last]);
    assert AfterLoop(afterFirst.state, [last]) == AfterIteration(afterFirst.state, last) by {
      assert [last][..0] == [];
    }
  }

  /** The frames read by a sequence of passes, in order. */
  function Frames(cycles: seq<Cycle>): seq<nat>
    decreases |cycles|
  {
    if cycles == [] then []
    else
      var last := cycles[|cycles| - 1];
      Frames(cycles[..|cycles| - 1]) + (if last.frame.Some? then [last.frame.value] else [])
  }

  /** The broadcasts of frames of the given sizes, all captured with one configuration. */
  function Published(config: StreamConfig, video: VideoIn, quality: int, sizes: seq<nat>): seq<Broadcast> {
    seq(|sizes|, k requires 0 <= k < |sizes| => Broadcast(config, video, quality, sizes[k]))
  }

  /** A pass that goes on has published one frame and given one frame back exactly when it read
      one. */
  lemma PassReturnsFrame(st: WorkerState, c: Cycle)
    requires st.context
    ensures var o := AfterIteration(st, c);
            o.Running? ==>
              && |o.state.broadcasts| == |st.broadcasts| + (if c.frame.Some? then 1 else 0)
              && Returned(o.state.camera.calls) == Returned(st.camera.calls) + (if c.frame.Some? then 1 else 0)
  {
  }

  /** Over a run that goes on, every frame read is published and given back to the camera exactly
      once. */
  lemma {:induction false} EveryFrameReturnedOnce(st: WorkerState, cycles: seq<Cycle>)
    requires st.context
    ensures var o := AfterLoop(st, cycles);
            o.Running? ==>
              && |o.state.broadcasts| == |st.broadcasts| + |Frames(cycles)|
              && Returned(o.state.camera.calls) == Returned(st.camera.calls) + |Frames(cycles)|
    decreases |cycles|
  {
    if cycles != [] {
      var init := cycles[..|cycles| - 1];
      EveryFrameReturnedOnce(st, init);
      var before := AfterLoop(st, init);
      if before.Running? {
        PassReturnsFrame(before.state, cycles[|cycles| - 1]);
      }
    }
  }

  /** A pass with no snapshot pending or requested and the camera at the steady size only
      publishes and returns the frame it reads, if any. */
  lemma SteadyPass(s: WorkerState, c: Cycle)
    requires s.context && !s.isSwitch && !s.snapshot && !c.request
    ensures AfterIteration(s, c) ==
              Running(if c.frame.Some?
                      then s.(size := c.frame.value,
                              broadcasts := s.broadcasts + [Broadcast(s.camera.config, s.video, s.quality, c.frame.value)],
                              camera := s.camera.(calls := s.camera.calls + [ReturnFrame]))
                      else s)
  {
  }

  /** `n` frame returns in a row. */
  function Returns(n: nat): seq<CameraCall> {
    seq(n, _ => ReturnFrame)
  }

  /** Without snapshot requests the worker only streams: the camera is never reset, every frame
      read is published, in order, at the steady configuration, and each is given back. */
  lemma {:induction false} SteadyStreaming(st: WorkerState, cycles: seq<Cycle>)
    requires st.context && Inv(st) && !st.isSwitch && !st.snapshot
    requires forall k :: 0 <= k < |cycles| ==> !cycles[k].request
    ensures var o := AfterLoop(st, cycles);
            && o.Running?
            && o.state.camera == st.camera.(calls := st.camera.calls + Returns(|Frames(cycles)|))
            && o.state.video == st.video && o.state.capacity == st.capacity
            && !o.state.isSwitch && !o.state.snapshot
            && o.state.broadcasts == st.broadcasts + Published(st.camera.config, st.video, st.quality, Frames(cycles))
    decreases |cycles|
  {
    if cycles != [] {
      var init := cycles[..|cycles| - 1];
      SteadyStreaming(st, init);
      var last := cycles[|cycles| - 1];
      var sizes := Frames(init);
      var s := AfterLoop(st, init).state;
      LoopKeepsInvariant(st, init);
      assert AfterLoop(st, cycles) == AfterIteration(s, last);
      SteadyPass(s, last);
      if last.frame.Some? {
        assert Frames(cycles) == sizes + [last.frame.value];
        var b := Broadcast(st.camera.config, st.video, st.quality, last.frame.value);
        var p := Published(st.camera.config, st.video, st.quality, sizes);
        var q := Published(st.camera.config, st.video, st.quality, sizes + [last.frame.value]);
        assert q == p + [b];
        assert st.broadcasts + p + [b] == st.broadcasts + q;
        assert Returns(|sizes| + 1) == Returns(|sizes|) + [ReturnFrame];
        assert st.camera.calls + Returns(|sizes|) + [ReturnFrame] == st.camera.calls + Returns(|sizes| + 1);
      } else {
        assert Frames(cycles) == sizes;
      }
    }
  }

  /** `worker_thread` together with `in->buf` and `in->size`, which `input_run` allocates and
      the worker fills. */
  class CaptureWorker {
    const steady: Steady
    const quality: int
    var isSwitch: bool
    var snapshot: bool
    var video: VideoIn
    var camera: Camera
    var capacity: U32
    var size: nat
    var context: bool
    var broadcasts: seq<Broadcast>
    /** How many times the context has been deleted. */
    ghost var deletions: nat

    function State(): WorkerState
      reads this
    {
      WorkerState(steady, quality, isSwitch, snapshot, video, camera, capacity, size, context, broadcasts)
    }

    /** The context is deleted at most once, and is held exactly until it is. */
    ghost predicate Owned()
      reads this
    {
      deletions <= 1 && (context <==> deletions == 0)
    }

    ghost predicate Valid()
      reads this
    {
      Owned() && (context ==> Inv(State()))
    }

    /** `input_run` and the start of `worker_thread`: the buffer gets width * height bytes of
        the configured size, the steady size and buffer count are saved, the camera is started
        and the geometry it reports is recorded in `vdIn`. */
    constructor Start(session: Session, geometry: Geometry, snapshotPending: bool)
      requires SessionReady(session)
      ensures Valid() && context
      ensures State() == WorkerState(
                Steady(session.video.width, session.video.height, session.settings.buffercount),
                session.settings.quality, false, snapshotPending,
                session.video.(width := geometry.width, height := geometry.height, stride := geometry.stride),
                Camera(session.camera, true, true, []),
                Wrap32(session.video.width * session.video.height), 0, true, [])
    {
      steady := Steady(session.video.width, session.video.height, session.settings.buffercount);
      quality := session.settings.quality;
      capacity := Wrap32(session.video.width * session.video.height);
      size := 0;
      isSwitch := false;
      snapshot := snapshotPending;
      camera := Camera(session.camera, true, true, []);
      video := session.video.(width := geometry.width, height := geometry.height, stride := geometry.stride);
      context := true;
      broadcasts := [];
      deletions := 0;
    }

    /** `worker_cleanup`: deletes the context if it is still held. A second call does nothing. */
    method Cleanup()
      requires Owned()
      modifies this
      ensures Owned() && !context
      ensures State() == CleanedUp(old(State()))
      ensures deletions == old(deletions) + (if old(context) then 1 else 0)
    {
      if context {
        context := false;
        deletions := deletions + 1;
      }
    }

    /** The end of `worker_thread`: stop and close the camera, then run the cleanup handler. */
    method Stop()
      requires Owned() && context
      modifies this
      ensures Owned() && !context
      ensures State() == Finished(old(State()))
    {
      camera := camera.(running := false, open := false);
      Cleanup();
    }

    /** `switch_resolution`. */
    method SwitchResolution(width: U32, height: U32, bufferCount: int, reply: SwitchReply) returns (exited: bool)
      requires Owned() && context
      modifies this
      ensures Owned()
      ensures var o := Switched(old(State()), width, height, bufferCount, reply);
              exited == o.Exited? && State() == o.state
    {
      if !reply.resetOk {
        Cleanup();
        return true;
      }
      var config := StreamConfig(width, height, bufferCount, 0);
      camera := camera.(config := config, calls := camera.calls + [Reset(config)]);
      video := video.(width := reply.geometry.width, height := reply.geometry.height, stride := reply.geometry.stride);
      if !reply.reallocOk {
        capacity := 0;
        Cleanup();
        return true;
      }
      capacity := Wrap32(video.width * video.height);
      return false;
    }

    /** The snapshot block of a pass. */
    method ServeRequest(c: Cycle) returns (exited: bool)
      requires Valid() && context
      modifies this
      ensures Valid()
      ensures var o := AfterRequest(old(State()), c);
              exited == o.Exited? && State() == o.state
    {
      if c.request {
        snapshot := true;
      }
      if snapshot {
        if steady.width != video.snapshotWidth || steady.height != video.snapshotHeight {
          exited := SwitchResolution(video.snapshotWidth, video.snapshotHeight, 1, c.toSnapshot);
          if exited {
            return;
          }
          isSwitch := true;
        }
        snapshot := false;
      }
      return false;
    }

    /** The frame block of a pass: encode and publish the frame, give it back to the camera, then
        switch back if needed. */
    method PublishFrame(c: Cycle) returns (exited: bool)
      requires Valid() && context
      modifies this
      ensures Valid()
      ensures var o := AfterFrame(old(State()), c);
              exited == o.Exited? && State() == o.state
    {
      if c.frame.None? {
        return false;
      }
      size := c.frame.value;
      broadcasts := broadcasts + [Broadcast(camera.config, video, quality, size)];
      camera := camera.(calls := camera.calls + [ReturnFrame]);
      if isSwitch {
        exited := SwitchResolution(steady.width, steady.height, steady.bufferCount, c.toSteady);
        if exited {
          return;
        }
        isSwitch := false;
      }
      return false;
    }

    /** One pass of the capture loop. */
    method Iterate(c: Cycle) returns (exited: bool)
      requires Valid() && context
      modifies this
      ensures Valid()
      ensures var o := AfterIteration(old(State()), c);
              exited == o.Exited? && State() == o.state
    {
      exited := ServeRequest(c);
      if !exited {
        exited := PublishFrame(c);
      }
    }

    /** `worker_thread`'s loop over the given passes, after which the host stops it: the camera
        is stopped and closed and the cleanup handler runs. Returns whether a failed switch ended
        the process first. */
    method Run(cycles: seq<Cycle>) returns (exited: bool)
      requires Valid() && context
      modifies this
      ensures Valid() && !context
      ensures var o := AfterLoop(old(State()), cycles);
              exited == o.Exited? && State() == (if exited then o.state else Finished(o.state))
    {
      ghost var start := State();
      var i := 0;
      while i < |cycles|
        invariant 0 <= i <= |cycles|
        invariant Valid() && context
        invariant AfterLoop(start, cycles[..i]) == Running(State())
      {
        ghost var before := State();
        assert cycles[..i + 1][..i] == cycles[..i];
        assert AfterLoop(start, cycles[..i + 1]) == AfterIteration(before, cycles[i]);
        exited := Iterate(cycles[i]);
        if exited {
          LoopConcat(start, cycles[..i + 1], cycles[i + 1..]);
          assert cycles[..i + 1] + cycles[i + 1..] == cycles;
          return;
        }
        i := i + 1;
      }
      assert cycles[..i] == cycles;
      Stop();
      return false;
    }
  }
}
