/**
 * `struct dvi_inst` of libdvi/dvi.c as an object whose methods update its
 * fields in place. Every method is proved to leave the state the matching
 * function of modules DviSpec and DataIsland computes from the old state, so
 * the lemmas proved there (pool and slot conservation, the line and
 * template choices, the data-stream choice) hold of the object.
 */
module Dvi {
  import opened Wrappers
  import opened CArith
  import opened DviTiming
  import opened DataIsland
  import opened DviSpec

  /** `N_TMDS_LANES`: blue, green and red; the sync lane carries the syncs. */
  const NTmdsLanes: nat := 3
  const TmdsSyncLane: nat := 0

  /** The control block of a lane whose read address is the data-island stream. */
  function IslandBlock(lane: nat): (b: nat)
    ensures b == 1 <==> lane == TmdsSyncLane
    ensures b == 2 <==> lane != TmdsSyncLane
  {
    if lane == TmdsSyncLane then 1 else 2
  }

  /**
   * `dvi_update_data_island_ptr` on one block list: `readAddr[lane, block]`
   * is the read address of control block `block` of the lane; every lane's
   * data-island block is pointed at that lane's part of the stream.
   */
  method UpdateDataIslandPtr(readAddr: array2<int>, stream: seq<int>)
    requires readAddr.Length0 == NTmdsLanes && readAddr.Length1 > 2 && |stream| == NTmdsLanes
    modifies readAddr
    ensures forall i, j :: 0 <= i < readAddr.Length0 && 0 <= j < readAddr.Length1 ==>
      readAddr[i, j] == if j == IslandBlock(i) then stream[i] else old(readAddr[i, j])
  {
    for i := 0 to NTmdsLanes
      invariant forall l, j :: 0 <= l < readAddr.Length0 && 0 <= j < readAddr.Length1 ==>
        readAddr[l, j] == if l < i && j == IslandBlock(l) then stream[l] else old(readAddr[l, j])
    {
      if i == TmdsSyncLane {
        readAddr[i, 1] := stream[i];
      } else {
        readAddr[i, 2] := stream[i];
      }
    }
  }

  class DviInst {
    /** `DVI_N_TMDS_BUFFERS` and `DVI_VERTICAL_REPEAT`, build-time settings of the library. */
    const nBuffers: nat
    const verticalRepeat: nat

    var started: bool
    var ts: TimingState
    var timing: Timing
    var scanlineEmulation: bool
    var free: seq<BufId>
    var valid: seq<BufId>
    var release: Option<BufId>
    var releaseNext: Option<BufId>
    /** The buffers the render core took with `dvi_get_scanline` and has not yet sent. */
    var producer: seq<BufId>
    var late: nat
    var errors: nat
    var frames: nat
    var loaded: DmaList
    var activeSrc: PixelSource
    var withAudio: bool
    var island: Island

    function State(): Engine
      reads this
    {
      Engine(started, ts, timing, scanlineEmulation, Pool(free, valid, release, releaseNext, producer),
             late, errors, frames, loaded, activeSrc, withAudio, island)
    }

    /** Every buffer has exactly one holder and every audio slot is in one queue. */
    ghost predicate Valid()
      reads this
    {
      1 <= nBuffers && verticalRepeat > 0 && EngineValid(State(), nBuffers)
    }

    /** The zero-initialised static instance, before `dvi_init`. */
    constructor(n: nat, repeat: nat, t: Timing)
      requires 1 <= n <= QueueCapacity && repeat > 0
      ensures nBuffers == n && verticalRepeat == repeat && timing == t && !started
      ensures free == [] && valid == [] && release == None && releaseNext == None && producer == []
    {
      nBuffers, verticalRepeat := n, repeat;
      started, ts, timing, scanlineEmulation := false, TimingState(Sync, 0), t, false;
      free, valid, release, releaseNext, producer := [], [], None, None, [];
      late, errors, frames := 0, 0, 0;
      loaded, activeSrc, withAudio := VblankNosyncList, SramBase, false;
      island := Island(false, false, [], [], [], Encoded(Zeroed, false), 0, 0, 0, 0, Zeroed, Zeroed, Zeroed);
    }

    // ----------------------------------------------------------- lifecycle

    /**
     * `dvi_init`; the first `allocations` buffer allocations succeed, and
     * `halted` is the panic when one fails.
     */
    method Init(allocations: nat) returns (halted: bool)
      requires 1 <= nBuffers <= QueueCapacity && verticalRepeat > 0
      modifies this`started, this`frames, this`ts, this`island, this`late, this`scanlineEmulation,
               this`errors, this`releaseNext, this`release, this`free, this`valid, this`producer,
               this`activeSrc, this`withAudio
      ensures halted == InitHalts(nBuffers, allocations)
      ensures State() == DviSpec.Init(old(State()), nBuffers, allocations)
      ensures !halted ==> Valid()
    {
      ghost var e := State();
      Clear();
      assert State() == Cleared(e);
      halted := AllocateBuffers(allocations);
      if halted {
        return;
      }
      island := island.(aviInfo := AviInfoFrame);
      InitState(e, nBuffers, allocations);
    }

    /** Lines 30-65 of `dvi_init`. */
    method Clear()
      modifies this`started, this`frames, this`ts, this`island, this`late, this`scanlineEmulation,
               this`errors, this`releaseNext, this`release, this`free, this`valid, this`producer,
               this`activeSrc, this`withAudio
      ensures !started && frames == 0 && ts == InitialTimingState
      ensures island == DataIsland.AudioInit(old(island))
      ensures late == 0 && !scanlineEmulation && errors == 0
      ensures free == [] && valid == [] && producer == [] && release == None && releaseNext == None
      ensures activeSrc == SramBase && !withAudio
    {
      ClearFlags();
      AudioInit();
      ClearQueues();
      ClearLists();
    }

    /** Lines 30-39 of `dvi_init`: stopped, no frame counted, the timing state at its start. */
    method ClearFlags()
      modifies this`started, this`frames, this`ts
      ensures !started && frames == 0 && ts == InitialTimingState
    {
      started, frames := false, 0;
      ts := InitialTimingState;
    }

    /** Lines 47-53 of `dvi_init`: counters cleared, nothing to release, both queues empty. */
    method ClearQueues()
      modifies this`late, this`scanlineEmulation, this`errors, this`releaseNext, this`release,
               this`free, this`valid, this`producer
      ensures late == 0 && !scanlineEmulation && errors == 0
      ensures free == [] && valid == [] && producer == [] && release == None && releaseNext == None
    {
      late, scanlineEmulation, errors := 0, false, 0;
      releaseNext, release := None, None;
      free, valid, producer := [], [], [];
    }

    /** Lines 59-65 of `dvi_init`: the block lists built without data-island periods. */
    method ClearLists()
      modifies this`activeSrc, this`withAudio
      ensures activeSrc == SramBase && !withAudio
    {
      activeSrc, withAudio := SramBase, false;
    }

    /** Lines 67-85 of `dvi_init`: allocate the buffers and queue them as free, or panic. */
    method AllocateBuffers(allocations: nat) returns (halted: bool)
      requires free == [] && nBuffers <= QueueCapacity
      modifies this`free
      ensures halted == InitHalts(nBuffers, allocations)
      ensures free == PoolIds(Min(allocations, nBuffers))
    {
      var q: seq<BufId> := [];
      var i := 0;
      halted := false;
      while i < nBuffers
        invariant 0 <= i <= nBuffers && i <= allocations && !halted
        invariant q == PoolIds(i)
      {
        if i >= allocations {
          halted := true;   // panic("TMDS buffer allocation failed")
          break;
        }
        assert |q| < QueueCapacity;     // queue_add_blocking_u32 does not wait
        assert PoolIds(i + 1) == PoolIds(i) + [i];
        q := q + [i];
        i := i + 1;
      }
      free := q;
    }

    /** `dvi_start`. */
    method Start()
      modifies this`loaded, this`started
      ensures State() == DviSpec.Start(old(State()))
      ensures old(Valid()) ==> Valid()
    {
      if started {
        return;
      }
      loaded := VblankNosyncList;
      started := true;
    }

    /** `dvi_stop`. */
    method Stop()
      modifies this`started
      ensures State() == DviSpec.Stop(old(State()))
    {
      if !started {
        return;
      }
      started := false;
    }

    /** `dvi_is_started`. */
    method IsStarted() returns (r: bool)
      ensures r == started
    {
      r := started;
    }

    /**
     * The buffer loop of `dvi_destroy`, returning the buffers in the order
     * they are freed. It terminates only when the render core holds none.
     */
    method Destroy() returns (freed: seq<BufId>)
      requires Valid() && producer == []
      modifies this`release, this`releaseNext, this`free, this`valid
      ensures freed == DestroyOrder(old(State()).pool)
      ensures free == [] && valid == [] && release == None && releaseNext == None
    {
      ConservedCount(State().pool, nBuffers);
      freed := FreeReleased();
      var rest := FreeQueued(|freed|);
      freed := freed + rest;
    }

    /** Lines 382-394 of `dvi_destroy`: the two buffers waiting for release go first. */
    method FreeReleased() returns (freed: seq<BufId>)
      modifies this`release, this`releaseNext
      ensures freed == ToSeq(old(release)) + ToSeq(old(releaseNext))
      ensures release == None && releaseNext == None
    {
      freed := [];
      if release.Some? {
        freed := freed + [release.value];
        release := None;
      }
      if releaseNext.Some? {
        freed := freed + [releaseNext.value];
        releaseNext := None;
      }
    }

    /**
     * Lines 395-410 of `dvi_destroy`: with `count` buffers already freed, one
     * buffer from each queue per pass until all `nBuffers` are freed.
     */
    method FreeQueued(count: nat) returns (freed: seq<BufId>)
      requires count + |free| + |valid| == nBuffers
      modifies this`free, this`valid
      ensures freed == Interleave(old(free), old(valid))
      ensures free == [] && valid == []
    {
      var f, v := free, valid;
      ghost var order := Interleave(f, v);
      var bufCount := count;
      freed := [];
      while bufCount < nBuffers
        invariant freed + Interleave(f, v) == order
        invariant bufCount == count + |freed| && count + |freed| + |f| + |v| == nBuffers
        decreases |f| + |v|
      {
        InterleaveStep(freed, f, v, order);
        ghost var f0, v0 := f, v;
        var taken: seq<BufId> := [];
        if |f| > 0 {
          taken := [f[0]];
          f := f[1..];
          bufCount := bufCount + 1;
        }
        if |v| > 0 {
          taken := taken + [v[0]];
          v := v[1..];
          bufCount := bufCount + 1;
        }
        assert taken == Head(f0) + Head(v0) && f == Rest(f0) && v == Rest(v0);
        freed := freed + taken;
      }
      assert f == [] && v == [] && Interleave(f, v) == [];
      free, valid := f, v;
    }

    // ------------------------------------------------------- the interrupt

    /**
     * Lines 270-274 of `dvi_dma_irq_handler`: take the advanced timing state
     * and move the release pipeline up one stage; the panic cannot happen.
     */
    method ReleaseTmds(nextTs: TimingState)
      requires ReleaseStep(State().pool).Some?
      modifies this`ts, this`free, this`release, this`releaseNext
      ensures State() == old(State()).(ts := nextTs, pool := ReleaseStep(old(State()).pool).value)
    {
      ghost var e := State();
      ts := nextTs;
      if release.Some? {
        if |free| >= QueueCapacity {
          assert false;   // panic("TMDS free queue full in IRQ!")
        }
        free := free + [release.value];
      }
      release, releaseNext := releaseNext, None;
      assert State() == e.(ts := nextTs, pool := ReleaseStep(e.pool).value);
    }

    /** Lines 284-290: while lines are owed and a buffer is ready, hand it straight back. */
    method DrainLate()
      requires |free| + |valid| <= QueueCapacity
      modifies this`free, this`valid, this`late
      ensures (free, valid, late) == Drain(old(free), old(valid), old(late))
    {
      free, valid, late := DrainQueues(free, valid, late);
    }

    /** The loop of lines 284-290 on the two queues and the late count. */
    static method DrainQueues(f0: seq<BufId>, v0: seq<BufId>, l0: nat) returns (f: seq<BufId>, v: seq<BufId>, l: nat)
      requires |f0| + |v0| <= QueueCapacity
      ensures (f, v, l) == Drain(f0, v0, l0)
    {
      f, v, l := f0, v0, l0;
      while l > 0 && |v| > 0
        invariant Drain(f, v, l) == Drain(f0, v0, l0)
        invariant |f| + |v| <= QueueCapacity
        decreases l
      {
        assert |f| < QueueCapacity;     // queue_add_blocking_u32 does not wait
        f := f + [v[0]];
        v := v[1..];
        l := l - 1;
      }
    }

    /** Lines 293-315: classify the line, show the oldest ready buffer or count the miss. */
    method ShowLine() returns (kind: LineKind)
      requires verticalRepeat > 0
      modifies this`releaseNext, this`valid, this`errors, this`late
      ensures kind == Classify(old(State()))
      ensures State() == ShowStep(old(State()), kind, verticalRepeat)
    {
      if Blanked(timing, ts, scanlineEmulation) {
        kind := Blank;
      } else if |valid| > 0 {
        kind := Show(valid[0]);
        if LastRepeat(ts, verticalRepeat) {
          releaseNext := Some(valid[0]);
          valid := valid[1..];
        }
      } else {
        kind := Starve;
        errors := U32(errors + 1);
        if LastRepeat(ts, verticalRepeat) {
          late := U32(late + 1);
        }
      }
    }

    /** Lines 317-345: load the block list of the next line. */
    method LoadTemplate(kind: LineKind)
      modifies this`activeSrc, this`loaded, this`frames
      ensures State() == TemplateStep(old(State()), kind)
    {
      match ts.vState
      case Active =>
        if kind.Show? {
          activeSrc := Scanline(kind.buf);
          loaded := ActiveList;
        } else {
          loaded := ErrorList;
        }
      case Sync =>
        loaded := VblankSyncList;
        if ts.vCtr == 0 {
          frames := U32(frames + 1);
        }
      case _ =>
        loaded := VblankNosyncList;
    }

    /** Lines 347-352: refresh the data island of the next line. */
    method RefreshIsland()
      requires SlotsConserved(island)
      modifies this`island
      ensures island == NextIsland(old(State()))
    {
      if island.enabled {
        if island.audioEnabled {
          UpdateDataStream();
        } else {
          UpdateDataStreamNull();
        }
      }
    }

    /**
     * `dvi_dma_irq_handler`, given the timing state `dvi_timing_state_advance`
     * moves to. It never panics and keeps every buffer and slot with one holder.
     */
    method IrqHandler(nextTs: TimingState)
      requires Valid()
      modifies this
      ensures Valid()
      ensures IrqTick(old(State()), verticalRepeat, nextTs) == Some(State())
    {
      ghost var e := State();
      ReleaseNeverPanics(e, nBuffers);
      ReleaseConserves(e.pool, nBuffers);
      ReleaseAndDrain(nextTs);
      AfterDrainFrame(e, nextTs);
      NextLine();
      IrqTickIsLineStep(e, verticalRepeat, nextTs);
      IrqTickConserves(e, nBuffers, verticalRepeat, nextTs);
    }

    /** Lines 270-290: the release pipeline moves up and owed lines are handed back. */
    method ReleaseAndDrain(nextTs: TimingState)
      requires 1 <= nBuffers <= QueueCapacity && ReleaseStep(State().pool).Some?
      requires Conserved(ReleaseStep(State().pool).value, nBuffers)
      modifies this`ts, this`free, this`valid, this`release, this`releaseNext, this`late
      ensures State() == AfterDrain(old(State()), nextTs)
    {
      ReleaseTmds(nextTs);
      ghost var e := State();
      ConservedCount(e.pool, nBuffers);
      DrainLate();
      assert State() == e.(pool := DrainPool(e.pool, e.late).0, late := DrainPool(e.pool, e.late).1);
    }

    /** Lines 293-352: show or miss this line, load the next block list, refresh the island. */
    method NextLine()
      requires verticalRepeat > 0 && SlotsConserved(island)
      modifies this`releaseNext, this`valid, this`errors, this`late, this`activeSrc, this`loaded,
               this`frames, this`island
      ensures State() == LineStep(old(State()), verticalRepeat)
    {
      var kind := ShowLine();
      LoadTemplate(kind);
      ghost var t := State();
      RefreshIsland();
      assert State() == t.(island := NextIsland(t));
    }

    // --------------------------------------------------- the render core

    /** `dvi_get_scanline`: take the oldest free buffer (the caller waits until there is one). */
    method GetScanline() returns (buf: BufId)
      requires Valid() && |free| > 0
      modifies this
      ensures Valid()
      ensures buf == old(free[0])
      ensures State() == old(State()).(pool := DviSpec.GetScanline(old(State()).pool))
    {
      ghost var e := State();
      GetScanlineConserves(e.pool, nBuffers);
      buf := free[0];
      free, producer := free[1..], producer + [buf];
      assert State() == e.(pool := DviSpec.GetScanline(e.pool));
    }

    /** `dvi_send_scanline`: queue the buffer taken first; the valid queue is never full. */
    method SendScanline(buf: BufId)
      requires Valid() && |producer| > 0 && buf == producer[0]
      modifies this
      ensures Valid()
      ensures State() == old(State()).(pool := DviSpec.SendScanline(old(State()).pool))
    {
      ghost var e := State();
      SendScanlineConserves(e.pool, nBuffers);
      assert |valid| < QueueCapacity;   // queue_add_blocking_u32 does not wait
      valid, producer := valid + [buf], producer[1..];
      assert State() == e.(pool := DviSpec.SendScanline(e.pool));
    }

    // ------------------------------------------------------- data island

    /** `dvi_audio_init`: all four stream pairs encoded as null packets and queued as free. */
    method AudioInit()
      modifies this`island
      ensures island == DataIsland.AudioInit(old(island))
    {
      var isl := island.(enabled := false, audioEnabled := false, audioFreq := 0,
                         samplesPerFrame := 0, samplesPerLine16 := 0, audioFrameCount := 0);
      var slots: seq<StreamPair> := [];
      var q: seq<SlotId> := [];
      for i := 0 to NumberOfAudioPackets
        invariant |slots| == i && q == SlotIds()[..i]
        invariant forall s :: 0 <= s < i ==> slots[s] == PacketPair(NullPacket)
      {
        slots := slots + [PacketPair(NullPacket)];
        q := q + [i];
      }
      island := isl.(freeSlots := q, validSlots := [], slots := slots);
    }

    /** `dvi_enable_data_island`. */
    method EnableDataIsland()
      modifies this`withAudio, this`activeSrc, this`island
      ensures State() == DviSpec.EnableDataIsland(old(State()))
      ensures old(Valid()) ==> Valid()
    {
      withAudio := true;
      activeSrc := SramBase;
      island := island.(enabled := true);
    }

    /** `dvi_set_audio_freq`. */
    method SetAudioFreq(audioFreq: int, cts: int, n: int)
      requires timing.pixelClock > 0
      modifies this`island
      ensures island == DataIsland.SetAudioFreq(old(island), timing, audioFreq, cts, n)
      ensures old(Valid()) ==> Valid()
    {
      var f := U64(audioFreq);
      var perFrame := U64(f * timing.pixelsPerFrame) / timing.pixelClock;
      var perLine16 := U64(U64(f * timing.pixelsPerLine) * 65536) / timing.pixelClock;
      island := island.(audioFreq := audioFreq, clockRegen := ClockRegeneration(cts, n),
                        audioInfo := AudioInfoFrame(audioFreq));
      island := island.(samplesPerFrame := U32(perFrame), samplesPerLine16 := U32(perLine16));
    }

    /** `dvi_queue_audio_samples`; `frameAfter` is what `set_audio_samples` returns. */
    method QueueAudioSamples(samples: seq<int>, count: int, frameAfter: int) returns (result: bool)
      requires SlotsConserved(island)
      modifies this`island
      ensures (island, result) == DataIsland.QueueAudioSamples(old(island), samples, count, frameAfter)
    {
      result := false;
      if island.audioEnabled {
        if count == 4 {
          var pkt := AudioSamples(samples, island.audioFrameCount);
          island := island.(audioFrameCount := frameAfter);
          if |island.freeSlots| > 0 {
            var s := island.freeSlots[0];
            ConservedSlotsInRange(old(island));
            MoveFrontToBack(island.freeSlots, island.validSlots);
            island := island.(freeSlots := island.freeSlots[1..]);
            island := island.(slots := island.slots[s := PacketPair(pkt)]);
            assert |island.validSlots| < NumberOfAudioPackets;   // queue_add_blocking_u32 does not wait
            island := island.(validSlots := island.validSlots + [s]);
            result := true;
          }
        }
      }
    }

    /**
     * `dvi_update_data_stream`: an InfoFrame or the clock regeneration packet
     * on the first two front-porch lines, the oldest queued stream pair
     * elsewhere, and a null packet when neither applies.
     */
    method UpdateDataStream()
      requires SlotsConserved(island)
      modifies this`island
      ensures island == DataIsland.UpdateDataStream(old(island), timing, ts, frames)
    {
      if island.samplesPerFrame != 0 {
        if ts.vState == FrontPorch {
          if ts.vCtr == 0 || ts.vCtr == 1 {
            var packet := if ts.vCtr == 1 then island.clockRegen
                          else if frames % 2 == 1 then island.aviInfo else island.audioInfo;
            island := island.(next := Encoded(packet, timing.vSyncPolarity == (ts.vState == Sync)));
          } else {
            UpdateDataStreamNull();
          }
          return;
        } else if island.audioEnabled && |island.validSlots| > 0 {
          PlayOldestPair();
          return;
        }
      }
      UpdateDataStreamNull();
    }

    /** Lines 618-633: play the oldest queued stream pair in the encoding matching the sync bit. */
    method PlayOldestPair()
      requires SlotsConserved(island) && island.samplesPerFrame != 0 && island.audioEnabled
      requires ts.vState != FrontPorch && |island.validSlots| > 0
      modifies this`island
      ensures island == DataIsland.UpdateDataStream(old(island), timing, ts, frames)
    {
      PlaysOldestQueuedPair(island, timing, ts, frames);
      ReturnSlotNeverBlocks(island);
      var s := island.validSlots[0];
      var stream := if timing.vSyncPolarity == (ts.vState == Sync) then island.slots[s].streamTrue
                    else island.slots[s].streamFalse;
      island := island.(validSlots := island.validSlots[1..], next := stream);
      island := island.(freeSlots := island.freeSlots + [s]);   // queue_add_blocking_u32 does not wait
    }

    /** `dvi_update_data_stream_null`. */
    method UpdateDataStreamNull()
      modifies this`island
      ensures island == DataIsland.UpdateDataStreamNull(old(island), timing, ts)
    {
      if timing.vSyncPolarity == (ts.vState == Sync) {
        island := island.(next := NullStream(true));
      } else {
        island := island.(next := NullStream(false));
      }
    }

    /** `dvi_audio_enable`. */
    method AudioEnable(enable: bool)
      modifies this`island
      ensures island == DataIsland.AudioEnable(old(island), enable)
    {
      if island.enabled {
        island := island.(audioEnabled := enable);
      }
    }
  }
}
