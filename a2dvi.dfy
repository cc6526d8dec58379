/**
 * `a2dvi_dvi_enable` of firmware/dvi/a2dvi.c: the driver that (re)starts the
 * DVI engine whenever the configured video mode changes. It remembers the
 * mode in the static `current_video_mode`; the first call also claims the
 * two spinlocks, a repeated call with the same mode does nothing, and a new
 * mode tears the running engine down before it is initialised again.
 */
module A2Dvi {
  import opened CArith
  import opened DviTiming
  import opened DviSpec
  import opened Dvi
  import AudioRing
  import opened Wrappers
  import opened DataIsland

  /** The `cfg_video_mode` values; `OtherMode` stands for any other number the setting may hold. */
  datatype VideoMode = Dvi640x480 | Dvi720x480 | DviInvalid | OtherMode(code: nat)

  /** The engine calls the driver makes, in the order it makes them. */
  datatype LifecycleCall = DestroyEngine | InitEngine(t: Timing) | SetAudioBuffer | SetAudioFrequency
                         | EnableDataIslands | StartEngine

  /** The CTS and N values line 91 passes to `dvi_set_audio_freq`. */
  const FirmwareCts: int := 30000
  const FirmwareN: int := 6272

  /** `AUDIO_BUFFER_SIZE`. */
  const AudioBufferSize: nat := 256

  /** Line 79: the 720x480 timing for `Dvi720x480`, the 640x480 timing for every other value. */
  function ModeTiming(mode: VideoMode): (t: Timing)
    ensures t == Timing720x480 <==> mode == Dvi720x480
    ensures t == Timing640x480 <==> mode != Dvi720x480
  {
    if mode == Dvi720x480 then Timing720x480 else Timing640x480
  }

  /** Lines 90-96: the audio set-up calls, then `dvi_start`. */
  const AudioStartCalls: seq<LifecycleCall> := [SetAudioBuffer, SetAudioFrequency, EnableDataIslands, StartEngine]

  /** The calls lines 86-96 make: `dvi_init` with the mode's timing, then the audio set-up and start unless it halted. */
  function StartCalls(mode: VideoMode, halted: bool): (calls: seq<LifecycleCall>)
    ensures |calls| > 0 && calls[0] == InitEngine(ModeTiming(mode))
    ensures (StartEngine in calls) <==> !halted
    ensures DestroyEngine !in calls
  {
    [InitEngine(ModeTiming(mode))] + (if halted then [] else AudioStartCalls)
  }

  /** The calls lines 63-96 make when `current` is remembered and `mode` is asked for, unless nothing is done. */
  function SwitchCalls(current: VideoMode, mode: VideoMode, halted: bool): (calls: seq<LifecycleCall>)
    ensures (DestroyEngine in calls) <==> current != DviInvalid
    ensures InitEngine(ModeTiming(mode)) in calls
    ensures (StartEngine in calls) <==> !halted
  {
    (if current == DviInvalid then [] else [DestroyEngine]) + StartCalls(mode, halted)
  }

  /** Teardown always comes before the new initialisation, and starting comes last. */
  lemma DestroyBeforeInit(current: VideoMode, mode: VideoMode, halted: bool)
    requires current != DviInvalid
    ensures var calls := SwitchCalls(current, mode, halted);
      calls[0] == DestroyEngine && calls[1] == InitEngine(ModeTiming(mode)) &&
      (!halted ==> calls[|calls| - 1] == StartEngine)
  {
  }

  /**
   * The engine lines 86-96 leave: `dvi_init` with timing `t`, then, unless it
   * panicked, 44.1 kHz audio with CTS 30000 and N 6272, data islands
   * enabled, and `dvi_start`. Of the engine before it `dvi_init` keeps only
   * the last loaded block list and the island's packets, so those are all
   * the bring-up depends on.
   */
  function BroughtUp(t: Timing, loaded: DmaList, isl: Island, n: nat, allocations: nat): Engine
    requires t.pixelClock > 0
  {
    var i := DviSpec.Init(Prior(t, loaded, isl), n, allocations);
    if InitHalts(n, allocations) then i else AudioStarted(i)
  }

  /** An engine with timing `t`, block list `loaded` and island `isl`, and nothing else set. */
  function Prior(t: Timing, loaded: DmaList, isl: Island): Engine
  {
    Engine(false, InitialTimingState, t, false, Pool([], [], None, None, []), 0, 0, 0, loaded, SramBase, false, isl)
  }

  /** Lines 91-96 on an initialised engine: 44.1 kHz audio, data islands, `dvi_start`. */
  function AudioStarted(e: Engine): Engine
    requires e.timing.pixelClock > 0
  {
    DviSpec.Start(DviSpec.EnableDataIsland(
      e.(island := DataIsland.SetAudioFreq(e.island, e.timing, 44100, FirmwareCts, FirmwareN))))
  }

  /** A `dvi_init` that panicked is the whole bring-up of `e`'s timing. */
  lemma HaltedBringUp(e: Engine, n: nat, allocations: nat)
    requires e.timing.pixelClock > 0 && InitHalts(n, allocations)
    ensures DviSpec.Init(e, n, allocations) == BroughtUp(e.timing, e.loaded, e.island, n, allocations)
  {
    assert Cleared(e) == Cleared(Prior(e.timing, e.loaded, e.island));
  }

  /** `dvi_init` on `e` followed by the audio start is the bring-up of `e`'s timing. */
  lemma RunningBringUp(e: Engine, n: nat, allocations: nat)
    requires e.timing.pixelClock > 0 && !InitHalts(n, allocations)
    ensures AudioStarted(DviSpec.Init(e, n, allocations)) == BroughtUp(e.timing, e.loaded, e.island, n, allocations)
  {
    assert Cleared(e) == Cleared(Prior(e.timing, e.loaded, e.island));
  }

  /**
   * After a bring-up that did not panic the engine runs with timing `t`,
   * all N buffers free and nothing queued or in flight, the counters
   * cleared, and the data island enabled for 44.1 kHz audio with the
   * firmware's clock regeneration values; the audio gate stays closed until
   * `dvi_audio_enable`.
   */
  lemma BroughtUpRunsAudio(t: Timing, loaded: DmaList, isl: Island, n: nat, allocations: nat)
    requires n <= QueueCapacity && !InitHalts(n, allocations) && t.pixelClock > 0
    ensures var r := BroughtUp(t, loaded, isl, n, allocations);
      EngineValid(r, n) && r.started && r.timing == t &&
      r.pool == Pool(PoolIds(n), [], None, None, []) && r.late == 0 && r.errors == 0 && r.frames == 0 &&
      r.withAudio && r.island.enabled && !r.island.audioEnabled &&
      r.island.audioFreq == 44100 && r.island.clockRegen == ClockRegeneration(FirmwareCts, FirmwareN) &&
      r.island.freeSlots == SlotIds() && r.island.validSlots == []
  {
    InitState(Prior(t, loaded, isl), n, allocations);
  }

  /** A teardown entry, if any, followed by the start calls make up the switch calls. */
  lemma LogAppend(before: seq<LifecycleCall>, logged: seq<LifecycleCall>, after: seq<LifecycleCall>,
                  current: VideoMode, mode: VideoMode, halted: bool)
    requires logged == before + (if current == DviInvalid then [] else [DestroyEngine])
    requires after == logged + StartCalls(mode, halted)
    ensures after == before + SwitchCalls(current, mode, halted)
  {
  }

  /** The four entries of lines 90-96, appended one at a time, are `AudioStartCalls`. */
  lemma AudioStartLogged(before: seq<LifecycleCall>)
    ensures before + [SetAudioBuffer] + [SetAudioFrequency] + [EnableDataIslands] + [StartEngine] ==
            before + AudioStartCalls
  {
  }

  /** The init entry followed, unless it panicked, by the audio and start entries are the start calls. */
  lemma StartLogged(before: seq<LifecycleCall>, logged: seq<LifecycleCall>, after: seq<LifecycleCall>,
                    mode: VideoMode, halted: bool)
    requires logged == before + [InitEngine(ModeTiming(mode))]
    requires after == logged + (if halted then [] else AudioStartCalls)
    ensures after == before + StartCalls(mode, halted)
  {
  }

  class Driver {
    /** `dvi0`, and its sample ring set up by `dvi_audio_sample_buffer_set`. */
    const dvi0: DviInst
    const ring: AudioRing.Ring
    /** `audio_buffer`. */
    const audioBuffer: array<int>

    /** The statics of `a2dvi_dvi_enable`. */
    var currentVideoMode: VideoMode
    var spinlock1: nat
    var spinlock2: nat
    /** Set when `dvi_init` panicked; nothing runs after a panic. */
    var panicked: bool
    /** The engine calls made so far, oldest first. */
    ghost var calls: seq<LifecycleCall>

    ghost predicate Valid()
      reads this`currentVideoMode, this`panicked, dvi0
    {
      1 <= dvi0.nBuffers <= QueueCapacity && dvi0.verticalRepeat > 0 && audioBuffer.Length == AudioBufferSize &&
      (currentVideoMode != DviInvalid && !panicked ==> dvi0.Valid())
    }

    constructor(d: DviInst, r: AudioRing.Ring)
      requires 1 <= d.nBuffers <= QueueCapacity && d.verticalRepeat > 0
      ensures dvi0 == d && ring == r && currentVideoMode == DviInvalid && !panicked && calls == []
      ensures Valid()
    {
      dvi0, ring := d, r;
      audioBuffer := new int[AudioBufferSize];
      currentVideoMode := DviInvalid;
      spinlock1, spinlock2 := 0, 0;
      panicked := false;
      calls := [];
    }

    /**
     * `a2dvi_dvi_enable(mode)`. `lock1` and `lock2` are what
     * `next_striped_spin_lock_num` hands out; `allocations` is how many
     * buffer allocations of `dvi_init` succeed. The render core holds no
     * scanline buffer when it switches modes. A remembered `DviInvalid`
     * always takes the first-call path, even when `DviInvalid` is asked for.
     */
    method DviEnable(mode: VideoMode, lock1: nat, lock2: nat, allocations: nat) returns (halted: bool)
      requires Valid() && !panicked && dvi0.producer == []
      modifies this`currentVideoMode, this`spinlock1, this`spinlock2, this`panicked, this`calls, dvi0, ring
      ensures Valid()
      ensures old(currentVideoMode) == mode && mode != DviInvalid ==>
        !halted && calls == old(calls) && dvi0.State() == old(dvi0.State()) && !panicked &&
        currentVideoMode == old(currentVideoMode) && unchanged(ring)
      ensures old(currentVideoMode) != mode || mode == DviInvalid ==>
        currentVideoMode == mode && dvi0.timing == ModeTiming(mode) &&
        halted == InitHalts(dvi0.nBuffers, allocations) && panicked == halted &&
        calls == old(calls) + SwitchCalls(old(currentVideoMode), mode, halted) &&
        dvi0.State() == BroughtUp(ModeTiming(mode), old(dvi0.loaded), old(dvi0.island), dvi0.nBuffers, allocations) &&
        (!halted ==> dvi0.started && ring.buffer == audioBuffer && ring.size == AudioBufferSize && ring.read == 0 && ring.write == 0)
      ensures old(currentVideoMode) == DviInvalid ==> spinlock1 == lock1 && spinlock2 == lock2
      ensures old(currentVideoMode) != DviInvalid ==> spinlock1 == old(spinlock1) && spinlock2 == old(spinlock2)
    {
      halted := false;
      if currentVideoMode != DviInvalid && currentVideoMode == mode {
        return;
      }
      var first, held1, held2 := currentVideoMode == DviInvalid, spinlock1, spinlock2;
      halted := Switch(mode, allocations);
      ClaimLocks(first, lock1, lock2, held1, held2);
    }

    /**
     * Lines 68-96 once the call is known to act: tear a running engine down
     * and start it in `mode`.
     */
    method Switch(mode: VideoMode, allocations: nat) returns (halted: bool)
      requires Valid() && !panicked && dvi0.producer == []
      modifies this`currentVideoMode, this`panicked, this`calls, dvi0, ring
      ensures Valid()
      ensures currentVideoMode == mode && dvi0.timing == ModeTiming(mode)
      ensures halted == InitHalts(dvi0.nBuffers, allocations) && panicked == halted
      ensures calls == old(calls) + SwitchCalls(old(currentVideoMode), mode, halted)
      ensures dvi0.State() == BroughtUp(ModeTiming(mode), old(dvi0.loaded), old(dvi0.island), dvi0.nBuffers, allocations)
      ensures !halted ==> dvi0.started && ring.buffer == audioBuffer && ring.size == AudioBufferSize && ring.read == 0 && ring.write == 0
    {
      ghost var loaded, island := dvi0.loaded, dvi0.island;
      StopRunning();
      ghost var logged := calls;
      halted := Reinit(mode, allocations, loaded, island);
      LogAppend(old(calls), logged, calls, old(currentVideoMode), mode, halted);
    }

    /**
     * Lines 63-67: a first call takes the two spinlocks; a later call keeps
     * the pair `held1`, `held2` it had on entry. The source takes them before
     * `dvi_init`, which passes them to the DMA interrupt set-up; that set-up
     * is not part of this model, so recording them after the bring-up leaves
     * the same state.
     */
    method ClaimLocks(first: bool, lock1: nat, lock2: nat, held1: nat, held2: nat)
      modifies this`spinlock1, this`spinlock2
      ensures first ==> spinlock1 == lock1 && spinlock2 == lock2
      ensures !first ==> spinlock1 == held1 && spinlock2 == held2
      ensures unchanged(dvi0, ring, this`currentVideoMode, this`panicked, this`calls)
    {
      if first {
        spinlock1, spinlock2 := lock1, lock2;
      } else {
        spinlock1, spinlock2 := held1, held2;
      }
    }

    /** Lines 68-73: a remembered mode means an engine is running, and it is torn down. */
    method StopRunning()
      requires currentVideoMode != DviInvalid ==> dvi0.Valid() && dvi0.producer == []
      modifies dvi0`release, dvi0`releaseNext, dvi0`free, dvi0`valid, this`calls
      ensures calls == old(calls) + (if currentVideoMode == DviInvalid then [] else [DestroyEngine])
    {
      if currentVideoMode != DviInvalid {
        Teardown();
      }
    }

    /** Line 72: `dvi_destroy` of the running engine, which holds no scanline buffer at this point. */
    method Teardown()
      requires dvi0.Valid() && dvi0.producer == []
      modifies dvi0`release, dvi0`releaseNext, dvi0`free, dvi0`valid, this`calls
      ensures dvi0.free == [] && dvi0.valid == [] && dvi0.release.None? && dvi0.releaseNext.None?
      ensures calls == old(calls) + [DestroyEngine]
    {
      var freed := dvi0.Destroy();
      calls := calls + [DestroyEngine];
    }

    /** Lines 75-96: remember the mode, select its timing, initialise, and start with audio. */
    method Reinit(mode: VideoMode, allocations: nat, ghost loaded: DmaList, ghost island: Island) returns (halted: bool)
      requires 1 <= dvi0.nBuffers <= QueueCapacity && dvi0.verticalRepeat > 0
      requires audioBuffer.Length == AudioBufferSize && !panicked
      requires dvi0.loaded == loaded && dvi0.island == island
      modifies this`currentVideoMode, this`panicked, this`calls, dvi0, ring
      ensures currentVideoMode == mode && dvi0.timing == ModeTiming(mode)
      ensures halted == InitHalts(dvi0.nBuffers, allocations) && panicked == halted
      ensures calls == old(calls) + StartCalls(mode, halted)
      ensures dvi0.State() == BroughtUp(ModeTiming(mode), loaded, island, dvi0.nBuffers, allocations)
      ensures !halted ==> dvi0.Valid() && dvi0.started
      ensures !halted ==> ring.buffer == audioBuffer && ring.size == AudioBufferSize && ring.read == 0 && ring.write == 0
    {
      currentVideoMode := mode;
      dvi0.timing := ModeTiming(mode);
      halted := Bringup(mode, allocations);
    }

    /** Lines 86-96: `dvi_init`, then, unless it panicked, the audio set-up and `dvi_start`. */
    method Bringup(ghost mode: VideoMode, allocations: nat) returns (halted: bool)
      requires 1 <= dvi0.nBuffers <= QueueCapacity && dvi0.verticalRepeat > 0
      requires audioBuffer.Length == AudioBufferSize && !panicked && dvi0.timing == ModeTiming(mode)
      requires dvi0.timing.pixelClock > 0
      modifies this`panicked, this`calls, ring
      modifies dvi0`started, dvi0`frames, dvi0`ts, dvi0`island, dvi0`late, dvi0`scanlineEmulation,
               dvi0`errors, dvi0`releaseNext, dvi0`release, dvi0`free, dvi0`valid, dvi0`producer,
               dvi0`activeSrc, dvi0`withAudio, dvi0`loaded
      ensures halted == InitHalts(dvi0.nBuffers, allocations) && panicked == halted
      ensures dvi0.timing == ModeTiming(mode) && calls == old(calls) + StartCalls(mode, halted)
      ensures dvi0.State() == BroughtUp(dvi0.timing, old(dvi0.loaded), old(dvi0.island), dvi0.nBuffers, allocations)
      ensures !halted ==> dvi0.Valid() && dvi0.started
      ensures !halted ==> ring.buffer == audioBuffer && ring.size == AudioBufferSize && ring.read == 0 && ring.write == 0
    {
      ghost var before, e := calls, dvi0.State();
      halted := Initialise(allocations);
      ghost var logged := calls;
      if halted {
        HaltedBringUp(e, dvi0.nBuffers, allocations);
      } else {
        RunningBringUp(e, dvi0.nBuffers, allocations);
        StartWithAudio();
      }
      StartLogged(before, logged, calls, mode, halted);
    }

    /** Line 86: `dvi_init`, whose failed allocation panics. */
    method Initialise(allocations: nat) returns (halted: bool)
      requires 1 <= dvi0.nBuffers <= QueueCapacity && dvi0.verticalRepeat > 0
      modifies dvi0`started, dvi0`frames, dvi0`ts, dvi0`island, dvi0`late, dvi0`scanlineEmulation,
               dvi0`errors, dvi0`releaseNext, dvi0`release, dvi0`free, dvi0`valid, dvi0`producer,
               dvi0`activeSrc, dvi0`withAudio, this`panicked, this`calls
      ensures halted == InitHalts(dvi0.nBuffers, allocations) && panicked == (old(panicked) || halted)
      ensures dvi0.State() == DviSpec.Init(old(dvi0.State()), dvi0.nBuffers, allocations)
      ensures calls == old(calls) + [InitEngine(dvi0.timing)]
      ensures !halted ==> dvi0.Valid()
    {
      halted := dvi0.Init(allocations);
      calls := calls + [InitEngine(dvi0.timing)];
      if halted {
        panicked := true;
      }
    }

    /** Lines 90-96: hand the engine its sample buffer, set 44.1 kHz audio, enable data islands, start. */
    method StartWithAudio()
      requires dvi0.Valid() && dvi0.timing.pixelClock > 0 && audioBuffer.Length == AudioBufferSize
      modifies dvi0`island, dvi0`withAudio, dvi0`activeSrc, dvi0`loaded, dvi0`started, ring, this`calls
      ensures dvi0.State() == AudioStarted(old(dvi0.State()))
      ensures dvi0.Valid() && dvi0.started
      ensures ring.buffer == audioBuffer && ring.size == AudioBufferSize && ring.read == 0 && ring.write == 0
      ensures calls == old(calls) + AudioStartCalls
    {
      SetAudioBuffer();
      AudioOn();
      AudioStartLogged(old(calls));
    }

    /** Lines 91-96: 44.1 kHz audio with the firmware's CTS and N, data islands enabled, engine started. */
    method AudioOn()
      requires dvi0.Valid() && dvi0.timing.pixelClock > 0
      modifies dvi0`island, dvi0`withAudio, dvi0`activeSrc, dvi0`loaded, dvi0`started, this`calls
      ensures dvi0.State() == AudioStarted(old(dvi0.State()))
      ensures dvi0.Valid() && dvi0.started
      ensures calls == old(calls) + [SetAudioFrequency] + [EnableDataIslands] + [StartEngine]
    {
      dvi0.SetAudioFreq(44100, FirmwareCts, FirmwareN);
      calls := calls + [SetAudioFrequency];
      dvi0.EnableDataIsland();
      calls := calls + [EnableDataIslands];
      dvi0.Start();
      calls := calls + [StartEngine];
    }

    /** Line 90: `dvi_audio_sample_buffer_set` points the ring at the firmware's sample buffer. */
    method SetAudioBuffer()
      requires audioBuffer.Length == AudioBufferSize
      modifies ring, this`calls
      ensures ring.buffer == audioBuffer && ring.size == AudioBufferSize && ring.read == 0 && ring.write == 0
      ensures calls == old(calls) + [LifecycleCall.SetAudioBuffer]
      ensures unchanged(dvi0)
    {
      ring.Set(audioBuffer, AudioBufferSize);
      calls := calls + [LifecycleCall.SetAudioBuffer];
    }

    /** `a2dvi_scanline_errors`. */
    method ScanlineErrors() returns (n: nat)
      ensures n == dvi0.errors
    {
      n := dvi0.errors;
    }

    /** `a2dvi_started`. */
    method Started() returns (r: bool)
      ensures r == dvi0.started
    {
      r := dvi0.IsStarted();
    }
  }
}
