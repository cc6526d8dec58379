/**
 * The HDMI data-island scheduler of libdvi/dvi.c: a pool of four audio
 * stream pairs rotating between a free queue and a valid queue, the choice
 * of the stream the next blanking period carries, and the audio rate
 * arithmetic. Packet encoding (`encode_data_packet`, `set_audio_samples`,
 * `set_*_info_frame`) is opaque: an encoded stream records the packet it
 * carries and the vertical-sync bit it was encoded for.
 */
module DataIsland {
  import opened CArith
  import opened DviTiming

  /** `NUMBER_OF_AUDIO_PACKETS`. */
  const NumberOfAudioPackets: nat := 4

  /** Index into `s_audio_data_streams`. */
  type SlotId = nat

  datatype DataPacket =
    | Zeroed                                  // a packet struct never written
    | NullPacket
    | AviInfoFrame
    | AudioInfoFrame(freq: int)
    | ClockRegeneration(cts: int, n: int)
    | AudioSamples(samples: seq<int>, frame: int)

  /** `data_island_stream_t`: a packet encoded for one value of the vertical-sync bit. */
  datatype Stream = Encoded(packet: DataPacket, vsyncBit: bool)

  /** `data_island_streams_t`: both encodings of one packet. */
  datatype StreamPair = StreamPair(streamTrue: Stream, streamFalse: Stream)

  function NullStream(flag: bool): (s: Stream)
    ensures s.packet == NullPacket && s.vsyncBit == flag
  {
    Encoded(NullPacket, flag)
  }

  function PacketPair(p: DataPacket): (r: StreamPair)
    ensures r.streamTrue == Encoded(p, true) && r.streamFalse == Encoded(p, false)
  {
    StreamPair(Encoded(p, true), Encoded(p, false))
  }

  /** The pre-encoded stream of a pair that matches the sync bit. */
  function Select(pair: StreamPair, flag: bool): Stream
  {
    if flag then pair.streamTrue else pair.streamFalse
  }

  /** The sync bit a data island of this line is encoded with: `v_sync_polarity == (v_state == SYNC)`. */
  function PolarityFlag(t: Timing, ts: TimingState): bool
  {
    t.vSyncPolarity == (ts.vState == Sync)
  }

  function SlotIds(): seq<SlotId> { [0, 1, 2, 3] }

  /** The data-island members of `struct dvi_inst`, with the static stream pool. */
  datatype Island = Island(
    enabled: bool,                 // data_island_is_enabled
    audioEnabled: bool,            // audio_enabled
    freeSlots: seq<SlotId>,        // q_audio_streams_free
    validSlots: seq<SlotId>,       // q_audio_streams_valid
    slots: seq<StreamPair>,        // s_audio_data_streams
    next: Stream,                  // next_data_stream
    audioFreq: int,
    samplesPerFrame: nat,
    samplesPerLine16: nat,
    audioFrameCount: int,
    aviInfo: DataPacket,
    audioInfo: DataPacket,
    clockRegen: DataPacket)

  /**
   * Every slot is in exactly one of the two queues, and every slot holds both
   * encodings of one packet.
   */
  ghost predicate SlotsConserved(isl: Island)
  {
    |isl.slots| == NumberOfAudioPackets &&
    multiset(isl.freeSlots + isl.validSlots) == multiset(SlotIds()) &&
    forall s :: 0 <= s < |isl.slots| ==> isl.slots[s] == PacketPair(isl.slots[s].streamTrue.packet)
  }

  lemma ConservedSlotsInRange(isl: Island)
    requires SlotsConserved(isl)
    ensures forall s :: s in isl.freeSlots ==> s < NumberOfAudioPackets
    ensures forall s :: s in isl.validSlots ==> s < NumberOfAudioPackets
    ensures |isl.freeSlots| + |isl.validSlots| == NumberOfAudioPackets
  {
    var m := multiset(isl.freeSlots + isl.validSlots);
    forall s | s in isl.freeSlots || s in isl.validSlots
      ensures s < NumberOfAudioPackets
    {
      assert s in isl.freeSlots + isl.validSlots;
      assert s in m;
      assert s in multiset(SlotIds());
    }
    assert |m| == |isl.freeSlots + isl.validSlots|;
  }

  /** Moving the head of the first queue to the tail of the second keeps the slots. */
  lemma MoveFrontToBack(a: seq<SlotId>, b: seq<SlotId>)
    requires |a| > 0
    ensures multiset(a[1..] + (b + [a[0]])) == multiset(a + b)
  {
    assert a == [a[0]] + a[1..];
  }

  /** Moving the head of the second queue to the tail of the first keeps the slots. */
  lemma MoveBackToFront(a: seq<SlotId>, b: seq<SlotId>)
    requires |b| > 0
    ensures multiset((a + [b[0]]) + b[1..]) == multiset(a + b)
  {
    assert b == [b[0]] + b[1..];
    assert (a + [b[0]]) + b[1..] == a + b;
  }

  /** `dvi_audio_init`: all four slots free, the data island and audio off, the rates cleared. */
  function AudioInit(isl: Island): (r: Island)
    ensures SlotsConserved(r)
    ensures r.freeSlots == SlotIds() && r.validSlots == []
    ensures !r.enabled && !r.audioEnabled
    ensures r.samplesPerFrame == 0 && r.samplesPerLine16 == 0 && r.audioFreq == 0 && r.audioFrameCount == 0
    ensures forall s :: 0 <= s < |r.slots| ==> r.slots[s] == PacketPair(NullPacket)
    ensures r.next == isl.next && r.aviInfo == isl.aviInfo
    ensures r.audioInfo == isl.audioInfo && r.clockRegen == isl.clockRegen
  {
    Island(false, false, SlotIds(), [], seq(NumberOfAudioPackets, _ => PacketPair(NullPacket)),
           isl.next, 0, 0, 0, 0, isl.aviInfo, isl.audioInfo, isl.clockRegen)
  }

  /**
   * `dvi_queue_audio_samples`, run on the render core. `frameAfter` is what
   * the opaque `set_audio_samples` returns as the new audio frame count.
   * Returns the new island and the function's result.
   */
  function QueueAudioSamples(isl: Island, samples: seq<int>, count: int, frameAfter: int): (r: (Island, bool))
    requires SlotsConserved(isl)
    ensures SlotsConserved(r.0)
    ensures r.1 <==> isl.audioEnabled && count == 4 && |isl.freeSlots| > 0
    ensures r.1 ==> r.0.freeSlots == isl.freeSlots[1..] && r.0.validSlots == isl.validSlots + [isl.freeSlots[0]]
    ensures r.1 ==> r.0.slots[isl.freeSlots[0]] == PacketPair(AudioSamples(samples, isl.audioFrameCount))
    ensures !r.1 ==> r.0.freeSlots == isl.freeSlots && r.0.validSlots == isl.validSlots && r.0.slots == isl.slots
    ensures r.0.audioFrameCount == if isl.audioEnabled && count == 4 then frameAfter else isl.audioFrameCount
    ensures r.0.next == isl.next && r.0.enabled == isl.enabled && r.0.audioEnabled == isl.audioEnabled
  {
    if isl.audioEnabled && count == 4 then
      var pkt := AudioSamples(samples, isl.audioFrameCount);
      var counted := isl.(audioFrameCount := frameAfter);
      if |isl.freeSlots| > 0 then
        var s := isl.freeSlots[0];
        FillSlotConserves(counted, pkt);
        (counted.(freeSlots := isl.freeSlots[1..], validSlots := isl.validSlots + [s],
                  slots := isl.slots[s := PacketPair(pkt)]), true)
      else
        (counted, false)
    else
      (isl, false)
  }

  /** Filling the oldest free slot and queueing it as valid keeps every slot in one queue. */
  lemma FillSlotConserves(isl: Island, pkt: DataPacket)
    requires SlotsConserved(isl) && |isl.freeSlots| > 0
    ensures isl.freeSlots[0] < |isl.slots|
    ensures var s := isl.freeSlots[0];
      SlotsConserved(isl.(freeSlots := isl.freeSlots[1..], validSlots := isl.validSlots + [s],
                          slots := isl.slots[s := PacketPair(pkt)]))
  {
    ConservedSlotsInRange(isl);
    var s := isl.freeSlots[0];
    assert s in isl.freeSlots;
    var r := isl.(freeSlots := isl.freeSlots[1..], validSlots := isl.validSlots + [s],
                  slots := isl.slots[s := PacketPair(pkt)]);
    MoveFrontToBack(isl.freeSlots, isl.validSlots);
    assert multiset(r.freeSlots + r.validSlots) == multiset(SlotIds());
    forall t | 0 <= t < |r.slots|
      ensures r.slots[t] == PacketPair(r.slots[t].streamTrue.packet)
    {
      if t != s {
        assert r.slots[t] == isl.slots[t];
      }
    }
  }

  /** `dvi_update_data_stream_null`: a null packet for this line's sync bit. */
  function UpdateDataStreamNull(isl: Island, t: Timing, ts: TimingState): (r: Island)
    ensures r.next == NullStream(PolarityFlag(t, ts))
    ensures r == isl.(next := r.next)
  {
    isl.(next := NullStream(PolarityFlag(t, ts)))
  }

  /**
   * `dvi_update_data_stream`, run in the interrupt: on the first two lines of
   * the front porch an InfoFrame or the clock regeneration packet, elsewhere
   * the oldest queued audio stream pair, otherwise a null packet.
   */
  function UpdateDataStream(isl: Island, t: Timing, ts: TimingState, frameCount: nat): (r: Island)
    requires SlotsConserved(isl)
    ensures SlotsConserved(r)
    ensures r.next.vsyncBit == PolarityFlag(t, ts)
    ensures r == isl.(next := r.next, freeSlots := r.freeSlots, validSlots := r.validSlots)
  {
    var flag := PolarityFlag(t, ts);
    NextKeepsSlots(isl, NullStream(flag));
    if isl.samplesPerFrame != 0 then
      if ts.vState == FrontPorch then
        if ts.vCtr == 0 then
          var st := Encoded(if frameCount % 2 == 1 then isl.aviInfo else isl.audioInfo, flag);
          NextKeepsSlots(isl, st);
          isl.(next := st)
        else if ts.vCtr == 1 then
          var st := Encoded(isl.clockRegen, flag);
          NextKeepsSlots(isl, st);
          isl.(next := st)
        else
          UpdateDataStreamNull(isl, t, ts)
      else if isl.audioEnabled && |isl.validSlots| > 0 then
        PlayOldestSlot(isl, flag)
      else
        UpdateDataStreamNull(isl, t, ts)
    else
      UpdateDataStreamNull(isl, t, ts)
  }

  /** Replacing the stream of the next line leaves the slots alone. */
  lemma NextKeepsSlots(isl: Island, st: Stream)
    requires SlotsConserved(isl)
    ensures SlotsConserved(isl.(next := st))
  {
  }

  /** The oldest queued stream pair goes out and its slot returns to the free queue. */
  function PlayOldestSlot(isl: Island, flag: bool): (r: Island)
    requires SlotsConserved(isl) && |isl.validSlots| > 0
    ensures SlotsConserved(r)
    ensures r.next == Select(isl.slots[isl.validSlots[0]], flag)
    ensures r.validSlots == isl.validSlots[1..] && r.freeSlots == isl.freeSlots + [isl.validSlots[0]]
    ensures r == isl.(next := r.next, freeSlots := r.freeSlots, validSlots := r.validSlots)
  {
    ConservedSlotsInRange(isl);
    var s := isl.validSlots[0];
    MoveBackToFront(isl.freeSlots, isl.validSlots);
    isl.(next := Select(isl.slots[s], flag), validSlots := isl.validSlots[1..], freeSlots := isl.freeSlots + [s])
  }

  /** `dvi_audio_enable`: the request takes effect only once the data island is enabled. */
  function AudioEnable(isl: Island, enable: bool): (r: Island)
    ensures r.audioEnabled == (if isl.enabled then enable else isl.audioEnabled)
    ensures r == isl.(audioEnabled := r.audioEnabled)
  {
    if isl.enabled then isl.(audioEnabled := enable) else isl
  }

  /**
   * `dvi_set_audio_freq`: records the rate and the clock regeneration values
   * and derives the number of samples per frame and per line (16.16 fixed
   * point) in 64-bit unsigned arithmetic; the results are stored in 32-bit fields.
   */
  function SetAudioFreq(isl: Island, t: Timing, audioFreq: int, cts: int, n: int): (r: Island)
    requires t.pixelClock > 0
    ensures r.audioFreq == audioFreq && r.audioInfo == AudioInfoFrame(audioFreq)
    ensures r.clockRegen == ClockRegeneration(cts, n)
    ensures r == isl.(audioFreq := audioFreq, audioInfo := r.audioInfo, clockRegen := r.clockRegen,
                      samplesPerFrame := r.samplesPerFrame, samplesPerLine16 := r.samplesPerLine16)
  {
    var f := U64(audioFreq);
    var perLine16 := U64(U64(f * t.pixelsPerLine) * 65536) / t.pixelClock;
    isl.(audioFreq := audioFreq, clockRegen := ClockRegeneration(cts, n), audioInfo := AudioInfoFrame(audioFreq),
         samplesPerFrame := SamplesPerFrame(t, audioFreq), samplesPerLine16 := U32(perLine16))
  }

  /** Line 534: audio samples per video frame, computed in 64 bits and stored in 32. */
  function SamplesPerFrame(t: Timing, audioFreq: int): (r: nat)
    requires t.pixelClock > 0
    ensures IsU32(r)
  {
    U32(U64(U64(audioFreq) * t.pixelsPerFrame) / t.pixelClock)
  }

  // ---------------------------------------------------------------- lemmas

  /** `queue_add_blocking_u32` on the valid queue (capacity four) in `dvi_queue_audio_samples` never waits. */
  lemma QueueAudioNeverBlocks(isl: Island)
    requires SlotsConserved(isl) && |isl.freeSlots| > 0
    ensures |isl.validSlots| < NumberOfAudioPackets
  {
    ConservedSlotsInRange(isl);
  }

  /** Returning a played slot to the free queue (capacity four) in `dvi_update_data_stream` never waits. */
  lemma ReturnSlotNeverBlocks(isl: Island)
    requires SlotsConserved(isl) && |isl.validSlots| > 0
    ensures |isl.freeSlots| < NumberOfAudioPackets
  {
    ConservedSlotsInRange(isl);
  }

  /** Front-porch lines never take a slot from the valid queue. */
  lemma FrontPorchConsumesNoSlot(isl: Island, t: Timing, ts: TimingState, frameCount: nat)
    requires SlotsConserved(isl) && ts.vState == FrontPorch
    ensures UpdateDataStream(isl, t, ts, frameCount).validSlots == isl.validSlots
    ensures UpdateDataStream(isl, t, ts, frameCount).freeSlots == isl.freeSlots
  {
  }

  /** What the first two front-porch lines of a frame carry once audio rates are set. */
  lemma FrontPorchPackets(isl: Island, t: Timing, ts: TimingState, frameCount: nat)
    requires SlotsConserved(isl) && ts.vState == FrontPorch && isl.samplesPerFrame != 0
    ensures var r := UpdateDataStream(isl, t, ts, frameCount);
      (ts.vCtr == 0 && frameCount % 2 == 1 ==> r.next.packet == isl.aviInfo) &&
      (ts.vCtr == 0 && frameCount % 2 == 0 ==> r.next.packet == isl.audioInfo) &&
      (ts.vCtr == 1 ==> r.next.packet == isl.clockRegen) &&
      (ts.vCtr > 1 ==> r.next.packet == NullPacket)
  {
  }

  /**
   * Outside the front porch, with audio on and a stream pair queued, the oldest
   * pair is played in the encoding that matches the sync bit and its slot is
   * returned to the back of the free queue.
   */
  lemma PlaysOldestQueuedPair(isl: Island, t: Timing, ts: TimingState, frameCount: nat)
    requires SlotsConserved(isl) && isl.samplesPerFrame != 0 && isl.audioEnabled
    requires ts.vState != FrontPorch && |isl.validSlots| > 0
    ensures var r := UpdateDataStream(isl, t, ts, frameCount);
      var s := isl.validSlots[0];
      r.next == Select(isl.slots[s], PolarityFlag(t, ts)) &&
      r.validSlots == isl.validSlots[1..] && r.freeSlots == isl.freeSlots + [s]
  {
  }

  /** Without audio, or before a rate is set, only null packets are sent and no slot moves. */
  lemma SilentSendsNull(isl: Island, t: Timing, ts: TimingState, frameCount: nat)
    requires SlotsConserved(isl) && (!isl.audioEnabled || isl.samplesPerFrame == 0)
    requires isl.samplesPerFrame == 0 || ts.vState != FrontPorch
    ensures UpdateDataStream(isl, t, ts, frameCount) == UpdateDataStreamNull(isl, t, ts)
  {
  }

  /** An audio line with nothing queued (an underrun) gets the null packet, and no slot moves. */
  lemma UnderrunSendsNull(isl: Island, t: Timing, ts: TimingState, frameCount: nat)
    requires SlotsConserved(isl) && isl.samplesPerFrame != 0 && isl.audioEnabled
    requires ts.vState != FrontPorch && isl.validSlots == []
    ensures var r := UpdateDataStream(isl, t, ts, frameCount);
      r == UpdateDataStreamNull(isl, t, ts) && r.next == NullStream(PolarityFlag(t, ts)) &&
      r.freeSlots == isl.freeSlots && r.validSlots == []
  {
  }

  /** A packet queued while no other is pending is the one the next audio line carries. */
  lemma {:induction false} QueuedSamplesPlayNext(isl: Island, samples: seq<int>, frameAfter: int,
                                                 t: Timing, ts: TimingState, frameCount: nat)
    requires SlotsConserved(isl) && isl.audioEnabled && |isl.freeSlots| > 0 && isl.validSlots == []
    requires isl.samplesPerFrame != 0 && ts.vState != FrontPorch
    ensures var q := QueueAudioSamples(isl, samples, 4, frameAfter).0;
      UpdateDataStream(q, t, ts, frameCount).next
        == Encoded(AudioSamples(samples, isl.audioFrameCount), PolarityFlag(t, ts))
  {
    var q := QueueAudioSamples(isl, samples, 4, frameAfter).0;
    assert q.validSlots == [isl.freeSlots[0]];
    PlaysOldestQueuedPair(q, t, ts, frameCount);
  }

  /** Turning audio on before the data island is enabled changes nothing. */
  lemma AudioEnableNeedsIsland(isl: Island, enable: bool)
    requires !isl.enabled
    ensures AudioEnable(isl, enable) == isl
  {
  }

  /**
   * HDMI Audio Clock Regeneration (section 7.2 of the HDMI 1.4b specification):
   * `128 * fs * CTS == f_pixel * N`.
   */
  predicate ClockRegenHolds(pixelClock: nat, n: nat, cts: nat, fs: nat)
  {
    128 * fs * cts == pixelClock * n
  }

  /** The values the firmware passes (N = 6272, CTS = 30000, 44.1 kHz) are exact for 27 MHz. */
  lemma FirmwareCtsExactAt27MHz()
    ensures ClockRegenHolds(Timing720x480.pixelClock, 6272, 30000, 44100)
  {
  }

  /** At 25.2 MHz the relation asks for CTS = 28000; the 30000 passed for this mode too does not satisfy it. */
  lemma FirmwareCtsAt25MHz()
    ensures ClockRegenHolds(Timing640x480.pixelClock, 6272, 28000, 44100)
    ensures !ClockRegenHolds(Timing640x480.pixelClock, 6272, 30000, 44100)
  {
  }

  /**
   * Without wrap-around, `samples_per_frame` is the audio rate divided by the
   * frame rate, rounded down.
   */
  lemma SamplesPerFrameIsFloor(isl: Island, t: Timing, audioFreq: int, cts: int, n: int)
    requires t.pixelClock > 0 && 0 <= audioFreq < 0x8000_0000 && audioFreq * t.pixelsPerFrame < TWO32
    ensures var spf := SetAudioFreq(isl, t, audioFreq, cts, n).samplesPerFrame;
      spf * t.pixelClock <= audioFreq * t.pixelsPerFrame < (spf + 1) * t.pixelClock
  {
    var a: nat := audioFreq * t.pixelsPerFrame;
    var c := t.pixelClock;
    var q := a / c;
    DivFloor(a, c);
    DivAtMost(a, c);
    assert U64(audioFreq) == audioFreq;
    assert U64(a) == a;
    assert U32(q) == q;
    assert SamplesPerFrame(t, audioFreq) == q;
    assert SetAudioFreq(isl, t, audioFreq, cts, n).samplesPerFrame == q;
  }

  /** The rates both video modes derive for 44.1 kHz audio. */
  lemma AudioRatesAt44100(isl: Island)
    ensures SetAudioFreq(isl, Timing640x480, 44100, 30000, 6272).samplesPerFrame == 735
    ensures SetAudioFreq(isl, Timing640x480, 44100, 30000, 6272).samplesPerLine16 == 91750
    ensures SetAudioFreq(isl, Timing720x480, 44100, 30000, 6272).samplesPerFrame == 735
    ensures SetAudioFreq(isl, Timing720x480, 44100, 30000, 6272).samplesPerLine16 == 91842
  {
  }
}
