/**
 * The per-scanline output engine of libdvi/dvi.c as values: the pool of
 * TMDS scanline buffers, the two buffer queues, the two-stage release
 * pipeline, the counters, the DMA template the next line loads, and one
 * interrupt tick composed from the steps `dvi_dma_irq_handler` runs.
 * The class in module Dvi is proved to follow these functions.
 */
module DviSpec {
  import opened Wrappers
  import opened CArith
  import opened DviTiming
  import opened DataIsland

  /** A TMDS scanline buffer, named by its allocation index. */
  type BufId = nat

  /** Both buffer queues are created with room for eight entries. */
  const QueueCapacity: nat := 8

  /** `A2DVI_SCANLINES`: 192 Apple II lines shown twice plus four 16-line status rows. */
  const A2DviScanlines: nat := 2 * 192 + 4 * 16

  /** The pre-built DMA block lists of `struct dvi_inst`. */
  datatype DmaList = ActiveList | ActiveBlankList | ErrorList | VblankSyncList | VblankNosyncList

  /** Where the pixel lanes of `dma_list_active` currently read from. */
  datatype PixelSource = SramBase | Scanline(buf: BufId)

  /**
   * Who holds each buffer: `q_tmds_free`, `q_tmds_valid`, `tmds_buf_release`,
   * `tmds_buf_release_next`, and the render core between `dvi_get_scanline`
   * and `dvi_send_scanline`.
   */
  datatype Pool = Pool(
    free: seq<BufId>,
    valid: seq<BufId>,
    release: Option<BufId>,
    releaseNext: Option<BufId>,
    producer: seq<BufId>)

  function Owned(p: Pool): seq<BufId>
  {
    p.free + p.valid + ToSeq(p.release) + ToSeq(p.releaseNext) + p.producer
  }

  function PoolIds(n: nat): (s: seq<BufId>)
    ensures |s| == n && forall i :: 0 <= i < n ==> s[i] == i
  {
    seq(n, i => i)
  }

  /** Every one of the `n` allocated buffers has exactly one holder. */
  ghost predicate Conserved(p: Pool, n: nat)
  {
    multiset(Owned(p)) == multiset(PoolIds(n))
  }

  /** The fields of `struct dvi_inst` the engine reads and writes. */
  datatype Engine = Engine(
    started: bool,                 // dvi_started
    ts: TimingState,               // timing_state
    timing: Timing,                // *timing
    scanlineEmulation: bool,
    pool: Pool,
    late: nat,                     // late_scanline_ctr
    errors: nat,                   // scanline_errors
    frames: nat,                   // dvi_frame_count
    loaded: DmaList,               // the block list most recently handed to the DMA
    activeSrc: PixelSource,        // the patched source of dma_list_active
    withAudio: bool,               // block lists rebuilt with data-island periods
    island: Island)

  ghost predicate EngineValid(e: Engine, n: nat)
  {
    n <= QueueCapacity && Conserved(e.pool, n) && SlotsConserved(e.island)
  }

  function Min(a: nat, b: nat): nat { if a <= b then a else b }

  // ------------------------------------------------------------ IRQ steps

  /**
   * Lines 271-274: the buffer released two lines ago goes back to the free
   * queue (`None` stands for the panic when that queue is full), and the
   * pending release moves up one stage.
   */
  function ReleaseStep(p: Pool): Option<Pool>
  {
    if p.release.Some? && |p.free| >= QueueCapacity then None
    else Some(p.(free := p.free + ToSeq(p.release), release := p.releaseNext, releaseNext := None))
  }

  /**
   * Lines 284-290: while lines are owed and a buffer is ready, hand the
   * oldest ready buffer straight back to the free queue.
   */
  function Drain(free: seq<BufId>, valid: seq<BufId>, late: nat): (r: (seq<BufId>, seq<BufId>, nat))
    ensures var k := Min(late, |valid|);
      r.0 == free + valid[..k] && r.1 == valid[k..] && r.2 == late - k
    decreases late
  {
    if late > 0 && |valid| > 0 then
      var k := Min(late, |valid|);
      assert (free + [valid[0]]) + valid[1..][..k - 1] == free + valid[..k];
      assert valid[1..][k - 1..] == valid[k..];
      Drain(free + [valid[0]], valid[1..], late - 1)
    else
      (free, valid, late)
  }

  /** Lines 293-296: the line carries no Apple II picture. */
  predicate Blanked(t: Timing, ts: TimingState, scanlineEmulation: bool)
  {
    ts.vState != Active ||
    ts.vCtr < U32(t.vActiveLines - A2DviScanlines) / 2 ||
    (scanlineEmulation && ts.vCtr % 2 == 0) ||
    ts.vCtr >= t.vActiveLines / 2 + A2DviScanlines / 2
  }

  /** The last of the `repeat` output lines a scanline buffer is shown on. */
  predicate LastRepeat(ts: TimingState, repeat: nat)
    requires repeat > 0
  {
    ts.vCtr % repeat == repeat - 1
  }

  /** What lines 293-315 decide for this line. */
  datatype LineKind = Blank | Show(buf: BufId) | Starve

  function Classify(e: Engine): LineKind
  {
    if Blanked(e.timing, e.ts, e.scanlineEmulation) then Blank
    else if |e.pool.valid| > 0 then Show(e.pool.valid[0])
    else Starve
  }

  /**
   * Lines 302-315: a shown buffer leaves the valid queue for the release
   * pipeline on its last repeat; a starved line is counted as an error, and
   * as a late line on its last repeat.
   */
  function ShowStep(e: Engine, kind: LineKind, repeat: nat): Engine
    requires repeat > 0
  {
    match kind
    case Blank => e
    case Show(b) =>
      if LastRepeat(e.ts, repeat) && |e.pool.valid| > 0
      then e.(pool := e.pool.(valid := e.pool.valid[1..], releaseNext := Some(b)))
      else e
    case Starve =>
      e.(errors := U32(e.errors + 1), late := if LastRepeat(e.ts, repeat) then U32(e.late + 1) else e.late)
  }

  /** Lines 317-345: the block list loaded for the next line. */
  function TemplateStep(e: Engine, kind: LineKind): Engine
  {
    match e.ts.vState
    case Active =>
      if kind.Show? then e.(loaded := ActiveList, activeSrc := Scanline(kind.buf))
      else e.(loaded := ErrorList)
    case Sync =>
      e.(loaded := VblankSyncList, frames := if e.ts.vCtr == 0 then U32(e.frames + 1) else e.frames)
    case _ =>
      e.(loaded := VblankNosyncList)
  }

  /** Lines 347-352: the data island of the next line. */
  function IslandStep(e: Engine): Engine
    requires SlotsConserved(e.island)
  {
    e.(island := NextIsland(e))
  }

  function NextIsland(e: Engine): Island
    requires SlotsConserved(e.island)
  {
    if !e.island.enabled then e.island
    else if e.island.audioEnabled then UpdateDataStream(e.island, e.timing, e.ts, e.frames)
    else UpdateDataStreamNull(e.island, e.timing, e.ts)
  }

  /** The pool after the drain of lines 284-290, and what is still owed. */
  function DrainPool(p: Pool, late: nat): (Pool, nat)
  {
    var d := Drain(p.free, p.valid, late);
    (p.(free := d.0, valid := d.1), d.2)
  }

  /** The engine after lines 270-290, for a tick whose release step does not panic. */
  function AfterDrain(e: Engine, ts: TimingState): Engine
    requires ReleaseStep(e.pool).Some?
  {
    var d := DrainPool(ReleaseStep(e.pool).value, e.late);
    e.(ts := ts, pool := d.0, late := d.1)
  }

  /**
   * One run of `dvi_dma_irq_handler` with the timing state `ts` that
   * `dvi_timing_state_advance` produced; `None` is the panic at line 272.
   */
  function IrqTick(e: Engine, repeat: nat, ts: TimingState): Option<Engine>
    requires repeat > 0 && SlotsConserved(e.island)
  {
    if ReleaseStep(e.pool).None? then None
    else Some(LineStep(AfterDrain(e, ts), repeat))
  }

  /** Lines 293-352: classify the line, show or count it, load its template and refresh the data island. */
  function LineStep(a: Engine, repeat: nat): Engine
    requires repeat > 0 && SlotsConserved(a.island)
  {
    var kind := Classify(a);
    IslandStep(TemplateStep(ShowStep(a, kind, repeat), kind))
  }

  // ------------------------------------------------------- pool lemmas

  lemma ConservedCount(p: Pool, n: nat)
    requires Conserved(p, n)
    ensures |Owned(p)| == n
  {
    assert |multiset(Owned(p))| == |multiset(PoolIds(n))|;
  }

  /**
   * Conservation means each buffer id below `n` is held exactly once and no
   * other id is held: the holders are pairwise disjoint and hold no duplicate.
   */
  lemma ConservedExactlyOnce(p: Pool, n: nat, b: BufId)
    requires Conserved(p, n)
    ensures multiset(Owned(p))[b] == if b < n then 1 else 0
  {
    PoolIdsCount(n, b);
  }

  lemma {:induction false} PoolIdsCount(n: nat, b: BufId)
    ensures multiset(PoolIds(n))[b] == if b < n then 1 else 0
  {
    if n > 0 {
      PoolIdsCount(n - 1, b);
      assert PoolIds(n) == PoolIds(n - 1) + [n - 1];
    }
  }

  /** The try-add at line 271 always succeeds: the panic there cannot happen when N <= 8. */
  lemma ReleaseNeverPanics(e: Engine, n: nat)
    requires EngineValid(e, n)
    ensures ReleaseStep(e.pool).Some?
  {
    ConservedCount(e.pool, n);
  }

  lemma ReleaseConserves(p: Pool, n: nat)
    requires Conserved(p, n) && ReleaseStep(p).Some?
    ensures Conserved(ReleaseStep(p).value, n) && ReleaseStep(p).value.releaseNext == None
  {
    var q := ReleaseStep(p).value;
    assert multiset(Owned(q)) == multiset(Owned(p));
  }

  /** The free queue never fills while the drain pushes to it, so its blocking add never waits. */
  lemma DrainNeverBlocks(p: Pool, n: nat)
    requires Conserved(p, n) && n <= QueueCapacity && |p.valid| > 0
    ensures |p.free| < QueueCapacity
  {
    ConservedCount(p, n);
  }

  lemma DrainConserves(p: Pool, late: nat, n: nat)
    requires Conserved(p, n)
    ensures Conserved(DrainPool(p, late).0, n)
  {
    var q := DrainPool(p, late).0;
    AppendSplit(p.free, p.valid, Min(late, |p.valid|));
    assert q.free + q.valid == p.free + p.valid;
    assert Owned(q) == Owned(p);
  }

  /** Moving the first `k` ready buffers to the end of the free queue keeps the two queues' order. */
  lemma AppendSplit(f: seq<BufId>, v: seq<BufId>, k: nat)
    requires k <= |v|
    ensures f + v[..k] + v[k..] == f + v
  {
    assert v == v[..k] + v[k..];
  }

  /** Moving the head of the valid queue into the empty second release stage keeps the pool. */
  lemma ShowConserves(p: Pool, n: nat)
    requires Conserved(p, n) && p.releaseNext == None && |p.valid| > 0
    ensures Conserved(p.(valid := p.valid[1..], releaseNext := Some(p.valid[0])), n)
  {
    var q := p.(valid := p.valid[1..], releaseNext := Some(p.valid[0]));
    assert p.valid == [p.valid[0]] + p.valid[1..];
    assert multiset(Owned(q)) == multiset(Owned(p));
  }

  /** The late drain moves min(late, |valid|) buffers, oldest first, and lowers the counter by as many. */
  lemma DrainMovesOldest(e: Engine, n: nat, ts: TimingState)
    requires EngineValid(e, n)
    ensures ReleaseStep(e.pool).Some?
    ensures var p := ReleaseStep(e.pool).value;
      var a := AfterDrain(e, ts);
      var k := Min(e.late, |p.valid|);
      a.pool.free == p.free + p.valid[..k] && a.pool.valid == p.valid[k..] && a.late == e.late - k &&
      a.pool.releaseNext == None && Conserved(a.pool, n)
  {
    ReleaseNeverPanics(e, n);
    var p := ReleaseStep(e.pool).value;
    ReleaseConserves(e.pool, n);
    DrainConserves(p, e.late, n);
  }

  /** The whole tick keeps every buffer with exactly one holder and never panics. */
  lemma IrqTickConserves(e: Engine, n: nat, repeat: nat, ts: TimingState)
    requires EngineValid(e, n) && repeat > 0
    ensures IrqTick(e, repeat, ts).Some?
    ensures EngineValid(IrqTick(e, repeat, ts).value, n)
  {
    DrainMovesOldest(e, n, ts);
    var a := AfterDrain(e, ts);
    AfterDrainFrame(e, ts);
    var kind := Classify(a);
    var s := ShowStep(a, kind, repeat);
    if kind.Show? && LastRepeat(a.ts, repeat) {
      ShowConserves(a.pool, n);
    } else {
      assert s.pool == a.pool;
    }
    StepFrames(s, kind);
  }

  /** Choosing the template and the data island moves no buffer and keeps the slots. */
  lemma StepFrames(s: Engine, kind: LineKind)
    requires SlotsConserved(s.island)
    ensures TemplateStep(s, kind).pool == s.pool && TemplateStep(s, kind).island == s.island
    ensures IslandStep(TemplateStep(s, kind)).pool == s.pool
    ensures SlotsConserved(IslandStep(TemplateStep(s, kind)).island)
  {
  }

  /** Release and drain touch only the pool, the owed count and the timing state. */
  lemma AfterDrainFrame(e: Engine, ts: TimingState)
    requires ReleaseStep(e.pool).Some?
    ensures var a := AfterDrain(e, ts);
      a.ts == ts && a.timing == e.timing && a.scanlineEmulation == e.scanlineEmulation &&
      a.errors == e.errors && a.frames == e.frames && a.island == e.island && a.pool.releaseNext == None
  {
  }

  // ------------------------------------------------------- line lemmas

  lemma LineBlank(a: Engine, repeat: nat)
    requires repeat > 0 && SlotsConserved(a.island) && Blanked(a.timing, a.ts, a.scanlineEmulation)
    ensures var r := LineStep(a, repeat);
      r.pool == a.pool && r.late == a.late && r.errors == a.errors
  {
    StepFrames(a, Blank);
  }

  lemma LineShow(a: Engine, repeat: nat)
    requires repeat > 0 && SlotsConserved(a.island) && !Blanked(a.timing, a.ts, a.scanlineEmulation)
    requires |a.pool.valid| > 0
    ensures var b := a.pool.valid[0];
      var r := LineStep(a, repeat);
      r.loaded == ActiveList && r.activeSrc == Scanline(b) && r.errors == a.errors && r.late == a.late &&
      (LastRepeat(a.ts, repeat) ==> r.pool == a.pool.(valid := a.pool.valid[1..], releaseNext := Some(b))) &&
      (!LastRepeat(a.ts, repeat) ==> r.pool == a.pool)
  {
    var b := a.pool.valid[0];
    assert Classify(a) == Show(b);
    var s := ShowStep(a, Show(b), repeat);
    assert s.ts == a.ts && s.errors == a.errors && s.late == a.late;
    var t := TemplateStep(s, Show(b));
    assert t.loaded == ActiveList && t.activeSrc == Scanline(b) && t.pool == s.pool;
    assert t.errors == a.errors && t.late == a.late;
  }

  lemma LineStarve(a: Engine, repeat: nat)
    requires repeat > 0 && SlotsConserved(a.island) && !Blanked(a.timing, a.ts, a.scanlineEmulation)
    requires |a.pool.valid| == 0
    ensures var r := LineStep(a, repeat);
      r.loaded == ErrorList && r.errors == U32(a.errors + 1) && r.pool == a.pool &&
      r.late == (if LastRepeat(a.ts, repeat) then U32(a.late + 1) else a.late)
  {
    var s := ShowStep(a, Starve, repeat);
    StepFrames(s, Starve);
  }

  lemma LineTemplate(a: Engine, repeat: nat)
    requires repeat > 0 && SlotsConserved(a.island)
    ensures var r := LineStep(a, repeat);
      r.loaded != ActiveBlankList &&
      (a.ts.vState == Active && Blanked(a.timing, a.ts, a.scanlineEmulation) ==> r.loaded == ErrorList) &&
      (a.ts.vState == Sync ==> r.loaded == VblankSyncList &&
                               r.frames == (if a.ts.vCtr == 0 then U32(a.frames + 1) else a.frames)) &&
      (a.ts.vState != Sync ==> r.frames == a.frames) &&
      (a.ts.vState == FrontPorch || a.ts.vState == BackPorch ==> r.loaded == VblankNosyncList)
  {
    var kind := Classify(a);
    var s := ShowStep(a, kind, repeat);
    assert s.ts == a.ts && s.frames == a.frames && s.timing == a.timing && s.island == a.island;
    var t := TemplateStep(s, kind);
    TemplateLoads(s, kind);
  }

  /** The block list and frame count `TemplateStep` leaves, by vertical state. */
  lemma TemplateLoads(s: Engine, kind: LineKind)
    ensures var t := TemplateStep(s, kind);
      t.loaded != ActiveBlankList &&
      (s.ts.vState == Active && !kind.Show? ==> t.loaded == ErrorList) &&
      (s.ts.vState == Sync ==> t.loaded == VblankSyncList &&
                               t.frames == (if s.ts.vCtr == 0 then U32(s.frames + 1) else s.frames)) &&
      (s.ts.vState != Sync ==> t.frames == s.frames) &&
      (s.ts.vState == FrontPorch || s.ts.vState == BackPorch ==> t.loaded == VblankNosyncList)
  {
  }

  lemma LineIsland(a: Engine, repeat: nat)
    requires repeat > 0 && SlotsConserved(a.island)
    ensures var r := LineStep(a, repeat);
      (!a.island.enabled ==> r.island == a.island) &&
      (a.island.enabled ==> r.island.next.vsyncBit == PolarityFlag(a.timing, a.ts)) &&
      (a.island.enabled && !a.island.audioEnabled ==> r.island.next == NullStream(PolarityFlag(a.timing, a.ts)))
  {
    var kind := Classify(a);
    ShowTemplateFrame(a, kind, repeat);
    NextIslandChoice(TemplateStep(ShowStep(a, kind, repeat), kind));
  }

  /** Showing a line and loading its template leave the timing, the timing state and the island alone. */
  lemma ShowTemplateFrame(a: Engine, kind: LineKind, repeat: nat)
    requires repeat > 0
    ensures var t := TemplateStep(ShowStep(a, kind, repeat), kind);
      t.ts == a.ts && t.timing == a.timing && t.island == a.island
  {
  }

  /** The island `NextIsland` picks, by whether the data island and audio are enabled. */
  lemma NextIslandChoice(t: Engine)
    requires SlotsConserved(t.island)
    ensures var i := NextIsland(t);
      (!t.island.enabled ==> i == t.island) &&
      (t.island.enabled ==> i.next.vsyncBit == PolarityFlag(t.timing, t.ts)) &&
      (t.island.enabled && !t.island.audioEnabled ==> i.next == NullStream(PolarityFlag(t.timing, t.ts)))
  {
  }

  /** Blank lines take no buffer and count nothing beyond the drain. */
  lemma BlankLineConsumesNothing(e: Engine, n: nat, repeat: nat, ts: TimingState)
    requires EngineValid(e, n) && repeat > 0
    requires Blanked(e.timing, ts, e.scanlineEmulation)
    ensures ReleaseStep(e.pool).Some?
    ensures var a := AfterDrain(e, ts);
      var r := IrqTick(e, repeat, ts).value;
      r.pool == a.pool && r.late == a.late && r.errors == e.errors
  {
    ReleaseNeverPanics(e, n);
    AfterDrainFrame(e, ts);
    IrqTickIsLineStep(e, repeat, ts);
    LineBlank(AfterDrain(e, ts), repeat);
  }

  /**
   * A visible line with a ready buffer shows the oldest one, patched into the
   * active list, and dequeues it into the release pipeline only on its last repeat.
   */
  lemma VisibleLineShowsOldest(e: Engine, n: nat, repeat: nat, ts: TimingState)
    requires EngineValid(e, n) && repeat > 0
    requires !Blanked(e.timing, ts, e.scanlineEmulation)
    requires ReleaseStep(e.pool).Some? && |AfterDrain(e, ts).pool.valid| > 0
    ensures var a := AfterDrain(e, ts);
      var b := a.pool.valid[0];
      var r := IrqTick(e, repeat, ts).value;
      r.loaded == ActiveList && r.activeSrc == Scanline(b) && r.errors == e.errors && r.late == a.late &&
      (LastRepeat(ts, repeat) ==> r.pool.valid == a.pool.valid[1..] && r.pool.releaseNext == Some(b)) &&
      (!LastRepeat(ts, repeat) ==> r.pool.valid == a.pool.valid && r.pool.releaseNext == None)
  {
    AfterDrainFrame(e, ts);
    IrqTickIsLineStep(e, repeat, ts);
    LineShow(AfterDrain(e, ts), repeat);
  }

  /**
   * A visible line with no ready buffer loads the error list, counts one
   * scanline error, and owes one late buffer if it was the last repeat.
   */
  lemma StarvedLineCounts(e: Engine, repeat: nat, ts: TimingState)
    requires SlotsConserved(e.island) && repeat > 0
    requires !Blanked(e.timing, ts, e.scanlineEmulation)
    requires ReleaseStep(e.pool).Some? && |AfterDrain(e, ts).pool.valid| == 0
    ensures var a := AfterDrain(e, ts);
      var r := IrqTick(e, repeat, ts).value;
      r.loaded == ErrorList && r.errors == U32(e.errors + 1) &&
      r.late == (if LastRepeat(ts, repeat) then U32(a.late + 1) else a.late) &&
      r.pool == a.pool
  {
    var a := AfterDrain(e, ts);
    AfterDrainFrame(e, ts);
    IrqTickIsLineStep(e, repeat, ts);
    LineStarve(a, repeat);
  }

  /**
   * The template choice: the active-blank list is never loaded; a blanked
   * active line gets the error list; sync lines load the sync list; the
   * porches load the no-sync list.
   */
  lemma TemplateChoice(e: Engine, repeat: nat, ts: TimingState)
    requires repeat > 0 && SlotsConserved(e.island) && ReleaseStep(e.pool).Some?
    ensures var r := IrqTick(e, repeat, ts).value;
      r.loaded != ActiveBlankList &&
      (ts.vState == Active && Blanked(e.timing, ts, e.scanlineEmulation) ==> r.loaded == ErrorList) &&
      (ts.vState == Sync ==> r.loaded == VblankSyncList) &&
      (ts.vState == FrontPorch || ts.vState == BackPorch ==> r.loaded == VblankNosyncList)
  {
    AfterDrainFrame(e, ts);
    IrqTickIsLineStep(e, repeat, ts);
    LineTemplate(AfterDrain(e, ts), repeat);
  }

  /**
   * A tick that does not panic is the line step applied to the drained
   * engine, so the facts `LineTemplate` states about the frame counter hold
   * for the whole tick.
   */
  lemma IrqTickIsLineStep(e: Engine, repeat: nat, ts: TimingState)
    requires repeat > 0 && SlotsConserved(e.island) && ReleaseStep(e.pool).Some?
    ensures IrqTick(e, repeat, ts) == Some(LineStep(AfterDrain(e, ts), repeat))
    ensures AfterDrain(e, ts).ts == ts && AfterDrain(e, ts).frames == e.frames
  {
    AfterDrainFrame(e, ts);
  }

  /** The data island of the next line is refreshed only once it is enabled, and always for this line's sync bit. */
  lemma IrqIslandChoice(e: Engine, repeat: nat, ts: TimingState)
    requires repeat > 0 && SlotsConserved(e.island) && ReleaseStep(e.pool).Some?
    ensures var r := IrqTick(e, repeat, ts).value;
      (!e.island.enabled ==> r.island == e.island) &&
      (e.island.enabled ==> r.island.next.vsyncBit == PolarityFlag(e.timing, ts)) &&
      (e.island.enabled && !e.island.audioEnabled ==> r.island.next == NullStream(PolarityFlag(e.timing, ts)))
  {
    AfterDrainFrame(e, ts);
    IrqTickIsLineStep(e, repeat, ts);
    LineIsland(AfterDrain(e, ts), repeat);
  }

  /** With the firmware's 480-line timings exactly 448 lines fall inside the picture band. */
  lemma PictureBand480(ts: TimingState)
    requires ts.vState == Active
    ensures !Blanked(Timing640x480, ts, false) <==> 16 <= ts.vCtr < 464
    ensures !Blanked(Timing720x480, ts, false) <==> 16 <= ts.vCtr < 464
  {
  }

  // -------------------------------------------------------- producer

  /** `dvi_get_scanline`: the render core takes the oldest free buffer (it blocks while none is free). */
  function GetScanline(p: Pool): Pool
    requires |p.free| > 0
  {
    p.(free := p.free[1..], producer := p.producer + [p.free[0]])
  }

  /** `dvi_send_scanline`: the render core queues the buffer it took first. */
  function SendScanline(p: Pool): Pool
    requires |p.producer| > 0
  {
    p.(valid := p.valid + [p.producer[0]], producer := p.producer[1..])
  }

  lemma GetScanlineConserves(p: Pool, n: nat)
    requires Conserved(p, n) && |p.free| > 0
    ensures Conserved(GetScanline(p), n)
    ensures GetScanline(p).producer[|p.producer|] == p.free[0]
  {
    var q := GetScanline(p);
    assert p.free == [p.free[0]] + p.free[1..];
    assert multiset(Owned(q)) == multiset(Owned(p));
  }

  /** Sending never waits on a full valid queue, and keeps the pool. */
  lemma SendScanlineConserves(p: Pool, n: nat)
    requires Conserved(p, n) && n <= QueueCapacity && |p.producer| > 0
    ensures |p.valid| < QueueCapacity
    ensures Conserved(SendScanline(p), n)
    ensures SendScanline(p).valid[|p.valid|] == p.producer[0]
  {
    ConservedCount(p, n);
    var q := SendScanline(p);
    assert p.producer == [p.producer[0]] + p.producer[1..];
    assert multiset(Owned(q)) == multiset(Owned(p));
  }

  // --------------------------------------------------------- lifecycle

  /** Lines 30-65 of `dvi_init`: stopped, counters cleared, queues empty, audio reset. */
  function Cleared(e: Engine): Engine
  {
    Engine(false, InitialTimingState, e.timing, false, Pool([], [], None, None, []), 0, 0, 0,
           e.loaded, SramBase, false, AudioInit(e.island))
  }

  /**
   * `dvi_init` after `allocations` successful buffer allocations: with fewer
   * than `n` it stops at the panic of line 83, having queued the buffers it got.
   */
  function Init(e: Engine, n: nat, allocations: nat): Engine
  {
    var c := Cleared(e);
    c.(pool := c.pool.(free := PoolIds(Min(allocations, n))),
       island := if allocations < n then c.island else c.island.(aviInfo := AviInfoFrame))
  }

  predicate InitHalts(n: nat, allocations: nat) { allocations < n }

  /** After a complete `dvi_init` the engine is stopped, counters cleared, and all N buffers free. */
  lemma InitState(e: Engine, n: nat, allocations: nat)
    requires n <= QueueCapacity && !InitHalts(n, allocations)
    ensures var r := Init(e, n, allocations);
      EngineValid(r, n) && !r.started && r.late == 0 && r.errors == 0 && r.frames == 0 &&
      r.pool.release == None && r.pool.releaseNext == None && r.pool.valid == [] &&
      r.pool.free == PoolIds(n) && |r.pool.free| == n
  {
    var r := Init(e, n, allocations);
    assert Owned(r.pool) == PoolIds(n);
  }

  /** `dvi_start`: only a stopped engine loads the no-sync list and starts. */
  function Start(e: Engine): Engine
  {
    if e.started then e else e.(loaded := VblankNosyncList, started := true)
  }

  /** `dvi_stop`: only a started engine is stopped. */
  function Stop(e: Engine): Engine
  {
    if !e.started then e else e.(started := false)
  }

  lemma StartStopIdempotent(e: Engine)
    ensures Start(Start(e)) == Start(e) && Start(e).started
    ensures Stop(Stop(e)) == Stop(e) && !Stop(e).started
    ensures Start(e).pool == e.pool && Stop(e).pool == e.pool
  {
  }

  /**
   * `dvi_enable_data_island`: rebuilds every block list with data-island
   * periods reading `next_data_stream`, and enables the data island.
   */
  function EnableDataIsland(e: Engine): Engine
  {
    e.(withAudio := true, activeSrc := SramBase, island := e.island.(enabled := true))
  }

  /** The order lines 383-410 of `dvi_destroy` free the buffers in: the release slots, then free and valid alternately. */
  function DestroyOrder(p: Pool): seq<BufId>
  {
    ToSeq(p.release) + ToSeq(p.releaseNext) + Interleave(p.free, p.valid)
  }

  /** The buffer a pass of the loop of lines 395-410 takes from one queue: its head, if any. */
  function Head(q: seq<BufId>): (h: seq<BufId>)
    ensures |h| <= 1 && (h == [] <==> q == [])
  {
    if q == [] then [] else [q[0]]
  }

  /** The queue after a pass has taken its head. */
  function Rest(q: seq<BufId>): (r: seq<BufId>)
    ensures Head(q) + r == q
  {
    if q == [] then [] else q[1..]
  }

  /** One buffer from each queue per pass of the loop, while either has one. */
  function Interleave(a: seq<BufId>, b: seq<BufId>): (r: seq<BufId>)
    ensures |r| == |a| + |b|
    decreases |a| + |b|
  {
    if a == [] && b == [] then []
    else Head(a) + Head(b) + Interleave(Rest(a), Rest(b))
  }

  /** Every buffer of both queues is taken, and nothing else. */
  lemma {:induction false} InterleavePermutes(a: seq<BufId>, b: seq<BufId>)
    ensures multiset(Interleave(a, b)) == multiset(a) + multiset(b)
    decreases |a| + |b|
  {
    if a != [] || b != [] {
      var ha, hb, ra, rb := Head(a), Head(b), Rest(a), Rest(b);
      InterleavePermutes(ra, rb);
      var rest := Interleave(ra, rb);
      assert Interleave(a, b) == ha + hb + rest;
      assert a == ha + ra && b == hb + rb;
      SwapMiddle(multiset(ha), multiset(hb), multiset(ra), multiset(rb));
    }
  }

  lemma SwapMiddle(w: multiset<BufId>, x: multiset<BufId>, y: multiset<BufId>, z: multiset<BufId>)
    ensures w + x + (y + z) == (w + y) + (x + z)
  {
  }

  /** One pass of the loop: the buffers freed so far, then this pass's, then the rest in order. */
  lemma InterleaveStep(freed: seq<BufId>, a: seq<BufId>, b: seq<BufId>, order: seq<BufId>)
    requires freed + Interleave(a, b) == order && (a != [] || b != [])
    ensures (freed + (Head(a) + Head(b))) + Interleave(Rest(a), Rest(b)) == order
  {
    assert Interleave(a, b) == Head(a) + Head(b) + Interleave(Rest(a), Rest(b));
  }

  /** With the render core holding nothing, destroy frees each of the N buffers exactly once. */
  lemma DestroyFreesEachOnce(p: Pool, n: nat)
    requires Conserved(p, n) && p.producer == []
    ensures multiset(DestroyOrder(p)) == multiset(PoolIds(n))
    ensures |DestroyOrder(p)| == n
  {
    ConservedCount(p, n);
    InterleavePermutes(p.free, p.valid);
    assert multiset(DestroyOrder(p)) == multiset(Owned(p));
  }

  /** A buffer held by the render core is never found, so the loop's count stays below N and it spins. */
  lemma DestroySpinsWhileProducerHolds(p: Pool, n: nat)
    requires Conserved(p, n) && p.producer != []
    ensures |DestroyOrder(p)| < n
  {
    ConservedCount(p, n);
  }
}
