/**
 * The video timing the DVI engine is driven by. The timing tables and the
 * per-line state machine that advances `v_state`/`v_ctr` live in
 * libdvi/dvi_timing.c, which is not part of this model: the state of each
 * tick is an input, and the two tables used by the firmware are given here
 * with their CEA-861 values.
 */
module DviTiming {

  /** The vertical phase of the current output line (`DVI_STATE_*`). */
  datatype VState = Sync | BackPorch | Active | FrontPorch

  /** `struct dvi_timing_state`: the phase and the line counter within it. */
  datatype TimingState = TimingState(vState: VState, vCtr: nat)

  /** The fields of `struct dvi_timing` the engine reads. */
  datatype Timing = Timing(
    vActiveLines: nat,
    vSyncPolarity: bool,
    hSyncPolarity: bool,
    pixelClock: nat,
    pixelsPerLine: nat,
    pixelsPerFrame: nat)

  /** `dvi_timing_640x480p_60hz`: 800 x 525 total at 25.2 MHz, negative syncs. */
  const Timing640x480: Timing := Timing(480, false, false, 25_200_000, 800, 800 * 525)

  /** `dvi_timing_720x480p_60hz`: 858 x 525 total at 27 MHz, negative syncs. */
  const Timing720x480: Timing := Timing(480, false, false, 27_000_000, 858, 858 * 525)

  /** What `dvi_timing_state_init` leaves: the first line of the front porch. */
  const InitialTimingState: TimingState := TimingState(FrontPorch, 0)
}
