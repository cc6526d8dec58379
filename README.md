# A2C_DVI firmware core in Dafny

A model of the core of the A2C_DVI firmware, which turns the Apple IIc serial
video output into a DVI/HDMI picture on an RP2040, with proofs about the model.
It covers the following parts:

- **The libdvi scanline engine** (`libraries/libdvi/dvi.c`):
  - a pool of N TMDS scanline buffers;
  - the free and valid buffer queues (capacity 8) and the two-stage release pipeline;
  - the late-line and scanline-error counters, and the frame count;
  - `dvi_init`, `dvi_start`, `dvi_stop` and the buffer loop of `dvi_destroy`;
  - one run of the DMA interrupt handler: release, late drain, classification of the line as blank, shown or starved, choice of the DMA block list, and the data-island refresh.

  Module `DviSpec` states these as functions on values. Class `Dvi.DviInst` mirrors `struct dvi_inst`, and each of its methods is proved to follow the matching function. The main invariant is that every allocated buffer has exactly one holder. It makes the panic of the release step unreachable and makes every blocking queue operation non-blocking.
- **The HDMI data-island scheduler** (`libraries/libdvi/dvi.c`, module `DataIsland`):
  - four pre-encoded audio stream pairs rotating between a free and a valid queue;
  - the producer `dvi_queue_audio_samples`;
  - the per-line choice of InfoFrame, clock regeneration, audio or null packet;
  - the audio gate;
  - the integer rate arithmetic of `dvi_set_audio_freq`.
- **The sample ring** (`libraries/libdvi/audio_ring.c`, module `AudioRing`): 32-bit index arithmetic with one slot kept empty and a bitmask wrap.
- **The mode-switch driver** `a2dvi_dvi_enable` (`firmware/dvi/a2dvi.c`, module `A2Dvi`): the first call initialises, the same mode does nothing, and a new mode tears down, then initialises, then starts. The engine calls it makes are recorded in a log.
- **The self-contained logic of `firmware/a2c/a2c.c`**:
  - the menu cursor over the 13-row table (`A2cMenu`);
  - the settings commands and their set/query round trip (`A2cSettings`);
  - the display-mode cycle;
  - the eight-fold sound sub-sampler (`A2cSound`);
  - the indexing of the captured `s_screen_buffer[192][18]` (`A2cCapture`).
- **The debug status line helpers** of `firmware/render/render_debug.c` (`RenderDebug`): `int2hex`, `copy_str`, the graphics-mode label, and the blank-row and subtitle logic of `render_debug`.

The C integer rules are written out in module `CArith`:

- `uint32_t` arithmetic wraps modulo 2^32;
- `int16_t` conversion wraps;
- `/` truncates toward zero.

The two timing tables the firmware uses are given as data (`DviTiming`). Their values are the CEA-861 ones for 640x480 and 720x480 at 60 Hz, not read from libdvi/dvi_timing.c, which is not part of this model.

## Model

| member | source | states |
|---|---|---|
| AudioRing.Ring.Set | libraries/libdvi/audio_ring.c:28-34 | the caller must give more than one slot; the ring then holds the buffer and size and is empty, with both offsets 0 |
| AudioRing.WriteSpace | libraries/libdvi/audio_ring.c:36-45 | a 32-bit count below the size; without `full` it does not run past the end of the buffer; when write is behind read it is the gap minus the one slot kept empty |
| AudioRing.ReadSpace | libraries/libdvi/audio_ring.c:47-57 | a 32-bit count below the size; without `full` it does not run past the end of the buffer; when read is not ahead of write it is exactly the gap |
| AudioRing.Advance | libraries/libdvi/audio_ring.c:59-67 | the masked 32-bit offset stays below any size up to 2^32 |
| AudioRing.SpaceAddsUp | libraries/libdvi/audio_ring.c:36-57 | with offsets inside the ring, the full write size and the full read size add up to size - 1, so one slot is always kept empty |
| AudioRing.ReadSpaceIsDistance | libraries/libdvi/audio_ring.c:47-57 | the full read size is the distance from read to write around the ring, `(write - read) mod size` |
| AudioRing.EmptyRing | libraries/libdvi/audio_ring.c:36-57 | when read == write nothing is readable and size - 1 is writable; the contiguous write run is size - write, or size - 1 when both are 0 |
| AudioRing.ContiguousRuns | libraries/libdvi/audio_ring.c:40-56 | the contiguous runs never exceed the full sizes or the end of the buffer; the write run is one short when read is 0, and the `-1` of line 43 does not underflow the result |
| AudioRing.AdvanceIsMod | libraries/libdvi/audio_ring.c:59-67 | for a power-of-two size the bitmask advance is `(p + n) mod size` and stays below size |
| AudioRing.WriteAdvance | libraries/libdvi/audio_ring.c:36-62 | advancing write by n, at most the free space, keeps the offsets valid, raises the read size by exactly n and lowers the write size by n |
| AudioRing.ReadAdvance | libraries/libdvi/audio_ring.c:47-67 | advancing read by n, at most the content, keeps the offsets valid, lowers the read size by n and raises the write size by n |
| AudioRing.MaskNeedsPowerOfTwo | libraries/libdvi/audio_ring.c:28-29 | the size check asks only for size > 1; with size 3 the mask sends offset 2 + 1 back to 2 instead of 0 |
| AudioRing.UnmaskedOffsetWraps | libraries/libdvi/audio_ring.c:69-72 | an offset stored unmasked at size makes the free space wrap to 2^32 - 1, so callers must keep offsets below size |
| AudioRing.Ring.IncreaseWritePointer | libraries/libdvi/audio_ring.c:59-62 | the write offset becomes the masked 32-bit sum, and the read offset is untouched |
| AudioRing.Ring.IncreaseReadPointer | libraries/libdvi/audio_ring.c:64-67 | the read offset becomes the masked 32-bit sum, and the write offset is untouched |
| AudioRing.Ring.SetWriteOffset | libraries/libdvi/audio_ring.c:69-72 | the write offset is stored as given, without masking, and nothing else changes |
| AudioRing.Ring.SetReadOffset | libraries/libdvi/audio_ring.c:74-77 | the read offset is stored as given, without masking, and nothing else changes |
| DataIsland.AudioInit | libraries/libdvi/dvi.c:458-487 | all four slots are free, each holds the null packet in both encodings, the data island and audio are off, and the rates and frame count are 0 |
| DataIsland.QueueAudioSamples | libraries/libdvi/dvi.c:547-574 | the result is true exactly when audio is on, count is 4 and a slot is free; then the oldest free slot gets the samples and moves to the back of the valid queue; slots stay conserved |
| DataIsland.FillSlotConserves | libraries/libdvi/dvi.c:560-566 | the slot taken from the free queue names an existing stream pair |
| DataIsland.QueueAudioNeverBlocks | libraries/libdvi/dvi.c:566 | with a free slot taken, the valid queue of capacity four has room, so the blocking add never waits |
| DataIsland.UpdateDataStreamNull | libraries/libdvi/dvi.c:642-648 | the next stream is the null packet encoded for this line's sync bit |
| DataIsland.UpdateDataStream | libraries/libdvi/dvi.c:577-640 | every choice keeps the slots conserved and is encoded for `v_sync_polarity == (v_state == SYNC)` |
| DataIsland.PlayOldestSlot | libraries/libdvi/dvi.c:618-633 | the oldest valid pair is sent in the encoding matching the sync bit, and its slot moves to the back of the free queue |
| DataIsland.ReturnSlotNeverBlocks | libraries/libdvi/dvi.c:631 | with a valid slot taken, the free queue has room, so returning the slot never waits |
| DataIsland.FrontPorchConsumesNoSlot | libraries/libdvi/dvi.c:585-617 | a front-porch line leaves both slot queues as they were |
| DataIsland.FrontPorchPackets | libraries/libdvi/dvi.c:585-617 | once a rate is set, front-porch line 0 carries the AVI InfoFrame on odd frames and the audio InfoFrame on even ones; line 1 carries clock regeneration; later lines carry null |
| DataIsland.PlaysOldestQueuedPair | libraries/libdvi/dvi.c:618-633 | outside the front porch, with audio on and a pair queued, the oldest pair is played and recycled |
| DataIsland.SilentSendsNull | libraries/libdvi/dvi.c:582-640 | before a rate is set, or with audio off outside the front porch, the choice is exactly the null stream and no slot moves |
| DataIsland.UnderrunSendsNull | libraries/libdvi/dvi.c:618-640 | with a rate set and audio on but nothing queued, a line outside the front porch gets the null stream and no slot moves |
| DataIsland.QueuedSamplesPlayNext | libraries/libdvi/dvi.c:547-633 | samples queued while none are pending are what the next audio line carries, in the encoding for that line's sync bit |
| DataIsland.AudioEnable | libraries/libdvi/dvi.c:650-654 | the audio flag takes the request only when the data island is enabled |
| DataIsland.AudioEnableNeedsIsland | libraries/libdvi/dvi.c:650-654 | before the data island is enabled, the request changes nothing |
| DataIsland.SetAudioFreq | libraries/libdvi/dvi.c:527-536 | the rate, the audio InfoFrame and the clock regeneration packet record the arguments |
| DataIsland.SamplesPerFrame | libraries/libdvi/dvi.c:534 | the stored count fits in 32 bits |
| DataIsland.SamplesPerFrameIsFloor | libraries/libdvi/dvi.c:534 | without wrap-around, samples per frame is the audio rate over the frame rate, rounded down |
| DataIsland.AudioRatesAt44100 | libraries/libdvi/dvi.c:534-535 | at 44.1 kHz both modes get 735 samples per frame; per line (16.16) it is 91750 at 640x480 and 91842 at 720x480 |
| DataIsland.FirmwareCtsExactAt27MHz | libraries/libdvi/dvi.c:520-526 | N = 6272 and CTS = 30000 satisfy `128 * fs * CTS == f_pixel * N` exactly at 27 MHz |
| DataIsland.FirmwareCtsAt25MHz | firmware/dvi/a2dvi.c:91 | at 25.2 MHz the relation needs CTS = 28000, and the 30000 passed for both modes does not satisfy it |
| DviSpec.Drain | libraries/libdvi/dvi.c:284-290 | the drain moves the first k = min(late, number of ready buffers) ready buffers, in order, to the end of the free queue and lowers the count by k |
| DviSpec.ConservedExactlyOnce | libraries/libdvi/dvi.c:67-85 | under conservation, every allocated buffer id is held exactly once and no other id is held |
| DviSpec.ReleaseNeverPanics | libraries/libdvi/dvi.c:271-272 | in a valid engine with N <= 8 the try-add to the free queue succeeds, so the panic is unreachable |
| DviSpec.ReleaseConserves | libraries/libdvi/dvi.c:271-274 | the release step keeps every buffer with one holder and empties the second stage |
| DviSpec.DrainNeverBlocks | libraries/libdvi/dvi.c:288 | while a ready buffer remains, the free queue is not full, so the blocking add does not wait |
| DviSpec.DrainConserves | libraries/libdvi/dvi.c:284-290 | the drain keeps every buffer with one holder |
| DviSpec.DrainMovesOldest | libraries/libdvi/dvi.c:284-290 | after release and drain, free gained the oldest min(late, number of ready buffers) ready buffers in FIFO order and late fell by as many |
| DviSpec.ShowConserves | libraries/libdvi/dvi.c:304-307 | moving the valid head into the empty second release stage keeps the pool |
| DviSpec.IrqTickConserves | libraries/libdvi/dvi.c:265-354 | a whole tick never panics and keeps every buffer and audio slot with one holder |
| DviSpec.IrqTickIsLineStep | libraries/libdvi/dvi.c:265-354 | a tick is release and drain followed by the line step; the drain takes the new timing state and keeps the frame count |
| DviSpec.LineBlank | libraries/libdvi/dvi.c:292-300 | a blanked line moves no buffer and changes neither counter |
| DviSpec.LineShow | libraries/libdvi/dvi.c:302-308 | a visible line with a ready buffer patches the active list to the oldest one; the pool changes only on the last repeat |
| DviSpec.LineStarve | libraries/libdvi/dvi.c:309-325 | a visible line with no ready buffer loads the error list and counts one error, plus one late line on the last repeat |
| DviSpec.LineTemplate | libraries/libdvi/dvi.c:317-345 | the active-blank list is never loaded; blanked active lines get the error list; sync lines get the sync list, counting a frame at v_ctr 0; porches get the no-sync list |
| DviSpec.LineIsland | libraries/libdvi/dvi.c:346-353 | the data island is refreshed only when enabled, always for this line's sync bit, and with null when audio is off |
| DviSpec.BlankLineConsumesNothing | libraries/libdvi/dvi.c:293-300 | over a whole tick a blanked line takes no buffer and counts nothing beyond the drain |
| DviSpec.VisibleLineShowsOldest | libraries/libdvi/dvi.c:302-322 | over a whole tick the oldest ready buffer is shown; it is dequeued into the second release stage only when `v_ctr % repeat == repeat - 1` |
| DviSpec.StarvedLineCounts | libraries/libdvi/dvi.c:309-325 | over a whole tick a starved line loads the error list, adds one 32-bit-wrapped error, and adds a late line only on the last repeat |
| DviSpec.TemplateChoice | libraries/libdvi/dvi.c:317-345 | over a whole tick: never the active-blank list; error list for blanked active lines; sync list on sync lines; no-sync list on the porches |
| DviSpec.IrqIslandChoice | libraries/libdvi/dvi.c:347-352 | over a whole tick the island is refreshed only when enabled, for this line's sync bit, and with null when audio is off |
| DviSpec.PictureBand480 | libraries/libdvi/dvi.c:293-296 | with 480 active lines and no scanline emulation, exactly lines 16..463 are outside the letterbox |
| DviSpec.GetScanlineConserves | firmware/render/render_debug.c:247 | taking the oldest free buffer for the render core keeps the pool and hands over that buffer |
| DviSpec.SendScanlineConserves | firmware/render/render_debug.c:255 | the valid queue is never full when the render core sends, the pool is kept, and the buffer goes to the back of the valid queue |
| DviSpec.InitState | libraries/libdvi/dvi.c:30-85 | after a complete init: stopped, counters 0, both release slots empty, valid empty, free holds the N distinct buffers |
| DviSpec.StartStopIdempotent | libraries/libdvi/dvi.c:163-204 | start and stop are idempotent through the started flag, and neither moves a buffer |
| DviSpec.Interleave | libraries/libdvi/dvi.c:395-410 | the loop takes one buffer from each queue per pass, so it frees as many buffers as both queues hold |
| DviSpec.InterleavePermutes | libraries/libdvi/dvi.c:395-410 | the loop frees every buffer of both queues and nothing else |
| DviSpec.DestroyFreesEachOnce | libraries/libdvi/dvi.c:382-410 | with the render core holding nothing, destroy frees each of the N buffers exactly once |
| DviSpec.DestroySpinsWhileProducerHolds | libraries/libdvi/dvi.c:395-410 | a buffer held by the render core keeps the count below N, so the loop never ends |
| Dvi.IslandBlock | libraries/libdvi/dvi.c:512-516 | the sync lane's data island is control block 1; on the other lanes it is block 2 |
| Dvi.UpdateDataIslandPtr | libraries/libdvi/dvi.c:507-518 | each lane's data-island block reads that lane's part of the stream, and no other block changes |
| Dvi.DviInst.Init | libraries/libdvi/dvi.c:28-90 | the panic happens exactly when an allocation fails; otherwise the engine is valid and in the state `DviSpec.Init` describes |
| Dvi.DviInst.Clear | libraries/libdvi/dvi.c:30-65 | stopped, counters and queues cleared, audio reset, block lists without data islands |
| Dvi.DviInst.ClearFlags | libraries/libdvi/dvi.c:30-39 | stopped, no frame counted, timing state at its start |
| Dvi.DviInst.ClearQueues | libraries/libdvi/dvi.c:47-53 | counters 0, nothing to release, both queues empty |
| Dvi.DviInst.ClearLists | libraries/libdvi/dvi.c:59-65 | the active list reads from SRAM_BASE and no data island is set up |
| Dvi.DviInst.AllocateBuffers | libraries/libdvi/dvi.c:67-85 | buffers 0.. are queued free until one allocation fails, which halts |
| Dvi.DviInst.Start | libraries/libdvi/dvi.c:163-182 | the state `DviSpec.Start` gives; validity is kept |
| Dvi.DviInst.Stop | libraries/libdvi/dvi.c:184-204 | the state `DviSpec.Stop` gives |
| Dvi.DviInst.IsStarted | firmware/dvi/a2dvi.c:128 | reports the started flag and changes nothing |
| Dvi.DviInst.Destroy | libraries/libdvi/dvi.c:382-410 | frees the buffers in `DestroyOrder` and leaves the queues and release slots empty |
| Dvi.DviInst.FreeReleased | libraries/libdvi/dvi.c:382-394 | frees the release stages in order and empties them |
| Dvi.DviInst.FreeQueued | libraries/libdvi/dvi.c:395-410 | the loop frees the two queues interleaved and empties both |
| Dvi.DviInst.ReleaseTmds | libraries/libdvi/dvi.c:270-274 | takes the advanced timing state and applies the release step |
| Dvi.DviInst.DrainLate | libraries/libdvi/dvi.c:284-290 | the queues and late count become what `Drain` gives |
| Dvi.DviInst.DrainQueues | libraries/libdvi/dvi.c:284-290 | the loop computes `Drain` of its inputs |
| Dvi.DviInst.ShowLine | libraries/libdvi/dvi.c:292-315 | the line is classified as `Classify` says, and shown or counted as `ShowStep` says |
| Dvi.DviInst.LoadTemplate | libraries/libdvi/dvi.c:317-345 | the block list and frame count `TemplateStep` gives |
| Dvi.DviInst.RefreshIsland | libraries/libdvi/dvi.c:346-353 | the data island `NextIsland` gives |
| Dvi.DviInst.ReleaseAndDrain | libraries/libdvi/dvi.c:270-290 | the engine `AfterDrain` gives |
| Dvi.DviInst.NextLine | libraries/libdvi/dvi.c:292-353 | the engine `LineStep` gives |
| Dvi.DviInst.IrqHandler | libraries/libdvi/dvi.c:265-354 | the handler never panics, keeps the engine valid, and leaves the state `IrqTick` gives |
| Dvi.DviInst.GetScanline | firmware/render/render_debug.c:247 | the render core gets the oldest free buffer; the engine stays valid |
| Dvi.DviInst.SendScanline | firmware/render/render_debug.c:255 | the first buffer taken is queued as valid; the engine stays valid |
| Dvi.DviInst.AudioInit | libraries/libdvi/dvi.c:458-487 | the loop leaves the island `DataIsland.AudioInit` gives |
| Dvi.DviInst.EnableDataIsland | libraries/libdvi/dvi.c:489-505 | every block list now carries data islands and the island is enabled; validity is kept |
| Dvi.DviInst.SetAudioFreq | libraries/libdvi/dvi.c:527-536 | the island `DataIsland.SetAudioFreq` gives; validity is kept |
| Dvi.DviInst.QueueAudioSamples | libraries/libdvi/dvi.c:547-574 | the island and result `DataIsland.QueueAudioSamples` gives |
| Dvi.DviInst.UpdateDataStream | libraries/libdvi/dvi.c:577-640 | the island `DataIsland.UpdateDataStream` gives |
| Dvi.DviInst.PlayOldestPair | libraries/libdvi/dvi.c:618-633 | the audio branch gives the same island as `DataIsland.UpdateDataStream` |
| Dvi.DviInst.UpdateDataStreamNull | libraries/libdvi/dvi.c:642-648 | the island `DataIsland.UpdateDataStreamNull` gives |
| Dvi.DviInst.AudioEnable | libraries/libdvi/dvi.c:650-654 | the island `DataIsland.AudioEnable` gives |
| A2Dvi.ModeTiming | firmware/dvi/a2dvi.c:79 | the timing is 720x480 exactly for Dvi720x480, and 640x480 for every other value |
| A2Dvi.StartCalls | firmware/dvi/a2dvi.c:75-96 | the first call is `dvi_init` with the mode's timing, start is made exactly when init did not panic, and nothing is destroyed |
| A2Dvi.SwitchCalls | firmware/dvi/a2dvi.c:63-96 | a switch destroys exactly when the remembered mode is not `DviInvalid`, always initialises with the new mode's timing, and starts exactly when init did not panic |
| A2Dvi.DestroyBeforeInit | firmware/dvi/a2dvi.c:70-96 | destroy comes first, init second, and start last |
| A2Dvi.BroughtUpRunsAudio | firmware/dvi/a2dvi.c:86-96 | after a bring-up that did not panic the engine is valid and started with timing `t`, all N buffers free, nothing queued or in flight, counters cleared, data islands enabled at 44100 Hz with CTS 30000 and N 6272, all four audio slots free, and the audio gate still closed |
| A2Dvi.HaltedBringUp | firmware/dvi/a2dvi.c:86 | when `dvi_init` panics, its result on the running engine is the whole bring-up, since it keeps only the timing, the loaded block list and the island's packets |
| A2Dvi.RunningBringUp | firmware/dvi/a2dvi.c:86-96 | `dvi_init` followed by the audio set-up and `dvi_start`, applied to the running engine, is the bring-up of its timing |
| A2Dvi.Driver.DviEnable | firmware/dvi/a2dvi.c:57-97 | the same valid mode changes nothing: not the log, the engine, the remembered mode or the sample ring. Any other request, `DviInvalid` included, is remembered and gets its timing. It appends exactly the switch calls to the log, and the engine becomes `BroughtUp`: `dvi_init`'s state, then, unless an allocation failed, 44.1 kHz audio with CTS 30000 and N 6272, data islands enabled, and started. The spinlocks are claimed whenever `DviInvalid` is remembered, so asking for `DviInvalid` makes the next call claim them again and initialise without a teardown. A panic happens exactly when an allocation fails. Without a panic the sample ring points at `audio_buffer`, 256 samples, empty |
| A2Dvi.Driver.Switch | firmware/dvi/a2dvi.c:68-96 | a running engine is torn down and the new mode brought up: the log grows by exactly the switch calls and the engine becomes `BroughtUp` of the mode's timing; without a panic the sample ring points at `audio_buffer`, empty |
| A2Dvi.Driver.ClaimLocks | firmware/dvi/a2dvi.c:63-67 | a first call records the two spinlock numbers; a later call keeps the ones it had; nothing else changes |
| A2Dvi.Driver.StopRunning | firmware/dvi/a2dvi.c:68-73 | a destroy is logged exactly when a mode is remembered |
| A2Dvi.Driver.Teardown | firmware/dvi/a2dvi.c:72 | destroy empties the queues and release slots, and exactly one destroy is appended to the log |
| A2Dvi.Driver.Reinit | firmware/dvi/a2dvi.c:75-96 | any mode is remembered with its timing, exactly the start calls are logged, and the engine becomes `BroughtUp` of that timing; without a panic it is valid and started, and the sample ring points at `audio_buffer`, 256 samples, empty |
| A2Dvi.Driver.Bringup | firmware/dvi/a2dvi.c:86-96 | init, then, unless it panicked, the audio set-up and start: the engine becomes `BroughtUp` and the log grows by exactly `StartCalls`; without a panic the sample ring points at `audio_buffer`, empty |
| A2Dvi.Driver.Initialise | firmware/dvi/a2dvi.c:86 | the engine becomes `dvi_init`'s state (`DviSpec.Init`), one init entry is logged, the panic flag records a failed allocation, and otherwise the engine is valid |
| A2Dvi.Driver.StartWithAudio | firmware/dvi/a2dvi.c:90-96 | the engine becomes 44.1 kHz audio with CTS 30000 and N 6272, data islands enabled, and started, over the state it had; it stays valid, the sample ring points at `audio_buffer` and is empty, and the four calls are logged in source order |
| A2Dvi.Driver.AudioOn | firmware/dvi/a2dvi.c:91-96 | the rate, data-island and start calls, each logged right after it is made, leave the engine in `AudioStarted` of its prior state |
| A2Dvi.Driver.SetAudioBuffer | firmware/dvi/a2dvi.c:90 | the sample ring points at `audio_buffer`, 256 samples, and is empty, one entry is logged, and the engine is untouched |
| A2Dvi.Driver.ScanlineErrors | firmware/dvi/a2dvi.c:121-124 | reports the engine's error count and changes nothing |
| A2Dvi.Driver.Started | firmware/dvi/a2dvi.c:126-129 | reports whether the engine is started and changes nothing |
| A2cMenu.TableSize | firmware/a2c/a2c.c:483-500 | the table has 13 rows |
| A2cMenu.CommandRows | firmware/a2c/a2c.c:483-498 | a row's first entry has a command exactly on the even rows: the six settings rows and EXIT |
| A2cMenu.NextRowFrom | firmware/a2c/a2c.c:599-610 | the first row from r on with a command in its first entry, with none skipped; 0 when there is none |
| A2cMenu.NextColumnFrom | firmware/a2c/a2c.c:614-625 | the first column from c on with a command, with none skipped; 0 (the header) when there is none |
| A2cMenu.ShortPressed | firmware/a2c/a2c.c:595-631 | the cursor stays within 4 columns and 13 rows and keeps its direction |
| A2cMenu.ShortPresses | firmware/a2c/a2c.c:629-630 | any number of short presses keeps the cursor in bounds |
| A2cMenu.VerticalVisitsHeaders | firmware/a2c/a2c.c:599-610 | from a header row the next row with a command is two rows down, and from EXIT it wraps to row 0 |
| A2cMenu.HorizontalVisitsColumns | firmware/a2c/a2c.c:614-625 | across a settings row the columns come in order and then the header; on VIDEO, column 2 goes back to the header |
| A2cMenu.HeaderStep | firmware/a2c/a2c.c:597-611 | a vertical short press from a header lands on the next header |
| A2cMenu.ExitReachedAfterSixPresses | firmware/a2c/a2c.c:601-608 | six presses after the menu opens the cursor is on EXIT, where the next press reads past the table; the seventh returns home |
| A2cMenu.LongPressAction | firmware/a2c/a2c.c:633-672 | any command run gets a column index 0..2 |
| A2cMenu.LongPressed | firmware/a2c/a2c.c:633-672 | a long press keeps the cursor in bounds |
| A2cMenu.LongPressEntersRow | firmware/a2c/a2c.c:637-649 | on a named header: horizontal at column 1, and no command runs |
| A2cMenu.LongPressOnExit | firmware/a2c/a2c.c:639-643 | on EXIT `exit_command` runs for column 0 and the cursor stays |
| A2cMenu.LongPressOnColumn | firmware/a2c/a2c.c:652-671 | horizontally: returns to the header moving vertically; on a column, runs that entry's command with its 0-based index exactly when it has one |
| A2cMenu.CycleNext | firmware/a2c/a2c.c:678-679 | the count advances by one modulo 8 |
| A2cMenu.CycleStep | firmware/a2c/a2c.c:681-729 | steps 0-3 disable and 4-7 enable scanlines; steps 0 and 4 show colour, the others force mono in B&W, green or amber; no step keeps the mixed effect; no other setting changes |
| A2cMenu.Menu.ShowMenu | firmware/a2c/a2c.c:588-593 | the cursor goes to the first header, moving vertically |
| A2cMenu.Menu.ShortPressAsWritten | firmware/a2c/a2c.c:595-631 | the code as written moves the cursor as `ShortPressed` says and makes one stray read exactly in the `StrayRead` cases |
| A2cMenu.Menu.AdvanceRowAsWritten | firmware/a2c/a2c.c:599-610 | the row loop ends on `NextRowFrom` after the modulo, with one stray read exactly from EXIT |
| A2cMenu.Menu.AdvanceColumnAsWritten | firmware/a2c/a2c.c:614-625 | the column loop ends on `NextColumnFrom` after the modulo, with one stray read exactly from column 3 |
| A2cMenu.Menu.ShortPress | firmware/a2c/a2c.c:595-631 | with each bound checked first, the cursor moves as `ShortPressed` says and stays in bounds |
| A2cMenu.Menu.LongPress | firmware/a2c/a2c.c:633-672 | the cursor moves as `LongPressed` says, and the settings change exactly by the command `LongPressAction` names, or not at all |
| A2cMenu.Menu.CycleVideoModes | firmware/a2c/a2c.c:676-734 | the count advances modulo 8 and the settings become those of that step |
| A2cSettings.Store | firmware/a2c/a2c.c:221-229 | a listed column stores its option; any other column leaves the value as it was |
| A2cSettings.StoreThenSelect | firmware/a2c/a2c.c:217-296 | with distinct options, after storing column i the query is true exactly for column i; an out-of-range store changes no answer |
| A2cSettings.OptionsDistinct | firmware/a2c/a2c.c:483-498 | the MONO, COLOR, LINES and VIDEO rows offer no setting twice |
| A2cSettings.ModeStore | firmware/a2c/a2c.c:304-321 | an index outside 0..2 changes neither the mono flag nor the effect |
| A2cSettings.Leave | firmware/a2c/a2c.c:384-394 | a pending reboot resets, otherwise the menu closes; nothing else changes |
| A2cSettings.StoreThenQuery | firmware/a2c/a2c.c:217-374 | on a settings row, after setting column i, the query is true for column j exactly when j == i |
| A2cSettings.OutOfRangeKeeps | firmware/a2c/a2c.c:217-374 | a column the row does not offer changes nothing |
| A2cSettings.RebootOnlyOnModeChange | firmware/a2c/a2c.c:338-427 | the reboot and save requests change exactly when a command changes the video mode and they were not both already set |
| A2cSettings.ModeChangeRequestsReboot | firmware/a2c/a2c.c:342-406 | every change of the video mode leaves both a reboot and a save requested |
| A2cSettings.Invoked | firmware/a2c/a2c.c:217-452 | the update branch: a column outside the row changes nothing, a new video mode asks for a reboot and a save, and a save is counted only for column 0 of CONFIG, or of EXIT with unsaved changes |
| A2cSettings.InvokedChangesOwnSetting | firmware/a2c/a2c.c:217-452 | MONO, COLOR, LINES and MODE change only their own setting; VIDEO changes only the mode and the reboot and save flags |
| A2cSettings.Query | firmware/a2c/a2c.c:217-452 | the query branch answers true only for a column of the row, and never for EXIT |
| A2cSettings.QueryChangesNoSetting | firmware/a2c/a2c.c:322-332 | a query changes nothing but the refreshed `mono_rendering` |
| A2cSettings.Settings.MonoCommand | firmware/a2c/a2c.c:217-241 | an update stores the column's colour and returns false; a query changes nothing and answers whether the column is stored |
| A2cSettings.Settings.ColorCommand | firmware/a2c/a2c.c:244-268 | the same for the colour style |
| A2cSettings.Settings.ScanlineCommand | firmware/a2c/a2c.c:271-296 | the same for the scanline mode |
| A2cSettings.Settings.ModeCommand | firmware/a2c/a2c.c:299-335 | the same for the mono flag and the effect; a query first refreshes `mono_rendering` |
| A2cSettings.Settings.VideoCommand | firmware/a2c/a2c.c:338-374 | the same for the video mode, noting a change; a query first refreshes `mono_rendering` |
| A2cSettings.Settings.ConfigCommand | firmware/a2c/a2c.c:377-427 | SAVE saves and reboots or leaves; DEFAULT loads the defaults and notes a mode change; DEBUG toggles the debug lines and is the only column a query answers |
| A2cSettings.Settings.SaveConfig | firmware/a2c/a2c.c:384-394 | one more save, then reboot if pending, otherwise leave the menu |
| A2cSettings.Settings.LoadDefaults | firmware/a2c/a2c.c:395-407 | the defaults are loaded, and a change of video mode requests a reboot and a save |
| A2cSettings.Settings.ExitCommand | firmware/a2c/a2c.c:430-452 | saves if a save is required, then reboots or leaves; the result is always false |
| A2cSettings.Settings.Run | firmware/a2c/a2c.c:664 | a call through the entry's pointer acts as the named command |
| A2cSound.SubSample | firmware/a2c/a2c.c:1458 | the captured word as `int16_t` less 2000, wrapped back into `int16_t` |
| A2cSound.SumBounds | firmware/a2c/a2c.c:1460 | a sum of samples within [lo, hi] lies between n*lo and n*hi for n samples |
| A2cSound.MeanWithin | firmware/a2c/a2c.c:1465 | the truncated mean of eight samples lies between their bounds, so storing it in `int16_t` does not truncate |
| A2cSound.CountWrapKeepsCadence | firmware/a2c/a2c.c:1461-1463 | the 32-bit wrap of the call count keeps the every-eighth-call rhythm |
| A2cSound.SumFitsInt32 | firmware/a2c/a2c.c:1460 | up to eight `int16_t` samples sum inside `int32_t` |
| A2cSound.SubSampler.Process | firmware/a2c/a2c.c:1456-1470 | returns the sample on seven calls of eight, and on every eighth call the truncated mean of the last eight, emptying the sum |
| A2cCapture.Not32 | firmware/a2c/a2c.c:1611 | the stored word and the received word add up to 2^32 - 1 |
| A2cCapture.NotTwice | firmware/a2c/a2c.c:1611 | inverting twice gives the received word back |
| A2cCapture.Step | firmware/a2c/a2c.c:1599-1614 | one word keeps x in 0..17 and y in 0..191 |
| A2cCapture.Steps | firmware/a2c/a2c.c:1599-1614 | any number of words keeps the indices in bounds |
| A2cCapture.LineFilledInOrder | firmware/a2c/a2c.c:1599-1614 | from the start of a line, the next 18 words go to columns 0..17 of line `s_scanline % 192`, and the scanline count advances once |
| A2cCapture.Resync | firmware/a2c/a2c.c:129-130 | the count is kept or becomes 0, and it is 0 exactly when it was already 0 or a gap over 500 us followed more than 192 lines |
| A2cCapture.BlankStartsAtRowZero | firmware/a2c/a2c.c:123-137 | after a reset, or after a whole number of 192-line frames, the first word lands on row 0 |
| A2cCapture.ResyncBoundary | firmware/a2c/a2c.c:129 | exactly 192 lines are not reset but still wrap to row 0; a 100-line frame is not realigned |
| A2cCapture.Capture.Receive | firmware/a2c/a2c.c:1594-1614 | exactly the cell `[y][x]` gets the inverted word; GR and TEXT are latched only at the start of a line; the indices advance as `Step` says |
| A2cCapture.Capture.WndwInterrupt | firmware/a2c/a2c.c:123-137 | the scanline count is resynchronised as `Resync` says on the 32-bit time difference; the time is recorded and the sync marked found |
| A2cCapture.MarginsFillLine | firmware/a2c/a2c.c:984-985 | in both modes the left margin is even, and the margins with the 288 picture symbols fill the line exactly |
| A2cCapture.FillMargins | firmware/a2c/a2c.c:988-996 | exactly the symbols of both margins become blank, and the rest of the channel is unchanged |
| A2cCapture.LeftMargin | firmware/a2c/a2c.c:984 | the left margin is even, and for a line at least 576 dots wide, twice it plus the 288 picture symbols fit in the `xres / 2` symbols of a channel with fewer than 4 to spare |
| A2cCapture.RightMargin | firmware/a2c/a2c.c:985 | for a line at least 576 dots wide, the right margin starts 288 symbols after the left margin, and the symbols after it are at least the left margin's and fewer than 4 more |
| A2cCapture.DotsAt | firmware/a2c/a2c.c:1006-1007 | word `i` of the captured line with its successor, which is word `i + 1`, or 0 after the last word |
| A2cCapture.TopDot | firmware/a2c/a2c.c:1013 | a dot pair is a value 0..3, the index into the pixel-pair table |
| A2cCapture.TopPairs | firmware/a2c/a2c.c:1011-1020 | `n` shifts by two give `n` pairs, each 0..3 |
| A2cCapture.AgreeOnTop | firmware/a2c/a2c.c:1013-1019 | two words equal on the top `2n` bits draw the same `n` pairs |
| A2cCapture.MergeKeepsTop | firmware/a2c/a2c.c:1022-1023 | the merge after the eighth pair keeps the word's upper half, so the eight pairs still to draw are the word's own |
| A2cCapture.WordWindow | firmware/a2c/a2c.c:1009-1024 | the sixteen pairs drawn for a word are the word's own 32 dots, top first, whatever `next_dots` holds: the merged half of the successor is shifted out unseen |
| A2cCapture.MonoLineDots | firmware/a2c/a2c.c:1003-1025 | a mono line draws 288 pairs, the 16 of each of the 18 captured words in order (`LineDots`) |
| RenderDebug.Nibble | firmware/render/render_debug.c:47-48 | a nibble is below 16 |
| RenderDebug.HexString | firmware/render/render_debug.c:45-49 | exactly `digits` characters |
| RenderDebug.HexDigitRoundTrip | firmware/render/render_debug.c:47 | each nibble is written as a high-bit hex character that decodes back to it |
| RenderDebug.HexStringChars | firmware/render/render_debug.c:47 | every written byte is `0x80` or'd with '0'..'9' or 'A'..'F' |
| RenderDebug.HexStringPrepend | firmware/render/render_debug.c:45-49 | the character to the left of the first i is nibble i |
| RenderDebug.DecodeHexString | firmware/render/render_debug.c:45-49 | decoding the digits most significant first gives the value modulo 16^digits |
| RenderDebug.Int2Hex | firmware/render/render_debug.c:43-50 | writes exactly the `digits` characters of the value and nothing else; with 0 digits nothing |
| RenderDebug.Strlen | firmware/render/render_debug.c:54 | the index of the first NUL, with no NUL before it |
| RenderDebug.HighBit | firmware/render/render_debug.c:56 | the result has the high bit set and the same low seven bits |
| RenderDebug.HighBitRecovers | firmware/render/render_debug.c:56 | setting the bit twice equals setting it once, and a 7-bit character is recovered by clearing it |
| RenderDebug.CopyStr | firmware/render/render_debug.c:52-58 | writes the string's characters with the high bit set, exactly strlen of them and no terminator; nothing else changes |
| RenderDebug.ModeLabelAsWritten | firmware/render/render_debug.c:77-94 | the label as written: 2 to 8 characters |
| RenderDebug.ModeLabelLosesMix | firmware/render/render_debug.c:82-90 | the code as written shows "DGR" for lo-res mixed with both bits, "HGR" for hi-res mixed without them, and "DGR MIX" for lo-res mixed without them |
| RenderDebug.ModeLabel | firmware/render/render_debug.c:77-94 | the corrected label: 2 to 8 characters |
| RenderDebug.ModeLabelNamesMode | firmware/render/render_debug.c:77-97 | the corrected label ends in " MIX" exactly for the mixed modes, starts with D exactly for double modes, and fits before column 9 |
| RenderDebug.RenderPlan | firmware/render/render_debug.c:235-292 | blank padding never comes with status rows, and the monitor text is refreshed only with debug lines on a top call |
| RenderDebug.Countdown | firmware/render/render_debug.c:290-291 | the subtitle count falls by one only on bottom calls, and only while non-zero |
| RenderDebug.PaddingWithoutDebugLines | firmware/render/render_debug.c:235-258 | with debug lines off: 16 blank rows, or with Videx 0 above and 8 below, unless a subtitle is pending at the bottom |
| RenderDebug.IterateCounts | firmware/render/render_debug.c:290-291 | after k bottom calls a countdown started at n stands at n - k, and at 0 once k reaches n |
| RenderDebug.SubtitleLasts | firmware/render/render_debug.c:237-291 | a subtitle set for n frames draws status rows on each of the first n bottom calls; with debug lines off, every later bottom call sends blank padding and no status row |
| RenderDebug.DebugRows.Render | firmware/render/render_debug.c:227-293 | sends what `RenderPlan` describes and moves the countdown as `Countdown` says |

## Left out

- Hardware programming is not modelled: DMA channels and control blocks, PIO and the serialiser, GPIO, clocks, IRQ registration (`dvi_register_irqs_this_core`, `dvi_unregister_irqs`), and the TMDS palette. DMA block lists are tags plus the one patched pixel-source pointer.
- The busy-wait on `dbg_tcr` (dvi.c lines 278-281), `wait_frame_start`, the `software_reset` spin and other polling loops are left out; they have no result to model.
- Memory fences and the spinlocks inside the `queue_*` calls are left out. The two cores are modelled as sequential calls. Each blocking queue call is proved not to block, or is a precondition.
- `dvi_timing_state_advance` (libdvi/dvi_timing.c) is not part of this model. The timing state of each tick is an input.
- The two `dvi_timing_*` tables are transcribed from CEA-861: 800 x 525 at 25.2 MHz and 858 x 525 at 27 MHz. libdvi/dvi_timing.c is not part of this model. These lemmas depend on those values: `DataIsland.AudioRatesAt44100`, `DataIsland.FirmwareCtsExactAt27MHz`, `DataIsland.FirmwareCtsAt25MHz`, `DviSpec.PictureBand480`, and `A2Dvi.ModeTiming` through the timing it selects.
- Packet encoding is opaque: `encode_data_packet`, `set_audio_samples`, `set_*_info_frame` and `set_audio_clock_regeneration`. `set_audio_samples`' new frame count is an input.
- `dvi_get_scanline`, `dvi_send_scanline` and `dvi_is_started` are header macros that are not part of this model. They are modelled from their use by the render core.
- Floating-point displays and `adc_set_clkdiv` are left out.
- `process_button` and the repeating timer are left out. The time a WNDW interrupt reads is a parameter.
- Screen drawing and layout are left out: `init_menu_screen`, `draw_menu_screen`, `printXY`, `render_text40_line`, `update_debug_monitor` beyond the mode label, and `update_a2c_debug_monitor`.
- `config_save` and `config_load_defaults` are counted, or loaded as given defaults; their flash contents are not modelled.
- `#if 0` blocks and the disabled colour queues are left out.
- `render_a2c_full_line` is modelled for its margins and its mono dot loop, up to the pair values. The TMDS symbols looked up in `tmds_mono_pixel_pair` for each pair and colour, and the other render modes (the three colour loops at lines 1065-1185), are left out.
- Dvi.UpdateDataIslandPtr: `dvi_enable_data_island` calls it on all five block lists (dvi.c lines 497-501). `Dvi.EnableDataIsland` only sets their tags; the pointer wiring is modelled once, on its own, by `UpdateDataIslandPtr`.
- A2cCapture.Capture.Receive: `bus_cycle_counter++` (a2c.c line 1617) only feeds the diagnostics display and is left out.
- Dvi.DviInst.AllocateBuffers: an allocation is a success flag. Buffer memory and its black initialisation are not modelled.
- A2Dvi.Driver.DviEnable: `set_sys_clock_khz`, `DVI_INIT_RESOLUTION` and the IRQ registration do not appear in the call log. When `DviInvalid` is remembered, the next call runs `dvi_init` over the running engine; the model re-initialises the engine state and does not capture the still-running DMA or the buffers left behind.
- Dvi.DviInst.Destroy: `dvi_destroy` never terminates while the render core has a scanline checked out, because its loop waits for N buffers (`DviSpec.DestroySpinsWhileProducerHolds`). The method requires that no buffer is checked out, and `A2Dvi.Driver.DviEnable` requires it of its caller (the render core switches modes with no scanline checked out).
- A2cCapture.MarginsFillLine: only the two `dvi_x_resolution` values the firmware sets (640 and 720) are covered.
- A2cSound.SubSampler.Process: the wrap-around of `s_sub_sample_value` is proved not to happen, not modelled.

## Findings

| source | as written | input that shows it | evidently intended | confidence | as-written member | corrected member |
|---|---|---|---|---|---|---|
| firmware/a2c/a2c.c:601-605 | the loop reads `a2c_menu_items_main[s_menu_cursor_Y]` before testing the bound, and the horizontal loop at 616-620 does the same with `commands[s_menu_cursor_X - 1]` | six short presses after the menu opens put the cursor on EXIT (row 12); the seventh reads row 13 of the 13-row table (`A2cMenu.ExitReachedAfterSixPresses`); a short press from column 3 reads `commands[3]` of a three-entry array | test the bound before the entry is read; the cursor ends in the same place | not executed; high (the index is outside the array in both cases) | A2cMenu.Menu.ShortPressAsWritten | A2cMenu.Menu.ShortPress |
| firmware/render/render_debug.c:82-90 | the MIX case shows "DGR" when both the 80-column and DGR bits are set, and "DGR MIX" otherwise; the hi-res MIX case shows "HGR" without them | soft switches MIX with 80COL and DGR give "DGR", which does not mention MIX; HIRES+MIX without them gives "HGR", the same label as full-screen hi-res (`RenderDebug.ModeLabelLosesMix`) | the mixed modes named with " MIX" and the D prefix only for double modes, as the hi-res case does | not executed; medium (the intent is read off the labels of the other cases) | RenderDebug.ModeLabelAsWritten | RenderDebug.ModeLabel |
