/**
 * The captured Apple IIc screen of firmware/a2c/a2c.c: `a2c_loop` stores
 * each 32-bit word of SEROUT data, inverted, into `s_screen_buffer[192][18]`
 * (18 words of 32 dots per line); the WNDW interrupt resynchronises the
 * line counter `s_scanline` in the vertical blank; and
 * `render_a2c_full_line` draws the words of one line back, two dots per
 * symbol, between two blank margins.
 */
module A2cCapture {
  import opened CArith

  /** Lines and 32-bit words per line of `s_screen_buffer`. */
  const Lines: nat := 192
  const Words: nat := 18

  /** `~rxdata` on a `uint32_t`. */
  function Not32(d: Uint32): (r: Uint32)
    ensures r + d == TWO32 - 1
  {
    TWO32 - 1 - d
  }

  /** Inverting twice gives the captured word back. */
  lemma NotTwice(d: Uint32)
    ensures Not32(Not32(d)) == d
  {
  }

  // ------------------------------------------------------ capture indices

  /** The loop's `x` and `y` and the global `s_scanline`. */
  datatype Position = Position(x: int, y: int, scanline: Uint32)

  predicate InBuffer(p: Position)
  {
    0 <= p.x < Words && 0 <= p.y < Lines
  }

  /** What one data word does to the indices, lines 1599-1614: `y` is latched at the start of a line. */
  function Step(p: Position): (r: Position)
    requires InBuffer(p)
    ensures InBuffer(r)
  {
    var latched := if p.x == 0 then p.(y := p.scanline % Lines, scanline := U32(p.scanline + 1)) else p;
    latched.(x := (p.x + 1) % Words)
  }

  /** The cell the word is written to: `[y][x]` after the latch. */
  function Cell(p: Position): (r: (int, int))
    requires InBuffer(p)
  {
    (if p.x == 0 then p.scanline % Lines else p.y, p.x)
  }

  function Steps(p: Position, n: nat): (r: Position)
    requires InBuffer(p)
    ensures InBuffer(r)
    decreases n
  {
    if n == 0 then p else Steps(Step(p), n - 1)
  }

  /**
   * Starting a line, the next 18 words go to columns 0..17 of line
   * `s_scanline % 192`, in order, and `s_scanline` advances exactly once.
   */
  lemma {:induction false} LineFilledInOrder(p: Position, n: nat)
    requires InBuffer(p) && p.x == 0 && 1 <= n <= Words
    ensures Steps(p, n).x == n % Words
    ensures n < Words ==> Cell(Steps(p, n)) == (p.scanline % Lines, n)
    ensures Steps(p, n).y == p.scanline % Lines && Steps(p, n).scanline == U32(p.scanline + 1)
  {
    if n == 1 {
      assert Steps(p, 1) == Step(p);
    } else {
      LineFilledInOrder(p, n - 1);
      StepsAppend(p, n - 1);
      StepInsideLine(Steps(p, n - 1));
    }
  }

  /** Past the first word of a line only the column moves. */
  lemma StepInsideLine(q: Position)
    requires InBuffer(q) && q.x != 0
    ensures Step(q) == q.(x := (q.x + 1) % Words)
  {
  }

  lemma {:induction false} StepsAppend(p: Position, n: nat)
    requires InBuffer(p)
    ensures Steps(p, n + 1) == Step(Steps(p, n))
    decreases n
  {
    if n > 0 {
      StepsAppend(Step(p), n - 1);
    }
  }

  // --------------------------------------------------------- the vertical blank

  /** Lines 129-130: a WNDW gap of more than 500 us after more than 192 lines restarts the count. */
  function Resync(delta: Uint32, scanline: Uint32): (r: Uint32)
    ensures r == scanline || r == 0
    ensures r == 0 <==> (delta > 500 && scanline > Lines) || scanline == 0
  {
    if delta > 500 && scanline > Lines then 0 else scanline
  }

  /**
   * The first line after a vertical blank lands on row 0 whenever the frame
   * had a whole number of 192-line frames, reset or not, and whenever the
   * count was reset.
   */
  lemma BlankStartsAtRowZero(delta: Uint32, scanline: Uint32, y: int)
    requires 0 <= y < Lines
    requires scanline % Lines == 0 || (delta > 500 && scanline > Lines)
    ensures Cell(Position(0, y, Resync(delta, scanline))) == (0, 0)
  {
  }

  /**
   * Exactly 192 lines are not reset (the test is `> 192`), but the modulo
   * still sends the next line to row 0; a short frame of 100 lines is not
   * realigned and the next frame starts on row 100.
   */
  lemma ResyncBoundary()
    ensures Resync(501, 192) == 192 && Cell(Position(0, 0, 192)) == (0, 0)
    ensures Resync(501, 100) == 100 && Cell(Position(0, 0, 100)) == (100, 0)
  {
  }

  // ---------------------------------------------------------- the capture state

  class Capture {
    /** `s_screen_buffer`, `s_screen_GR_buffer`, `s_screen_TEXT_buffer`. */
    const screen: array2<int>
    const gr: array<bool>
    const text: array<bool>
    /** The loop's locals `x` and `y`, and `s_scanline`. */
    var x: int
    var y: int
    var scanline: Uint32
    /** `s_last_WNDW` and `s_sync_found`. */
    var lastWndw: nat
    var syncFound: bool

    function At(): Position
      reads this
    {
      Position(x, y, scanline)
    }

    ghost predicate Valid()
      reads this
    {
      screen.Length0 == Lines && screen.Length1 == Words && gr.Length == Lines && text.Length == Lines &&
      gr != text &&
      InBuffer(At())
    }

    constructor()
      ensures Valid() && At() == Position(0, 0, 0) && lastWndw == 0 && !syncFound
      ensures fresh(screen) && fresh(gr) && fresh(text)
    {
      screen := new int[Lines, Words];
      gr := new bool[Lines];
      text := new bool[Lines];
      x, y, scanline := 0, 0, 0;
      lastWndw, syncFound := 0, false;
    }

    /**
     * One SEROUT word in `a2c_loop`, lines 1594-1614; `grPin` and `textPin`
     * are the levels `gpio_get` reads.
     */
    method Receive(rxdata: Uint32, grPin: bool, textPin: bool)
      requires Valid()
      modifies this`x, this`y, this`scanline, screen, gr, text
      ensures Valid()
      ensures At() == Step(old(At()))
      ensures var (row, col) := Cell(old(At()));
        row == y && col == old(x) && screen[row, col] == Not32(rxdata) &&
        forall i, j :: 0 <= i < Lines && 0 <= j < Words && (i, j) != (row, col) ==>
          screen[i, j] == old(screen[i, j])
      ensures old(x) == 0 ==> gr[..] == old(gr[..])[y := grPin] && text[..] == old(text[..])[y := textPin]
      ensures old(x) != 0 ==> gr[..] == old(gr[..]) && text[..] == old(text[..])
    {
      if x == 0 {
        y := scanline % Lines;
        scanline := U32(scanline + 1);
        gr[y] := grPin;
        text[y] := textPin;
      }
      screen[y, x] := Not32(rxdata);
      x := (x + 1) % Words;
    }

    /** `WNDW_irq_callback`, lines 123-137, with the time read as `now`. */
    method WndwInterrupt(now: nat)
      modifies this`scanline, this`lastWndw, this`syncFound
      ensures scanline == Resync(U32(U64(now - old(lastWndw))), old(scanline))
      ensures lastWndw == now && syncFound
    {
      var delta := U32(U64(now - lastWndw));
      if delta > 500 && scanline > Lines {
        scanline := 0;
      }
      lastWndw := now;
      if !syncFound {
        syncFound := true;
      }
    }
  }

  // ------------------------------------------------------------ rendering a line

  /** Line 984: the blank symbols on each side, always even. */
  function LeftMargin(xres: Uint32): (r: Uint32)
    ensures r % 2 == 0
    ensures Words * 32 <= xres ==> 2 * r + Words * 16 <= xres / 2 < 2 * r + Words * 16 + 4
  {
    (U32(xres - Words * 32) / 8) * 2
  }

  /** Line 985: where the right margin starts, after the 288 symbols of the 576 captured dots. */
  function RightMargin(xres: Uint32): (r: Uint32)
    ensures Words * 32 <= xres ==> r == LeftMargin(xres) + Words * 16
    ensures Words * 32 <= xres ==> LeftMargin(xres) <= xres / 2 - r < LeftMargin(xres) + 4
  {
    U32(Words * 32 / 2 + LeftMargin(xres))
  }

  /**
   * In both video modes the two margins and the 576 captured dots, two per
   * symbol, fill the `xres / 2` symbols of a channel exactly.
   */
  lemma MarginsFillLine(xres: Uint32)
    requires xres == 640 || xres == 720
    ensures LeftMargin(xres) % 2 == 0
    ensures RightMargin(xres) == 288 + LeftMargin(xres)
    ensures RightMargin(xres) + LeftMargin(xres) == xres / 2
  {
  }

  /** Lines 988-997 on one colour channel: both margins become the blank symbol. */
  method FillMargins(channel: array<int>, xres: Uint32, blank: int)
    requires xres == 640 || xres == 720
    requires channel.Length == xres / 2
    modifies channel
    ensures forall k :: 0 <= k < channel.Length ==>
      channel[k] == if k < LeftMargin(xres) || RightMargin(xres) <= k then blank else old(channel[k])
  {
    MarginsFillLine(xres);
    var left := LeftMargin(xres);
    var right := RightMargin(xres);
    var i := 0;
    while i < left
      invariant 0 <= i <= left
      invariant forall k :: 0 <= k < channel.Length ==>
        channel[k] == if k < i || right <= k < right + i then blank else old(channel[k])
    {
      channel[right + i] := blank;
      channel[i] := blank;
      i := i + 1;
    }
  }

  /** Lines 1006-1007: a word of the line and the one after it, 0 after the last. */
  function DotsAt(row: seq<bv32>, i: int): (r: (bv32, bv32))
    requires |row| == Words && 0 <= i < Words
    ensures r.0 == row[i]
    ensures i + 1 < Words ==> r.1 == row[i + 1]
    ensures i == Words - 1 ==> r.1 == 0
  {
    (row[i], if i < Words - 1 then row[i + 1] else 0)
  }

  /** Line 1013: the top two dots of the window, swapped so that the highest becomes bit 0. */
  function TopDot(d: bv32): (r: bv32)
    ensures r < 4
  {
    ((d >> 29) & 2) | ((d >> 31) & 1)
  }

  /**
   * The first `n` pairs read from the top of `d`, two dots at a time, each
   * swapped as line 1013 swaps it.
   */
  function TopPairs(d: bv32, n: nat): (r: seq<bv32>)
    ensures |r| == n && forall k :: 0 <= k < n ==> r[k] < 4
    decreases n
  {
    if n == 0 then [] else [TopDot(d)] + TopPairs(d << 2, n - 1)
  }

  /** The sixteen dot pairs of a captured word, most significant first. */
  function WordDots(w: bv32): (r: seq<bv32>)
    ensures |r| == 16
  {
    TopPairs(w, 16)
  }

  /** The dots of words 0..n-1 of a line, word after word. */
  function LineDots(row: seq<bv32>, n: nat): (r: seq<bv32>)
    requires n <= |row|
    ensures |r| == 16 * n
  {
    if n == 0 then [] else LineDots(row, n - 1) + WordDots(row[n - 1])
  }

  /** `m` has its top two bits set, and so again after each of the next n - 1 two-bit shifts. */
  predicate Covers(m: bv32, n: nat)
    decreases n
  {
    n == 0 || (m & 0xC000_0000 == 0xC000_0000 && Covers(m << 2, n - 1))
  }

  /** Windows that agree under a mask with its top two bits set show the same top pair, and still agree after the shift. */
  lemma AgreeStep(a: bv32, b: bv32, m: bv32)
    requires (a ^ b) & m == 0 && m & 0xC000_0000 == 0xC000_0000
    ensures TopDot(a) == TopDot(b) && ((a << 2) ^ (b << 2)) & (m << 2) == 0
  {
  }

  /** Windows that agree on the bits a covering mask selects give the same first n pairs. */
  lemma {:induction false} AgreeOnTop(a: bv32, b: bv32, m: bv32, n: nat)
    requires (a ^ b) & m == 0 && Covers(m, n)
    ensures TopPairs(a, n) == TopPairs(b, n)
    decreases n
  {
    if n > 0 {
      AgreeStep(a, b, m);
      AgreeOnTop(a << 2, b << 2, m << 2, n - 1);
    }
  }

  /**
   * Line 1023: eight pairs read from the top see only the upper half of the
   * window, so the half of `next_dots` merged in below never shows.
   */
  lemma MergeKeepsTop(d: bv32, low: bv32)
    requires low < 0x1_0000
    ensures TopPairs((d & 0xFFFF_0000) | low, 8) == TopPairs(d, 8)
  {
    assert Covers(0xFFFF_0000, 8);
    AgreeOnTop((d & 0xFFFF_0000) | low, d, 0xFFFF_0000, 8);
  }

  /** Drawing the top pair and shifting the window leaves the same pairs still to come. */
  lemma DrawOne(drawn: seq<bv32>, d: bv32, n: nat)
    requires n > 0
    ensures (drawn + [TopDot(d)]) + TopPairs(d << 2, n - 1) == drawn + TopPairs(d, n)
  {
  }

  /**
   * Lines 1009-1024: the sixteen pairs the mono loop draws from one word.
   * They are exactly the word's own 32 dots, whatever `next_dots` holds.
   */
  method WordWindow(dots0: bv32, next: bv32) returns (pairs: seq<bv32>)
    ensures pairs == WordDots(dots0)
  {
    var dots := dots0;
    pairs := [];
    var j := 0;
    while j < 16
      invariant 0 <= j <= 16
      invariant pairs + TopPairs(dots, 16 - j) == WordDots(dots0)
    {
      DrawOne(pairs, dots, 16 - j);
      pairs := pairs + [TopDot(dots)];
      dots := dots << 2;
      if j == 7 {
        MergeKeepsTop(dots, next >> 16);
        dots := (dots & 0xFFFF_0000) | (next >> 16);
      }
      j := j + 1;
    }
  }

  /**
   * Lines 1003-1025: the mono loop over the 18 words of a captured line
   * draws every one of its 576 dots once, in order.
   */
  method MonoLineDots(row: seq<bv32>) returns (dots: seq<bv32>)
    requires |row| == Words
    ensures dots == LineDots(row, Words) && |dots| == 288
  {
    dots := [];
    var i := 0;
    while i < Words
      invariant 0 <= i <= Words && dots == LineDots(row, i)
    {
      var (d, next) := DotsAt(row, i);
      var pairs := WordWindow(d, next);
      dots := dots + pairs;
      i := i + 1;
    }
  }
}
