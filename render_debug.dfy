/**
 * The debug status lines of firmware/render/render_debug.c: the text
 * helpers `int2hex` and `copy_str`, which write characters with the high
 * bit set (the character generator's normal video) into a status line, the
 * graphics-mode label, and the choice `render_debug` makes between blank
 * rows and status rows above and below the screen.
 */
module RenderDebug {
  import opened CArith

  type Byte = x: int | 0 <= x < 256

  // ------------------------------------------------------------- int2hex

  function Pow16(i: nat): (p: nat)
    ensures p >= 1
  {
    if i == 0 then 1 else 16 * Pow16(i - 1)
  }

  /** Nibble `i` of `v`, counted from the least significant. */
  function Nibble(v: nat, i: nat): (r: nat)
    ensures r < 16
  {
    (v / Pow16(i)) % 16
  }

  /** Line 47: a nibble as a high-bit ASCII hex digit. */
  function HexDigit(n: nat): (r: Byte)
    requires n < 16
  {
    if n < 10 then 0xB0 + n else 0xB7 + n
  }

  /** The `digits` characters `int2hex` writes, most significant nibble first. */
  function HexString(v: nat, digits: nat): (r: seq<Byte>)
    ensures |r| == digits
  {
    if digits == 0 then [] else HexString(v / 16, digits - 1) + [HexDigit(v % 16)]
  }

  /** `0x80 | c` for a character `c` in '0'..'9' or 'A'..'F'. */
  predicate IsHexChar(b: int)
  {
    (0x80 + '0' as int <= b <= 0x80 + '9' as int) || (0x80 + 'A' as int <= b <= 0x80 + 'F' as int)
  }

  /** The value a high-bit hex digit stands for. */
  function DigitValue(b: int): (r: int)
  {
    if b <= 0x80 + '9' as int then b - 0xB0 else b - 0xB7
  }

  /** The value of a high-bit hex string read most significant digit first. */
  function Decode(s: seq<int>): int
  {
    if s == [] then 0 else Decode(s[..|s| - 1]) * 16 + DigitValue(s[|s| - 1])
  }

  lemma HexDigitRoundTrip(n: nat)
    requires n < 16
    ensures IsHexChar(HexDigit(n)) && DigitValue(HexDigit(n)) == n
  {
  }

  /** Every character `int2hex` writes is a high-bit hex digit. */
  lemma {:induction false} HexStringChars(v: nat, digits: nat)
    ensures forall k :: 0 <= k < digits ==> IsHexChar(HexString(v, digits)[k])
  {
    if digits > 0 {
      HexStringChars(v / 16, digits - 1);
      HexDigitRoundTrip(v % 16);
    }
  }

  lemma MulBelow(b: nat, r: nat, c: nat, e: nat)
    requires r < c && e < b
    ensures b * r + e < b * c
  {
    assert b * r <= b * (c - 1);
  }

  lemma DivDiv(a: nat, b: nat, c: nat)
    requires b > 0 && c > 0
    ensures (a / b) / c == a / (b * c)
  {
    var q := (a / b) / c;
    var r := (a / b) % c;
    var e := a % b;
    assert a == b * (a / b) + e;
    assert b * (a / b) == b * (c * q) + b * r by {
      assert a / b == c * q + r;
    }
    assert b * (c * q) == (b * c) * q;
    MulBelow(b, r, c, e);
    DivModUnique(a, b * c, q, b * r + e);
  }

  lemma ModMul(v: nat, m: nat)
    requires m > 0
    ensures ((v / 16) % m) * 16 + v % 16 == v % (16 * m)
  {
    var q := (v / 16) / m;
    var r := (v / 16) % m;
    assert v == 16 * (v / 16) + v % 16;
    assert v / 16 == m * q + r;
    assert 16 * (m * q + r) == (16 * m) * q + 16 * r;
    assert 16 * r + v % 16 < 16 * m by {
      assert r <= m - 1;
    }
    DivModUnique(v, 16 * m, q, 16 * r + v % 16);
  }

  /** The next character to the left is the nibble above the ones already written. */
  lemma {:induction false} HexStringPrepend(v: nat, i: nat)
    ensures HexString(v, i + 1) == [HexDigit(Nibble(v, i))] + HexString(v, i)
  {
    if i > 0 {
      HexStringPrepend(v / 16, i - 1);
      DivDiv(v, 16, Pow16(i - 1));
    }
  }

  /** Round trip: decoding what `int2hex` writes gives the value modulo 16^digits. */
  lemma {:induction false} DecodeHexString(v: nat, digits: nat)
    ensures Decode(HexString(v, digits)) == v % Pow16(digits)
  {
    if digits > 0 {
      var s := HexString(v, digits);
      assert s[..digits - 1] == HexString(v / 16, digits - 1);
      HexDigitRoundTrip(v % 16);
      DecodeHexString(v / 16, digits - 1);
      ModMul(v, Pow16(digits - 1));
    }
  }

  /**
   * `int2hex`, lines 43-50, writing at `buf[at..]`: the `digits` characters
   * of `value` and nothing else; with `digits == 0` nothing at all.
   */
  method Int2Hex(buf: array<Byte>, at: nat, value: Uint32, digits: Uint32)
    requires at + digits <= buf.Length
    modifies buf
    ensures buf[at..at + digits] == HexString(value, digits)
    ensures forall k :: 0 <= k < buf.Length && !(at <= k < at + digits) ==> buf[k] == old(buf[k])
  {
    var v := value;
    var i := 0;
    while i < digits
      invariant 0 <= i <= digits
      invariant v == value / Pow16(i)
      invariant buf[at + digits - i..at + digits] == HexString(value, i)
      invariant forall k :: 0 <= k < buf.Length && !(at + digits - i <= k < at + digits) ==> buf[k] == old(buf[k])
    {
      buf[at + digits - i - 1] := if v % 16 < 10 then 0xB0 + v % 16 else 0xB7 + v % 16;
      HexStringPrepend(value, i);
      assert buf[at + digits - i - 1..at + digits] == [buf[at + digits - i - 1]] + buf[at + digits - i..at + digits];
      DivDiv(value, Pow16(i), 16);
      assert Pow16(i + 1) == Pow16(i) * 16;
      v := v / 16;
      i := i + 1;
    }
  }

  // ------------------------------------------------------------ copy_str

  /** The length of the NUL-terminated string at the start of `s`. */
  function Strlen(s: seq<Byte>): (n: nat)
    requires 0 in s
    ensures n < |s| && s[n] == 0 && forall k :: 0 <= k < n ==> s[k] != 0
  {
    if s[0] == 0 then 0 else 1 + Strlen(s[1..])
  }

  /** `c | 0x80` on a byte. */
  function HighBit(c: Byte): (r: Byte)
    ensures r >= 0x80 && r % 0x80 == c % 0x80
  {
    if c < 0x80 then c + 0x80 else c
  }

  /** Setting the high bit twice is setting it once, and a 7-bit character is recovered by clearing it. */
  lemma HighBitRecovers(c: Byte)
    ensures HighBit(HighBit(c)) == HighBit(c)
    ensures c < 0x80 ==> HighBit(c) - 0x80 == c
  {
  }

  /**
   * `copy_str`, lines 52-58, writing at `dest[at..]`: the characters of the
   * string with the high bit set, and no terminator.
   */
  method CopyStr(dest: array<Byte>, at: nat, msg: seq<Byte>)
    requires 0 in msg && at + Strlen(msg) <= dest.Length
    modifies dest
    ensures forall k :: 0 <= k < Strlen(msg) ==> dest[at + k] == HighBit(msg[k])
    ensures forall k :: 0 <= k < dest.Length && !(at <= k < at + Strlen(msg)) ==> dest[k] == old(dest[k])
  {
    var n := Strlen(msg);
    var i := 0;
    while msg[i] != 0
      invariant 0 <= i <= n
      invariant forall k :: 0 <= k < i ==> dest[at + k] == HighBit(msg[k])
      invariant forall k :: 0 <= k < dest.Length && !(at <= k < at + i) ==> dest[k] == old(dest[k])
      decreases n - i
    {
      dest[at + i] := HighBit(msg[i]);
      i := i + 1;
    }
  }

  // --------------------------------------------------------- the mode label

  /** Which case label of lines 77-94 `soft_switches & SOFTSW_MODE_MASK` matches. */
  datatype ModeBits = NoModeBits | MixBit | HiresBit | HiresMixBits | UnmatchedBits

  /** The label as written, lines 77-94; `col80` and `dgr` are the SOFTSW_80COL and SOFTSW_DGR bits. */
  function ModeLabelAsWritten(m: ModeBits, col80: bool, dgr: bool): (r: string)
    ensures 2 <= |r| <= 8
  {
    match m
    case NoModeBits => if dgr then "DGR" else "GR"
    case MixBit => if col80 && dgr then "DGR" else "DGR MIX"
    case HiresBit => if dgr then "DHGR" else "HGR"
    case HiresMixBits => if col80 && dgr then "DHGR MIX" else "HGR"
    case UnmatchedBits => "TEXT"
  }

  /** The mixed modes named in full, double modes marked by both the 80-column and DGR bits. */
  function ModeLabel(m: ModeBits, col80: bool, dgr: bool): (r: string)
    ensures 2 <= |r| <= 8
  {
    match m
    case NoModeBits => if dgr then "DGR" else "GR"
    case MixBit => if col80 && dgr then "DGR MIX" else "GR MIX"
    case HiresBit => if dgr then "DHGR" else "HGR"
    case HiresMixBits => if col80 && dgr then "DHGR MIX" else "HGR MIX"
    case UnmatchedBits => "TEXT"
  }

  predicate EndsWithMix(s: string)
  {
    |s| >= 4 && s[|s| - 4..] == " MIX"
  }

  /**
   * The label as written drops MIX on two mixed screens: lo-res mixed with
   * both bits shows "DGR", hi-res mixed without them shows "HGR"; and
   * lo-res mixed without them claims "DGR".
   */
  lemma ModeLabelLosesMix()
    ensures ModeLabelAsWritten(MixBit, true, true) == "DGR" && !EndsWithMix("DGR")
    ensures ModeLabelAsWritten(HiresMixBits, false, false) == "HGR" && !EndsWithMix("HGR")
    ensures ModeLabelAsWritten(MixBit, false, false) == "DGR MIX"
    ensures ModeLabelAsWritten(HiresMixBits, false, false) == ModeLabelAsWritten(HiresBit, false, false)
  {
  }

  /**
   * The corrected label: it ends in " MIX" exactly for the mixed modes,
   * starts with "D" exactly for the double modes, and every label fits the
   * nine columns before the "80"/"40" field at line 97.
   */
  lemma ModeLabelNamesMode(m: ModeBits, col80: bool, dgr: bool)
    ensures EndsWithMix(ModeLabel(m, col80, dgr)) <==> m == MixBit || m == HiresMixBits
    ensures m != UnmatchedBits ==>
      (ModeLabel(m, col80, dgr)[0] == 'D' <==> if m == MixBit || m == HiresMixBits then col80 && dgr else dgr)
    ensures |ModeLabel(m, col80, dgr)| <= 9
  {
    var r := ModeLabel(m, col80, dgr);
    if m == UnmatchedBits {
      assert r[|r| - 4..] == "TEXT";
    } else if m == NoModeBits || m == HiresBit {
      if |r| >= 4 {
        assert r[|r| - 4..] != " MIX" by {
          assert r[|r| - 4] != ' ';
        }
      }
    }
  }

  // ------------------------------------------------------------ render_debug

  /**
   * What one call of `render_debug` sends: blank rows, status rows (0 and
   * 1 above the screen, 2 and 3 below, 40 characters each), and whether
   * the monitor text was refreshed first.
   */
  datatype Emitted = Emitted(blankRows: nat, statusRows: seq<nat>, monitorUpdated: bool)

  /** Lines 235-292. */
  function RenderPlan(debugLines: bool, videx: bool, top: bool, subtitleCycles: nat): (r: Emitted)
    ensures r.blankRows > 0 ==> r.statusRows == [] && !r.monitorUpdated
    ensures r.monitorUpdated ==> debugLines && top
  {
    if !debugLines && (top || subtitleCycles == 0) then
      Emitted(if videx then (if top then 0 else 8) else 16, [], false)
    else if top then
      Emitted(0, if videx then [] else [0, 1], debugLines)
    else
      Emitted(0, if videx then [3] else [2, 3], false)
  }

  /** Lines 290-291: the countdown moves on bottom calls that draw the status rows. */
  function Countdown(debugLines: bool, top: bool, subtitleCycles: nat): (r: nat)
    ensures r == if !top && subtitleCycles != 0 then subtitleCycles - 1 else subtitleCycles
  {
    if !debugLines && (top || subtitleCycles == 0) then subtitleCycles
    else if top then subtitleCycles
    else if subtitleCycles != 0 then subtitleCycles - 1
    else subtitleCycles
  }

  /**
   * With the debug lines off, the screen is padded with 16 blank rows above
   * and below (Videx: none above and 8 below) unless a subtitle is
   * pending, which is drawn in the bottom status rows instead.
   */
  lemma PaddingWithoutDebugLines(videx: bool, top: bool, cycles: nat)
    ensures top || cycles == 0 ==>
      RenderPlan(false, videx, top, cycles) == Emitted(if videx && top then 0 else if videx then 8 else 16, [], false)
    ensures !top && cycles != 0 ==>
      RenderPlan(false, videx, top, cycles) == Emitted(0, if videx then [3] else [2, 3], false)
  {
  }

  /** The countdown after `k` bottom calls, starting from `n`. */
  function Iterate(debugLines: bool, k: nat, n: nat): nat
  {
    if k == 0 then n else Iterate(debugLines, k - 1, Countdown(debugLines, false, n))
  }

  /** Each bottom call takes one off the countdown until it reaches 0, where it stays. */
  lemma {:induction false} IterateCounts(debugLines: bool, k: nat, n: nat)
    ensures k <= n ==> Iterate(debugLines, k, n) == n - k
    ensures k >= n ==> Iterate(debugLines, k, n) == 0
  {
    if k > 0 {
      IterateCounts(debugLines, k - 1, Countdown(debugLines, false, n));
    }
  }

  /**
   * A subtitle set for `n` frames is drawn on the first `n` bottom calls;
   * with the debug lines off, every bottom call after those pads the screen
   * again.
   */
  lemma SubtitleLasts(debugLines: bool, videx: bool, n: nat, k: nat)
    ensures k < n ==> RenderPlan(debugLines, videx, false, Iterate(debugLines, k, n)).statusRows != []
    ensures k >= n ==> RenderPlan(false, videx, false, Iterate(false, k, n)).blankRows > 0 &&
                       RenderPlan(false, videx, false, Iterate(false, k, n)).statusRows == []
  {
    IterateCounts(debugLines, k, n);
    IterateCounts(false, k, n);
  }

  /** `show_subtitle_cycles` and the call that renders the debug rows. */
  class DebugRows {
    var subtitleCycles: Uint32

    constructor(cycles: Uint32)
      ensures subtitleCycles == cycles
    {
      subtitleCycles := cycles;
    }

    /** `render_debug`, lines 227-293. */
    method Render(debugLines: bool, videx: bool, top: bool) returns (sent: Emitted)
      modifies this
      ensures sent == RenderPlan(debugLines, videx, top, old(subtitleCycles))
      ensures subtitleCycles == Countdown(debugLines, top, old(subtitleCycles))
    {
      var blank := 0;
      var rows: seq<nat> := [];
      var updated := false;
      if !debugLines {
        if top || subtitleCycles == 0 {
          var rowCount := 16;
          if videx {
            rowCount := if top then 0 else 8;
          }
          var row := 0;
          while row < rowCount
            invariant 0 <= row <= rowCount && blank == row
          {
            blank := blank + 1;
            row := row + 1;
          }
          return Emitted(blank, [], false);
        }
      } else if top {
        updated := true;
      }
      if top {
        if !videx {
          rows := [0, 1];
        }
      } else {
        if !videx {
          rows := [2];
        }
        rows := rows + [3];
        if subtitleCycles != 0 {
          subtitleCycles := subtitleCycles - 1;
        }
      }
      sent := Emitted(blank, rows, updated);
    }
  }
}
