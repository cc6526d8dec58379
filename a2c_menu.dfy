/**
 * The on-screen menu of firmware/a2c/a2c.c: a cursor over the fixed table
 * `a2c_menu_items_main` (13 rows: six setting rows separated by blank rows,
 * then EXIT), moved by short presses and acted on by long presses, and the
 * short-press cycle through display modes when the menu is not shown.
 *
 * The cursor is `s_menu_cursor_Y` (the row), `s_menu_cursor_X` (0 for the
 * row's header, 1..3 for its columns) and the direction flag
 * `s_menu_cursor_vertical_direction`.
 */
module A2cMenu {
  import opened Wrappers
  import opened A2cSettings

  /** A `struct menu_command`: its name and its callback, `None` for NULL. */
  datatype Entry = Entry(name: string, command: Option<Command>)

  /** A `struct menu_commands`: the header and its three entries. */
  datatype MenuRow = MenuRow(header: string, e0: Entry, e1: Entry, e2: Entry)

  const NoEntry: Entry := Entry("", None)
  const BlankRow: MenuRow := MenuRow("", NoEntry, NoEntry, NoEntry)

  /** `a2c_menu_items_main`, lines 483-498. */
  const MenuTable: seq<MenuRow> := [
    MenuRow("MODE:", Entry("COLOR", Some(ModeCmd)), Entry("MONO", Some(ModeCmd)), Entry("MIXED", Some(ModeCmd))),
    BlankRow,
    MenuRow("COLOR:", Entry("A2DVI", Some(ColorCmd)), Entry("NTSC", Some(ColorCmd)), Entry("CLAMP", Some(ColorCmd))),
    BlankRow,
    MenuRow("MONO:", Entry("B&W", Some(MonoCmd)), Entry("GREEN", Some(MonoCmd)), Entry("AMBER", Some(MonoCmd))),
    BlankRow,
    MenuRow("LINES:", Entry("ENABLE", Some(LinesCmd)), Entry("DISABLE", Some(LinesCmd)), Entry("MONO", Some(LinesCmd))),
    BlankRow,
    MenuRow("VIDEO:", Entry("720X480", Some(VideoCmd)), Entry("640X480", Some(VideoCmd)), NoEntry),
    BlankRow,
    MenuRow("SET:", Entry("SAVE", Some(ConfigCmd)), Entry("DEFAULT", Some(ConfigCmd)), Entry("DEBUG", Some(ConfigCmd))),
    BlankRow,
    MenuRow("EXIT", Entry("", Some(ExitCmd)), NoEntry, NoEntry)
  ]

  /** `sizeof(a2c_menu_items_main) / sizeof(a2c_menu_items_main[0])`. */
  const MenuRows: nat := 13

  lemma TableSize()
    ensures |MenuTable| == MenuRows
  {
  }

  /** `commands[j]` of row `y`. */
  function EntryAt(y: int, j: int): Entry
    requires 0 <= y < MenuRows && 0 <= j < 3
  {
    var row := MenuTable[y];
    if j == 0 then row.e0 else if j == 1 then row.e1 else row.e2
  }

  /** Whether `commands[j].command` of row `y` is set; only in-table reads are asked. */
  predicate HasCommand(y: int, j: int)
    requires 0 <= y < MenuRows && 0 <= j < 3
  {
    EntryAt(y, j).command.Some?
  }

  /** The rows with a command in the first column are the even ones: the six settings rows and EXIT. */
  lemma CommandRows(y: int)
    requires 0 <= y < MenuRows
    ensures HasCommand(y, 0) <==> y % 2 == 0
  {
  }

  // ------------------------------------------------------------ the cursor

  datatype Cursor = Cursor(x: int, y: int, vertical: bool)

  predicate InBounds(c: Cursor)
  {
    0 <= c.x < 4 && 0 <= c.y < MenuRows
  }

  /** `show_menu`: header of the first row, moving vertically. */
  const Home: Cursor := Cursor(0, 0, true)

  /** The first row from `r` on whose first column has a command; 0 when there is none. */
  function NextRowFrom(r: int): (y: nat)
    requires r >= 1
    ensures y < MenuRows
    ensures y != 0 ==> r <= y && HasCommand(y, 0) && forall k :: r <= k < y ==> !HasCommand(k, 0)
    ensures y == 0 ==> forall k :: r <= k < MenuRows ==> !HasCommand(k, 0)
    decreases MenuRows - r
  {
    if r >= MenuRows then 0 else if HasCommand(r, 0) then r else NextRowFrom(r + 1)
  }

  /** The first column from `c` on (1-based) of row `y` with a command; 0 when there is none. */
  function NextColumnFrom(y: int, c: int): (x: nat)
    requires 0 <= y < MenuRows && c >= 1
    ensures x < 4
    ensures x != 0 ==> c <= x && HasCommand(y, x - 1) && forall j :: c - 1 <= j < x - 1 ==> !HasCommand(y, j)
    ensures x == 0 ==> forall j :: c - 1 <= j < 3 ==> !HasCommand(y, j)
    decreases 4 - c
  {
    if c > 3 then 0 else if HasCommand(y, c - 1) then c else NextColumnFrom(y, c + 1)
  }

  /** `menu_short_press`, lines 595-631: the next row with a command, or the next column with one. */
  function ShortPressed(c: Cursor): (r: Cursor)
    requires InBounds(c)
    ensures InBounds(r) && r.vertical == c.vertical
  {
    if c.vertical then c.(y := NextRowFrom(c.y + 1)) else c.(x := NextColumnFrom(c.y, c.x + 1))
  }

  /**
   * The cases where the loop of lines 601-610 or 616-625 reads an entry
   * outside the table before the bound check: from EXIT, `y + 1` is row 13
   * of a 13-row table; from the third column, `commands[3]` lies past the
   * three-entry array.
   */
  predicate StrayRead(c: Cursor)
  {
    (c.vertical && c.y == MenuRows - 1) || (!c.vertical && c.x == 3)
  }

  /** A command invoked through an entry's pointer, with the column it is passed. */
  datatype Invocation = Invocation(command: Command, index: int)

  /** The command `menu_long_press` runs, lines 633-672. */
  function LongPressAction(c: Cursor): (r: Option<Invocation>)
    requires InBounds(c)
    ensures r.Some? ==> 0 <= r.value.index < 3
  {
    if c.vertical then
      if c.x == 0 && HasCommand(c.y, 0) && EntryAt(c.y, 0).name == "" then
        Some(Invocation(EntryAt(c.y, 0).command.value, 0))
      else None
    else if c.x != 0 && HasCommand(c.y, c.x - 1) then
      Some(Invocation(EntryAt(c.y, c.x - 1).command.value, c.x - 1))
    else None
  }

  /** Where `menu_long_press` leaves the cursor. */
  function LongPressed(c: Cursor): (r: Cursor)
    requires InBounds(c)
    ensures InBounds(r)
  {
    if c.vertical then
      if c.x == 0 && !(HasCommand(c.y, 0) && EntryAt(c.y, 0).name == "") then c.(vertical := false, x := 1)
      else c
    else if c.x == 0 then c.(vertical := true)
    else c.(x := 0, vertical := true)
  }

  // ------------------------------------------------------- cursor lemmas

  /** From a header row a vertical short press goes to the next header row, and from EXIT back to MODE. */
  lemma VerticalVisitsHeaders(y: int)
    requires 0 <= y < MenuRows && y % 2 == 0
    ensures NextRowFrom(y + 1) == if y == MenuRows - 1 then 0 else y + 2
  {
    if y + 2 < MenuRows {
      CommandRows(y + 1);
      CommandRows(y + 2);
    }
  }

  /**
   * Across a settings row, short presses step through the columns and back
   * to the header; on the VIDEO row, whose third entry is empty, the second
   * column goes back to the header.
   */
  lemma HorizontalVisitsColumns(y: int, x: int)
    requires 0 <= y < MenuRows - 1 && y % 2 == 0 && 0 <= x < 4
    ensures NextColumnFrom(y, x + 1) == if x == 3 || (y == 8 && x == 2) then 0 else x + 1
  {
  }

  /** Repeated short presses from `c`. */
  function ShortPresses(c: Cursor, n: nat): (r: Cursor)
    requires InBounds(c)
    ensures InBounds(r)
    decreases n
  {
    if n == 0 then c else ShortPresses(ShortPressed(c), n - 1)
  }

  /** A vertical short press from a header row lands on the next header row. */
  lemma HeaderStep(y: int)
    requires 0 <= y < MenuRows && y % 2 == 0
    ensures ShortPressed(Cursor(0, y, true)) == Cursor(0, if y == MenuRows - 1 then 0 else y + 2, true)
  {
    VerticalVisitsHeaders(y);
  }

  /**
   * The stray read is reachable: six short presses after the menu opens,
   * the cursor is on EXIT, and the seventh press reads past the table.
   */
  lemma {:induction false} ExitReachedAfterSixPresses()
    ensures ShortPresses(Home, 6) == Cursor(0, MenuRows - 1, true)
    ensures StrayRead(ShortPresses(Home, 6))
    ensures ShortPresses(Home, 7) == Home
  {
    HeaderStep(0);
    HeaderStep(2);
    HeaderStep(4);
    HeaderStep(6);
    HeaderStep(8);
    HeaderStep(10);
    HeaderStep(12);
    assert ShortPresses(Cursor(0, 12, true), 1) == Home;
    assert ShortPresses(Cursor(0, 10, true), 2) == Home;
    assert ShortPresses(Cursor(0, 8, true), 3) == Home;
    assert ShortPresses(Cursor(0, 6, true), 4) == Home;
    assert ShortPresses(Cursor(0, 4, true), 5) == Home;
    assert ShortPresses(Cursor(0, 2, true), 6) == Home;
    assert ShortPresses(Cursor(0, 10, true), 1) == Cursor(0, 12, true);
    assert ShortPresses(Cursor(0, 8, true), 2) == Cursor(0, 12, true);
    assert ShortPresses(Cursor(0, 6, true), 3) == Cursor(0, 12, true);
    assert ShortPresses(Cursor(0, 4, true), 4) == Cursor(0, 12, true);
    assert ShortPresses(Cursor(0, 2, true), 5) == Cursor(0, 12, true);
  }

  /** A long press on a settings header enters the row at its first column. */
  lemma LongPressEntersRow(y: int)
    requires 0 <= y < MenuRows - 1 && y % 2 == 0
    ensures LongPressed(Cursor(0, y, true)) == Cursor(1, y, false)
    ensures LongPressAction(Cursor(0, y, true)) == None
  {
  }

  /** A long press on EXIT runs `exit_command` for column 0 and leaves the cursor where it is. */
  lemma LongPressOnExit()
    ensures LongPressAction(Cursor(0, MenuRows - 1, true)) == Some(Invocation(ExitCmd, 0))
    ensures LongPressed(Cursor(0, MenuRows - 1, true)) == Cursor(0, MenuRows - 1, true)
  {
  }

  /**
   * A long press on a column runs that column's command with its 0-based
   * index, if it has one, and returns to the row's header; a long press on
   * the header of a row being walked returns to vertical movement.
   */
  lemma LongPressOnColumn(c: Cursor)
    requires InBounds(c) && !c.vertical
    ensures LongPressed(c) == Cursor(0, c.y, true)
    ensures c.x == 0 ==> LongPressAction(c) == None
    ensures c.x > 0 ==> (LongPressAction(c).Some? <==> HasCommand(c.y, c.x - 1))
    ensures c.x > 0 && HasCommand(c.y, c.x - 1) ==>
      LongPressAction(c) == Some(Invocation(EntryAt(c.y, c.x - 1).command.value, c.x - 1))
  {
  }

  // ----------------------------------------------------- the mode cycle

  /** The columns `cycle_video_modes` passes to MODE, MONO and LINES for each step, lines 681-729. */
  function CycleColumns(k: int): (r: (int, int, int))
    requires 0 <= k < 8
  {
    if k == 0 then (0, 0, 1)
    else if k == 1 then (1, 0, 1)
    else if k == 2 then (1, 1, 1)
    else if k == 3 then (1, 2, 1)
    else if k == 4 then (0, 0, 0)
    else if k == 5 then (1, 0, 0)
    else if k == 6 then (1, 1, 0)
    else (1, 2, 0)
  }

  /**
   * The settings after step `k` of the cycle. Steps 0-3 turn scanlines off
   * and steps 4-7 on; steps 0 and 4 show colour, the others force mono in
   * B&W, green and amber; no step keeps the mixed rendering effect, and no
   * other setting changes.
   */
  function CycleStep(c: Config, k: int, defaults: Defaults): (r: Config)
    requires 0 <= k < 8
    ensures r.scanlineMode == (if k < 4 then ScanlinesOff else ScanlinesOn)
    ensures r.forcedMono == (k % 4 != 0) && r.renderingFx == FxNone
    ensures r.colorMode == (if k % 4 == 2 then ColorGreen else if k % 4 == 3 then ColorAmber else ColorBW)
    ensures r == c.(colorMode := r.colorMode, forcedMono := r.forcedMono, renderingFx := r.renderingFx,
                    scanlineMode := r.scanlineMode)
  {
    var (mode, mono, lines) := CycleColumns(k);
    Invoked(Invoked(Invoked(c, ModeCmd, mode, defaults), MonoCmd, mono, defaults), LinesCmd, lines, defaults)
  }

  /** Lines 678-679: `s_menu_cycle_count` advanced by one and reduced modulo 8. */
  function CycleNext(k: int): (r: int)
    requires 0 <= k < 8
    ensures r == if k == 7 then 0 else k + 1
  {
    (k + 1) % 8
  }

  // ------------------------------------------------------------ the class

  class Menu {
    /** The settings the commands change. */
    const settings: Settings
    var x: int
    var y: int
    var vertical: bool
    /** `s_menu_cycle_count`. */
    var cycleCount: int
    /** How often a short press read an entry outside the table. */
    ghost var strayReads: nat

    function Position(): Cursor
      reads this
    {
      Cursor(x, y, vertical)
    }

    ghost predicate Valid()
      reads this
    {
      InBounds(Position()) && 0 <= cycleCount < 8
    }

    constructor(s: Settings)
      ensures settings == s && Position() == Home && cycleCount == 0 && strayReads == 0
      ensures Valid()
    {
      settings := s;
      x, y, vertical := 0, 0, true;
      cycleCount := 0;
      strayReads := 0;
    }

    /** `show_menu`, lines 588-593. */
    method ShowMenu()
      modifies this`x, this`y, this`vertical
      ensures Position() == Home
    {
      x := 0;
      y := 0;
      vertical := true;
    }

    /**
     * `menu_short_press` as written: each loop reads the table entry before
     * checking the bound. `strayIsNull` stands for whatever the stray read
     * finds; the cursor ends in the same place either way.
     */
    method ShortPressAsWritten(strayIsNull: bool)
      requires Valid()
      modifies this`x, this`y, this`strayReads
      ensures Valid()
      ensures Position() == ShortPressed(old(Position()))
      ensures strayReads == old(strayReads) + (if StrayRead(old(Position())) then 1 else 0)
    {
      if vertical {
        var row := AdvanceRowAsWritten(y, strayIsNull);
        y := row % MenuRows;
      } else {
        var col := AdvanceColumnAsWritten(x, y, strayIsNull);
        x := col % 4;
      }
    }

    /** The loop of lines 599-610 from row `y0`; it reads row 13 when `y0` is EXIT. */
    method AdvanceRowAsWritten(y0: int, strayIsNull: bool) returns (row: int)
      requires 0 <= y0 < MenuRows
      modifies this`strayReads
      ensures 0 <= row && row % MenuRows == NextRowFrom(y0 + 1)
      ensures strayReads == old(strayReads) + (if y0 == MenuRows - 1 then 1 else 0)
    {
      row := y0 + 1;
      var done := false;
      while !done
        invariant !done ==> y0 + 1 <= row <= MenuRows && NextRowFrom(row) == NextRowFrom(y0 + 1)
        invariant !done ==> (row == MenuRows ==> y0 == MenuRows - 1) && strayReads == old(strayReads)
        invariant done ==> 0 <= row && row % MenuRows == NextRowFrom(y0 + 1)
        invariant done ==> strayReads == old(strayReads) + (if y0 == MenuRows - 1 then 1 else 0)
        decreases if done then 0 else MenuRows + 2 - row
      {
        var isNull;
        if row < MenuRows {
          isNull := !HasCommand(row, 0);
        } else {
          isNull := strayIsNull;
          strayReads := strayReads + 1;
        }
        if !isNull {
          done := true;
        } else {
          row := row + 1;
          if row >= MenuRows {
            row := 0;
            done := true;
          }
        }
      }
    }

    /** The loop of lines 614-625 from column `x0`; it reads `commands[3]` when `x0` is 3. */
    method AdvanceColumnAsWritten(x0: int, y0: int, strayIsNull: bool) returns (col: int)
      requires 0 <= x0 < 4 && 0 <= y0 < MenuRows
      modifies this`strayReads
      ensures 0 <= col && col % 4 == NextColumnFrom(y0, x0 + 1)
      ensures strayReads == old(strayReads) + (if x0 == 3 then 1 else 0)
    {
      col := x0 + 1;
      var done := false;
      while !done
        invariant !done ==> x0 + 1 <= col <= 4 && NextColumnFrom(y0, col) == NextColumnFrom(y0, x0 + 1)
        invariant !done ==> (col == 4 ==> x0 == 3) && strayReads == old(strayReads)
        invariant done ==> 0 <= col && col % 4 == NextColumnFrom(y0, x0 + 1)
        invariant done ==> strayReads == old(strayReads) + (if x0 == 3 then 1 else 0)
        decreases if done then 0 else 5 - col
      {
        var isNull;
        if col - 1 < 3 {
          isNull := !HasCommand(y0, col - 1);
        } else {
          isNull := strayIsNull;
          strayReads := strayReads + 1;
        }
        if !isNull {
          done := true;
        } else {
          col := col + 1;
          if col > 3 {
            col := 0;
            done := true;
          }
        }
      }
    }

    /** `menu_short_press` with each bound checked before the table is read. */
    method ShortPress()
      requires Valid()
      modifies this`x, this`y
      ensures Valid()
      ensures Position() == ShortPressed(old(Position()))
    {
      if vertical {
        var row := y + 1;
        while row < MenuRows && !HasCommand(row, 0)
          invariant y + 1 <= row <= MenuRows && NextRowFrom(row) == NextRowFrom(y + 1)
          decreases MenuRows - row
        {
          row := row + 1;
        }
        y := if row >= MenuRows then 0 else row;
      } else {
        var col := x + 1;
        while col <= 3 && !HasCommand(y, col - 1)
          invariant x + 1 <= col <= 4 && NextColumnFrom(y, col) == NextColumnFrom(y, x + 1)
          decreases 4 - col
        {
          col := col + 1;
        }
        x := if col > 3 then 0 else col;
      }
    }

    /** `menu_long_press`, lines 633-672: `ran` is the command it runs with `update` set. */
    method LongPress() returns (ran: Option<Invocation>)
      requires Valid()
      modifies this`x, this`vertical, settings
      ensures Valid()
      ensures Position() == LongPressed(old(Position()))
      ensures ran == LongPressAction(old(Position()))
      ensures ran.None? ==> settings.Values() == old(settings.Values())
      ensures ran.Some? ==>
        settings.Values() == Invoked(old(settings.Values()), ran.value.command, ran.value.index, settings.defaults)
    {
      ran := None;
      if vertical {
        if x == 0 {
          if HasCommand(y, 0) && EntryAt(y, 0).name == "" {
            ran := Some(Invocation(EntryAt(y, 0).command.value, 0));
            var _ := settings.Run(ran.value.command, 0, true);
          } else {
            vertical := false;
            x := 1;
          }
        }
      } else {
        if x == 0 {
          vertical := true;
        } else {
          if HasCommand(y, x - 1) {
            ran := Some(Invocation(EntryAt(y, x - 1).command.value, x - 1));
            var _ := settings.Run(ran.value.command, x - 1, true);
          }
          x := 0;
          vertical := true;
        }
      }
    }

    /** `cycle_video_modes`, lines 676-734. */
    method CycleVideoModes()
      requires Valid()
      modifies this`cycleCount, settings
      ensures Valid()
      ensures cycleCount == CycleNext(old(cycleCount))
      ensures settings.Values() == CycleStep(old(settings.Values()), cycleCount, settings.defaults)
    {
      cycleCount := cycleCount + 1;
      cycleCount := cycleCount % 8;
      var (mode, mono, lines) := CycleColumns(cycleCount);
      var _ := settings.ModeCommand(mode, true);
      var _ := settings.MonoCommand(mono, true);
      var _ := settings.ScanlineCommand(lines, true);
    }
  }
}
