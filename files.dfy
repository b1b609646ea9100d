/**
 * The state behind the Files tab of the terminal user interface: a window
 * `[topIndex, bottomIndex)` over the entries of the root directory, the two
 * scroll counters that tell a draw which way the user scrolled, and the
 * per-entry "download" flag that a click toggles.
 *
 * The window arithmetic is stated once, on values (`FirstDrawWindow`,
 * `ScrollWindow`, `DrawWindow`), and the methods of `FilesState` are proved
 * to update their fields as those functions say.
 */
module Files {
  import opened Wrappers
  import opened Ints

  /** Bottom index given to the window on the first draw: ten rows are shown. */
  const FIRST_DRAW_ROWS: int := 10

  datatype Rect = Rect(x: u16, y: u16, width: u16, height: u16)

  datatype FileType = Regular | Directory

  /** An entry of the torrent's file tree; only directories have inner files. */
  datatype File = File(
    name: string,
    fileType: FileType,
    innerFiles: Option<seq<File>>,
    size: nat,
    shouldDownload: bool)

  /** One row of the files table: name, type, download flag and progress cells. */
  datatype Row = Row(name: string, fileType: string, download: string, progress: string)

  const HEADER_ROW: Row := Row("Name", "Type", "Download", "Progress")
  const BLANK_ROW: Row := Row("", "", "", "")

  /** The table row drawn for one entry. */
  function TableRow(f: File): Row {
    Row(f.name,
        if f.fileType == Regular then "File" else "Folder",
        if f.shouldDownload then "Yes" else "No",
        "NOTHING HERE ")
  }

  /** The rows shown: a half-open range of entry indices. */
  datatype Window = Window(top: int, bottom: int)

  /** A window still at its initial `[0, 0)` is set to the first ten rows. */
  function FirstDrawWindow(w: Window): Window {
    if w.top == 0 && w.bottom == 0 then Window(0, FIRST_DRAW_ROWS) else w
  }

  /**
   * How many entries a downward scroll may reach: the number of inner files,
   * truncated to 16 bits as the source's `as u16` cast does; with no inner
   * files the window never moves down.
   */
  function ShiftLimit(root: File): int {
    match root.innerFiles
    case Some(files) => |files| % 0x1_0000
    case None => 0
  }

  /**
   * Moves the window one row in the direction the scroll counters moved:
   * up only while rows remain above it, down only while its bottom is below
   * `limit`.
   */
  function ScrollWindow(w: Window, previous: int, current: int, limit: int): (r: Window)
    ensures r.bottom - r.top == w.bottom - w.top
    ensures previous == current ==> r == w
    ensures previous > current ==> r.top <= w.top && (r.top == w.top <==> w.top <= 0)
    ensures previous < current ==> r.top >= w.top && (r.top == w.top <==> w.bottom >= limit)
    ensures -1 <= r.top - w.top <= 1
    ensures 0 <= w.top ==> 0 <= r.top
    ensures w.bottom <= limit ==> r.bottom <= limit
  {
    if previous > current then
      if w.top > 0 then Window(w.top - 1, w.bottom - 1) else w
    else if previous < current then
      if w.bottom < limit then Window(w.top + 1, w.bottom + 1) else w
    else w
  }

  /** The window update a draw performs. */
  function DrawWindow(w: Window, previous: int, current: int, limit: int): Window {
    ScrollWindow(FirstDrawWindow(w), previous, current, limit)
  }

  /** A window of ten rows inside the first `limit` entries. */
  predicate Settled(w: Window, limit: int) {
    0 <= w.top && w.bottom == w.top + FIRST_DRAW_ROWS && w.bottom <= limit
  }

  /**
   * The window after one draw per entry of `currents`, each entry being the
   * scroll counter at that draw; after each draw the previous counter takes
   * the current one's value, as the event loop does.
   */
  function Redraw(w: Window, previous: int, currents: seq<int>, limit: int): Window
    decreases |currents|
  {
    if currents == [] then w
    else Redraw(DrawWindow(w, previous, currents[0], limit), currents[0], currents[1..], limit)
  }

  /**
   * With at least ten entries, any sequence of draws from the initial window
   * (or from a settled one) leaves ten rows inside the list: the top never
   * underflows, the width stays ten and the bottom never passes the end.
   */
  lemma {:induction false} RedrawStaysSettled(w: Window, previous: int, currents: seq<int>, limit: int)
    requires limit >= FIRST_DRAW_ROWS
    requires Settled(w, limit) || (w == Window(0, 0) && currents != [])
    ensures Settled(Redraw(w, previous, currents, limit), limit)
    decreases |currents|
  {
    if currents != [] {
      var next := DrawWindow(w, previous, currents[0], limit);
      assert Settled(FirstDrawWindow(w), limit);
      assert Settled(next, limit);
      RedrawStaysSettled(next, currents[0], currents[1..], limit);
    }
  }

  /**
   * With fewer than ten entries the first draw sets the window past the end
   * of the list whatever the scroll counters say, so the rows it emits would
   * index past the last entry.
   */
  lemma ShortListOverrun(previous: int, current: int, limit: int)
    requires 0 <= limit < FIRST_DRAW_ROWS
    ensures DrawWindow(Window(0, 0), previous, current, limit) == Window(0, FIRST_DRAW_ROWS)
  {
  }

  /**
   * Hence a first draw over a directory of fewer than ten entries is not safe:
   * its row loop would read past the last entry.
   */
  lemma ShortListDrawsUnsafely(previous: int, current: int, root: File)
    requires root.innerFiles.Some? && |root.innerFiles.value| < FIRST_DRAW_ROWS
    ensures !DrawSafe(Window(0, 0), previous, current, root)
  {
    ShortListOverrun(previous, current, ShiftLimit(root));
  }

  /** The rows of the entries `files[top..bottom)`, in index order. */
  function FileRows(files: seq<File>, top: nat, bottom: nat): (rows: seq<Row>)
    requires top <= bottom <= |files|
    ensures |rows| == bottom - top
  {
    seq(bottom - top, k requires 0 <= k < bottom - top => TableRow(files[top + k]))
  }

  /** Emitting the rows of w indexes only entries that exist. */
  predicate RowsInBounds(root: File, w: Window) {
    root.innerFiles.Some? && w.top < w.bottom ==> w.bottom <= |root.innerFiles.value|
  }

  /** The table drawn for a window: the header, a blank row, then the window's entries. */
  function TableRows(root: File, w: Window): seq<Row>
    requires 0 <= w.top && RowsInBounds(root, w)
  {
    [HEADER_ROW, BLANK_ROW] +
      match root.innerFiles
      case Some(files) => if w.top < w.bottom then FileRows(files, w.top, w.bottom) else []
      case None => []
  }

  /** The window update of a draw does not panic: no 16-bit index arithmetic wraps. */
  predicate WindowUpdateSafe(w: Window, previous: int, current: int, root: File) {
    var first := FirstDrawWindow(w);
    && (previous > current && first.top > 0 ==> first.bottom > 0)
    && (previous < current && first.bottom < ShiftLimit(root) ==> first.top < U16_MAX)
    && 0 <= first.top
  }

  /** A draw does not panic: the window update is safe and no row is out of range. */
  predicate DrawSafe(w: Window, previous: int, current: int, root: File) {
    && WindowUpdateSafe(w, previous, current, root)
    && RowsInBounds(root, DrawWindow(w, previous, current, ShiftLimit(root)))
  }

  /**
   * With between ten and 65535 inner files, a draw from the initial window or
   * from a settled one never panics.
   */
  lemma SettledWindowDrawsSafely(w: Window, previous: int, current: int, root: File)
    requires root.innerFiles.Some? && FIRST_DRAW_ROWS <= |root.innerFiles.value| <= U16_MAX
    requires w == Window(0, 0) || Settled(w, ShiftLimit(root))
    ensures DrawSafe(w, previous, current, root)
  {
  }

  /** The clickable range of the download column, 68% to 76% of the tab's width. */
  predicate InDownloadColumn(width: int, offsetX: int) {
    width * 68 / 100 <= offsetX <= width * 76 / 100
  }

  /** Negates the download flag of entry i and leaves every other entry as it was. */
  function ToggleDownload(files: seq<File>, i: nat): (r: seq<File>)
    requires i < |files|
    ensures |r| == |files|
    ensures r[i] == files[i].(shouldDownload := !files[i].shouldDownload)
    ensures forall j :: 0 <= j < |files| && j != i ==> r[j] == files[j]
  {
    files[i := files[i].(shouldDownload := !files[i].shouldDownload)]
  }

  /** Clicking the same entry twice restores it. */
  lemma ToggleTwiceRestores(files: seq<File>, i: nat)
    requires i < |files|
    ensures ToggleDownload(ToggleDownload(files, i), i) == files
  {
  }

  /**
   * Toggling a shown entry changes exactly its row of the table, and there
   * only the download cell, from "Yes" to "No" or back; toggling an entry
   * outside the window changes no row.
   */
  lemma {:induction false} ToggleShowsInTable(files: seq<File>, top: nat, bottom: nat, i: nat)
    requires top <= bottom <= |files| && i < |files|
    ensures top <= i < bottom ==>
      FileRows(ToggleDownload(files, i), top, bottom)
        == FileRows(files, top, bottom)[i - top := TableRow(files[i]).(download := if files[i].shouldDownload then "No" else "Yes")]
    ensures !(top <= i < bottom) ==> FileRows(ToggleDownload(files, i), top, bottom) == FileRows(files, top, bottom)
  {
    var toggled := ToggleDownload(files, i);
    if top <= i < bottom {
      var expected := FileRows(files, top, bottom)[i - top := TableRow(files[i]).(download := if files[i].shouldDownload then "No" else "Yes")];
      forall k | 0 <= k < bottom - top
        ensures FileRows(toggled, top, bottom)[k] == expected[k]
      {
        if top + k == i {
          assert FileRows(toggled, top, bottom)[k] == TableRow(toggled[i]);
          assert toggled[i] == files[i].(shouldDownload := !files[i].shouldDownload);
          assert expected[k] == TableRow(files[i]).(download := if files[i].shouldDownload then "No" else "Yes");
        } else {
          assert toggled[top + k] == files[top + k];
        }
      }
    } else {
      forall k | 0 <= k < bottom - top
        ensures FileRows(toggled, top, bottom)[k] == FileRows(files, top, bottom)[k]
      {
        assert toggled[top + k] == files[top + k];
      }
    }
  }

  /** The scroll, selection and file-tree state of the Files tab. */
  class FilesState {
    var topIndex: u16
    var bottomIndex: u16
    /** Total size of the table; set when the state is created and not read by the draw. */
    var len: u16
    var scrollStateCurrent: i16
    var scrollStatePrevious: i16
    var rect: Rect
    var file: File

    function CurrentWindow(): Window
      reads this
    {
      Window(topIndex, bottomIndex)
    }

    /** An empty root directory "/" marked for download, an empty window and zeroed counters. */
    constructor New()
      ensures topIndex == 0 && bottomIndex == 0 && len == 0
      ensures scrollStateCurrent == 0 && scrollStatePrevious == 0
      ensures rect == Rect(0, 0, 0, 0)
      ensures file == File("/", Directory, Some([]), 0, true)
    {
      rect := Rect(0, 0, 0, 0);
      topIndex := 0;
      bottomIndex := 0;
      len := 0;
      scrollStateCurrent := 0;
      scrollStatePrevious := 0;
      file := File("/", Directory, Some([]), 0, true);
    }

    method SetTopIndex(v: u16)
      modifies this`topIndex
      ensures topIndex == v
    {
      topIndex := v;
    }

    method SetBottomIndex(v: u16)
      modifies this`bottomIndex
      ensures bottomIndex == v
    {
      bottomIndex := v;
    }

    method SetScrollStateCurrent(v: i16)
      modifies this`scrollStateCurrent
      ensures scrollStateCurrent == v
    {
      scrollStateCurrent := v;
    }

    method SetScrollStatePrevious(v: i16)
      modifies this`scrollStatePrevious
      ensures scrollStatePrevious == v
    {
      scrollStatePrevious := v;
    }

    /** A downward scroll event: the current counter goes up by one (it is a 16-bit counter). */
    method ScrollGoingDown()
      requires scrollStateCurrent < I16_MAX
      modifies this`scrollStateCurrent
      ensures scrollStateCurrent == old(scrollStateCurrent) + 1
    {
      SetScrollStateCurrent(scrollStateCurrent + 1);
    }

    /** An upward scroll event: the current counter goes down by one. */
    method ScrollGoingUp()
      requires scrollStateCurrent > I16_MIN
      modifies this`scrollStateCurrent
      ensures scrollStateCurrent == old(scrollStateCurrent) - 1
    {
      SetScrollStateCurrent(scrollStateCurrent - 1);
    }

    /** A click at (offsetX, offsetY) lands on the download cell of a table row. */
    predicate ClickedOnDownload(offsetX: int, offsetY: int)
      reads this
    {
      InDownloadColumn(rect.width, offsetX) && offsetY >= rect.y + 2
    }

    /** The entry index of a clicked row: rows start two lines below the tab's top. */
    function ClickedIndex(offsetY: int): int
      reads this
    {
      topIndex + (offsetY - (rect.y + 2))
    }

    /** A click does not panic: no 16-bit sum wraps and the clicked entry exists. */
    predicate ClickSafe(offsetX: int, offsetY: int)
      reads this
    {
      && (InDownloadColumn(rect.width, offsetX) ==> rect.y + 2 <= U16_MAX)
      && (ClickedOnDownload(offsetX, offsetY) ==>
            && ClickedIndex(offsetY) <= U16_MAX
            && (file.innerFiles.Some? ==> ClickedIndex(offsetY) < |file.innerFiles.value|))
    }

    /**
     * A left click: on the download cell of a row it negates that entry's
     * download flag; anywhere else it changes nothing.
     */
    method ButtonClick(offsetX: u16, offsetY: u16)
      requires ClickSafe(offsetX, offsetY)
      modifies this`file
      ensures ClickedOnDownload(offsetX, offsetY) && old(file).innerFiles.Some? ==>
        file == old(file).(innerFiles := Some(ToggleDownload(old(file).innerFiles.value, ClickedIndex(offsetY))))
      ensures !(ClickedOnDownload(offsetX, offsetY) && old(file).innerFiles.Some?) ==> file == old(file)
    {
      var hasClickedOnDownload := InDownloadColumn(rect.width, offsetX) && offsetY >= rect.y + 2;
      if hasClickedOnDownload {
        var indexOffset := topIndex + (offsetY - (rect.y + 2));
        var currentValue := false;
        if file.innerFiles.Some? {
          currentValue := file.innerFiles.value[indexOffset].shouldDownload;
        }
        if file.innerFiles.Some? {
          var files := file.innerFiles.value;
          file := file.(innerFiles := Some(files[indexOffset := files[indexOffset].(shouldDownload := !currentValue)]));
        }
      }
    }

    /**
     * The window update of a draw: the first draw sets the window to ten rows
     * and records the tab's size; then the window moves one row in the
     * direction the counters moved, if there is room.
     */
    method UpdateWindow(size: Rect)
      requires WindowUpdateSafe(CurrentWindow(), scrollStatePrevious, scrollStateCurrent, file)
      modifies this`topIndex, this`bottomIndex, this`rect
      ensures CurrentWindow() == DrawWindow(old(CurrentWindow()), scrollStatePrevious, scrollStateCurrent, ShiftLimit(file))
      ensures rect == if old(topIndex) == 0 && old(bottomIndex) == 0 then size else old(rect)
    {
      if topIndex == 0 && bottomIndex == 0 {
        SetTopIndex(0);
        SetBottomIndex(FIRST_DRAW_ROWS);
        rect := size;
      }
      if scrollStatePrevious > scrollStateCurrent {
        if topIndex > 0 {
          SetTopIndex(topIndex - 1);
          SetBottomIndex(bottomIndex - 1);
        }
      } else if scrollStatePrevious < scrollStateCurrent {
        match file.innerFiles {
          case Some(files) =>
            if bottomIndex < |files| % 0x1_0000 {
              SetTopIndex(topIndex + 1);
              SetBottomIndex(bottomIndex + 1);
            }
          case None =>
        }
      }
    }

    /** The table of the current window: the header, a blank row, then the shown entries in index order. */
    method EmitRows() returns (rows: seq<Row>)
      requires RowsInBounds(file, CurrentWindow())
      ensures rows == TableRows(file, CurrentWindow())
    {
      rows := [HEADER_ROW, BLANK_ROW];
      var i: int := topIndex;
      while i < bottomIndex
        invariant topIndex <= i
        invariant topIndex < bottomIndex ==> i <= bottomIndex
        invariant rows == [HEADER_ROW, BLANK_ROW] +
          match file.innerFiles
          case Some(files) => if topIndex < bottomIndex then FileRows(files, topIndex, i) else []
          case None => []
      {
        match file.innerFiles {
          case Some(files) =>
            assert FileRows(files, topIndex, i + 1) == FileRows(files, topIndex, i) + [TableRow(files[i])];
            rows := rows + [TableRow(files[i])];
          case None =>
        }
        i := i + 1;
      }
    }

    /** `draw_files`: the window update, then the rows of the updated window. */
    method DrawFiles(size: Rect) returns (rows: seq<Row>)
      requires DrawSafe(CurrentWindow(), scrollStatePrevious, scrollStateCurrent, file)
      modifies this`topIndex, this`bottomIndex, this`rect
      ensures CurrentWindow() == DrawWindow(old(CurrentWindow()), scrollStatePrevious, scrollStateCurrent, ShiftLimit(file))
      ensures rect == if old(topIndex) == 0 && old(bottomIndex) == 0 then size else old(rect)
      ensures rows == TableRows(file, CurrentWindow())
    {
      UpdateWindow(size);
      rows := EmitRows();
    }

    /** One pass of the event loop's drawing: draw the tab, then remember the current counter as the previous one. */
    method DrawStep(size: Rect) returns (rows: seq<Row>)
      requires DrawSafe(CurrentWindow(), scrollStatePrevious, scrollStateCurrent, file)
      modifies this`topIndex, this`bottomIndex, this`rect, this`scrollStatePrevious
      ensures CurrentWindow() == DrawWindow(old(CurrentWindow()), old(scrollStatePrevious), scrollStateCurrent, ShiftLimit(file))
      ensures rect == if old(topIndex) == 0 && old(bottomIndex) == 0 then size else old(rect)
      ensures rows == TableRows(file, CurrentWindow())
      ensures scrollStatePrevious == scrollStateCurrent
    {
      rows := DrawFiles(size);
      SetScrollStatePrevious(scrollStateCurrent);
    }
  }
}
