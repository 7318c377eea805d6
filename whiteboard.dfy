/**
 * The whiteboard page as a state machine: the tool buttons with the eraser as
 * a pen mode, the drawing phase of a mouse gesture, the pen segments it
 * broadcasts, the canvas state sent after a shape, and clearing on
 * confirmation. Calls into the sync module are recorded in order.
 */
module Whiteboard {
  import opened Wrappers
  import opened WhiteboardSync

  const StrokeWidth := 3
  const DefaultColor := "#202124"

  /** A call the board makes into the sync module. */
  datatype Call = DrawCall(data: DrawData) | StateCall | ClearCall

  /** The page's globals, the number of local clears and the calls made so far. */
  datatype Board = Board(drawing: bool, tool: string, color: string, eraser: bool,
                         last: Point, start: Point, clears: nat, calls: seq<Call>)

  const InitialBoard := Board(false, "pen", DefaultColor, false, Point(0, 0), Point(0, 0), 0, [])

  /** clearCanvas with the answer to the confirmation dialog. */
  function ClearCanvas(b: Board, confirmed: bool): Board {
    if confirmed then b.(clears := b.clears + 1, calls := b.calls + [ClearCall]) else b
  }

  /** The click handler of a tool button, with its `data-tool` attribute. */
  function Press(b: Board, tool: Option<string>, confirmed: bool): Board {
    if tool.None? || tool.value == "" then b
    else if tool.value == "clear" then ClearCanvas(b, confirmed)
    else if tool.value == "save" || tool.value == "hand" then b
    else if tool.value == "eraser" then b.(eraser := true, tool := "pen")
    else b.(eraser := false, tool := tool.value)
  }

  function SetColor(b: Board, color: string): Board {
    b.(color := color)
  }

  /** startDrawing at the mouse position. */
  function Start(b: Board, p: Point): Board {
    b.(drawing := true, last := p, start := p)
  }

  /** draw: a pen move broadcasts the segment from the last point; shapes only redraw locally. */
  function Move(b: Board, p: Point): Board {
    if !b.drawing then b
    else if b.tool == "pen" then
      b.(calls := b.calls + [DrawCall(Pen(b.last, p, b.color, StrokeWidth, b.eraser))], last := p)
    else b
  }

  /** stopDrawing: ends the gesture; a shape sends the whole canvas. */
  function Stop(b: Board): Board {
    if !b.drawing then b
    else b.(drawing := false, calls := b.calls + (if b.tool != "pen" then [StateCall] else []))
  }

  /** The tool is a drawing tool, never a button-only action, and the eraser is a pen mode. */
  predicate Valid(b: Board) {
    b.tool != "" && b.tool != "clear" && b.tool != "save" && b.tool != "hand" && b.tool != "eraser"
    && (b.eraser ==> b.tool == "pen")
  }

  // ---------------------------------------------------------------- single steps

  /**
   * The eraser button selects the pen in eraser mode; any other drawing tool
   * is selected as itself without the eraser; a missing attribute, `clear`,
   * `save` and `hand` leave tool and eraser as they were.
   */
  lemma PressSelects(b: Board, tool: Option<string>, confirmed: bool)
    ensures var t := Press(b, tool, confirmed);
      if tool == Some("eraser") then t.eraser && t.tool == "pen"
      else if tool.None? || tool.value in {"", "clear", "save", "hand"} then t.tool == b.tool && t.eraser == b.eraser
      else !t.eraser && t.tool == tool.value
  {
  }

  /** Every handler keeps the board valid. */
  lemma HandlersKeepValid(b: Board, tool: Option<string>, confirmed: bool, p: Point, color: string)
    requires Valid(b)
    ensures Valid(Press(b, tool, confirmed)) && Valid(Start(b, p)) && Valid(Move(b, p)) && Valid(Stop(b))
    ensures Valid(ClearCanvas(b, confirmed)) && Valid(SetColor(b, color))
  {
  }

  /** Starting a gesture draws from the mouse position: both the last point and the start point are set to it. */
  lemma StartSetsPoints(b: Board, p: Point)
    ensures Start(b, p).drawing && Start(b, p).last == p && Start(b, p).start == p
    ensures Start(b, p).calls == b.calls
  {
  }

  /**
   * Outside a gesture a move does nothing. In a gesture a pen move makes
   * exactly one draw call, from the last point to the new one with the current
   * colour, width and eraser flag, and moves the last point; a shape move
   * makes no call.
   */
  lemma MoveBroadcasts(b: Board, p: Point)
    ensures !b.drawing ==> Move(b, p) == b
    ensures b.drawing && b.tool == "pen" ==>
      Move(b, p).calls == b.calls + [DrawCall(Pen(b.last, p, b.color, StrokeWidth, b.eraser))] && Move(b, p).last == p
    ensures b.tool != "pen" ==> Move(b, p).calls == b.calls
  {
  }

  /** Ending a gesture sends the canvas only after a shape; outside a gesture it does nothing. */
  lemma StopSends(b: Board)
    ensures !b.drawing ==> Stop(b) == b
    ensures b.drawing ==>
      !Stop(b).drawing && Stop(b).calls == b.calls + (if b.tool == "pen" then [] else [StateCall])
  {
  }

  /** The board is cleared and the clear broadcast only on confirmation. */
  lemma ClearOnlyConfirmed(b: Board, confirmed: bool)
    ensures !confirmed ==> ClearCanvas(b, confirmed) == b
    ensures confirmed ==> ClearCanvas(b, confirmed).calls == b.calls + [ClearCall]
  {
  }

  // ---------------------------------------------------------------- a whole stroke

  /** Moves in order. */
  function Moves(b: Board, ps: seq<Point>): Board
    decreases |ps|
  {
    if ps == [] then b else Move(Moves(b, ps[..|ps| - 1]), ps[|ps| - 1])
  }

  /** The segments of a pen stroke through the given points. */
  function PenCalls(p0: Point, ps: seq<Point>, color: string, eraser: bool): (r: seq<Call>)
    ensures |r| == |ps|
  {
    seq(|ps|, i requires 0 <= i < |ps| => DrawCall(Pen(if i == 0 then p0 else ps[i - 1], ps[i], color, StrokeWidth, eraser)))
  }

  /**
   * A pen gesture broadcasts one segment per move, each starting where the
   * previous one ended, the first at the pressed point.
   */
  lemma {:induction false} PenStroke(b: Board, p0: Point, ps: seq<Point>)
    requires b.tool == "pen"
    ensures Moves(Start(b, p0), ps) ==
      Start(b, p0).(last := if ps == [] then p0 else ps[|ps| - 1], calls := b.calls + PenCalls(p0, ps, b.color, b.eraser))
    decreases |ps|
  {
    if ps != [] {
      var init := ps[..|ps| - 1];
      PenStroke(b, p0, init);
      var q := PenCalls(p0, init, b.color, b.eraser);
      var r := PenCalls(p0, ps, b.color, b.eraser);
      var lastPoint := if init == [] then p0 else init[|init| - 1];
      assert r == q + [DrawCall(Pen(lastPoint, ps[|ps| - 1], b.color, StrokeWidth, b.eraser))];
      assert b.calls + r == (b.calls + q) + [DrawCall(Pen(lastPoint, ps[|ps| - 1], b.color, StrokeWidth, b.eraser))];
    }
  }

  /** The broadcast segments of a stroke join end to start. */
  lemma PenCallsChain(p0: Point, ps: seq<Point>, color: string, eraser: bool)
    ensures var r := PenCalls(p0, ps, color, eraser);
      (|ps| > 0 ==> r[0].data.from == p0)
      && forall i :: 0 < i < |ps| ==> r[i].data.from == r[i - 1].data.to
  {
  }

  /** A shape gesture makes no call until it ends, and then one state call. */
  lemma {:induction false} ShapeStroke(b: Board, p0: Point, ps: seq<Point>)
    requires b.tool != "pen"
    ensures Moves(Start(b, p0), ps) == Start(b, p0)
    ensures Stop(Moves(Start(b, p0), ps)).calls == b.calls + [StateCall]
    decreases |ps|
  {
    if ps != [] {
      ShapeStroke(b, p0, ps[..|ps| - 1]);
    }
  }

  // ---------------------------------------------------------------- the page's globals

  class WhiteboardPage {
    var drawing: bool
    var tool: string
    var color: string
    var eraser: bool
    var last: Point
    var start: Point
    var clears: nat
    var calls: seq<Call>

    ghost function Snapshot(): Board
      reads this
    {
      Board(drawing, tool, color, eraser, last, start, clears, calls)
    }

    constructor ()
      ensures Snapshot() == InitialBoard
    {
      drawing, tool, color, eraser := false, "pen", DefaultColor, false;
      last, start, clears, calls := Point(0, 0), Point(0, 0), 0, [];
    }

    method OnToolButton(t: Option<string>, confirmed: bool)
      modifies this
      ensures Snapshot() == Press(old(Snapshot()), t, confirmed)
    {
      if t.None? || t.value == "" {
        return;
      }
      if t.value == "clear" {
        Clear(confirmed);
        return;
      }
      if t.value == "save" || t.value == "hand" {
        return;
      }
      if t.value == "eraser" {
        eraser := true;
        tool := "pen";
      } else {
        eraser := false;
        tool := t.value;
      }
    }

    method OnColor(c: string)
      modifies this
      ensures Snapshot() == SetColor(old(Snapshot()), c)
    {
      color := c;
    }

    method StartDrawing(p: Point)
      modifies this
      ensures Snapshot() == Start(old(Snapshot()), p)
    {
      drawing := true;
      last := p;
      start := p;
    }

    method Draw(p: Point)
      modifies this
      ensures Snapshot() == Move(old(Snapshot()), p)
    {
      if !drawing {
        return;
      }
      if tool == "pen" {
        calls := calls + [DrawCall(Pen(last, p, color, StrokeWidth, eraser))];
        last := p;
      }
    }

    method StopDrawing()
      modifies this
      ensures Snapshot() == Stop(old(Snapshot()))
    {
      if !drawing {
        return;
      }
      drawing := false;
      if tool != "pen" {
        calls := calls + [StateCall];
      }
    }

    method Clear(confirmed: bool)
      modifies this
      ensures Snapshot() == ClearCanvas(old(Snapshot()), confirmed)
    {
      if confirmed {
        clears := clears + 1;
        calls := calls + [ClearCall];
      }
    }
  }
}
