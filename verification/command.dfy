/** The Command demo: an invoker keeps a stack of executed commands over a board of
    figures, and undoes them last-in first-out. */
module Command {

  datatype Point = Point(x: int, y: int)

  class Figure {
    var Position: Point

    constructor (position: Point)
      ensures Position == position
    {
      Position := position;
    }
  }

  /** Where a new board puts its four figures. */
  const InitialPositions := [Point(1, 1), Point(1, 3), Point(1, 5), Point(1, 7)]

  class BoardContext {
    var Figures: array<Figure>

    /** There is a first figure, and no other slot holds that same figure. */
    ghost predicate Valid()
      reads this, Figures
    {
      Figures.Length > 0 && forall i :: 0 < i < Figures.Length ==> Figures[i] != Figures[0]
    }

    /** The position of every figure, slot by slot. */
    function Positions(): (r: seq<Point>)
      reads this, Figures, Figures[..]
      ensures |r| == Figures.Length
      ensures forall i :: 0 <= i < Figures.Length ==> r[i] == Figures[i].Position
    {
      seq(Figures.Length, i reads this, Figures, Figures[..] requires 0 <= i < Figures.Length =>
        Figures[i].Position)
    }

    constructor ()
      ensures Valid() && fresh(Figures) && Positions() == InitialPositions
      ensures forall i :: 0 <= i < Figures.Length ==> fresh(Figures[i])
    {
      var a := new Figure(Point(1, 1));
      var b := new Figure(Point(1, 3));
      var c := new Figure(Point(1, 5));
      var d := new Figure(Point(1, 7));
      var figures := new Figure[4] [a, b, c, d];
      assert figures[0] == a && figures[1] == b && figures[2] == c && figures[3] == d;
      assert forall i :: 0 <= i < 4 ==> fresh(figures[i]) && (i > 0 ==> figures[i] != a);
      Figures := figures;
      new;
      assert Positions() == [a.Position, b.Position, c.Position, d.Position];
    }
  }

  class MoveCommand {
    var startPose: Point
    var endPose: Point
    /** The board the command last ran on, kept for Undo. */
    var ctx: BoardContext?

    constructor (startPose: Point, endPose: Point)
      ensures this.startPose == startPose && this.endPose == endPose && ctx == null
    {
      this.startPose := startPose;
      this.endPose := endPose;
      ctx := null;
    }

    /** Puts the first figure at the end pose and remembers the board. */
    method Execute(context: BoardContext)
      requires context.Valid()
      modifies this`ctx, context.Figures[0]
      ensures ctx == context
      ensures context.Figures[0].Position == endPose
      ensures forall i :: 0 < i < context.Figures.Length ==>
        context.Figures[i].Position == old(context.Figures[i].Position)
    {
      context.Figures[0].Position := endPose;
      ctx := context;
    }

    /** Puts the first figure of the remembered board back at the start pose given to the
        constructor, whatever its position was before Execute. */
    method Undo()
      requires ctx != null && ctx.Valid()
      modifies ctx.Figures[0]
      ensures ctx.Figures[0].Position == startPose
      ensures forall i :: 0 < i < ctx.Figures.Length ==>
        ctx.Figures[i].Position == old(ctx.Figures[i].Position)
    {
      ctx.Figures[0].Position := startPose;
    }
  }

  class CommandInvoker {
    /** The history, oldest first: the top of the stack is the last element. */
    var commands: seq<MoveCommand>
    const context: BoardContext

    /** Every command in the history ran on this invoker's board. */
    ghost predicate Valid()
      reads this, context, context.Figures, commands
    {
      context.Valid() && forall c :: c in commands ==> c.ctx == context
    }

    constructor (context: BoardContext)
      requires context.Valid()
      ensures Valid() && this.context == context && commands == []
    {
      this.context := context;
      commands := [];
    }

    /** Pushes the command, then executes it against the board. */
    method RunNext(command: MoveCommand)
      requires Valid()
      modifies this, command`ctx, context.Figures[0]
      ensures Valid()
      ensures commands == old(commands) + [command]
      ensures context.Figures[0].Position == command.endPose
      ensures forall i :: 0 < i < context.Figures.Length ==>
        context.Figures[i].Position == old(context.Figures[i].Position)
    {
      commands := commands + [command];
      command.Execute(context);
    }

    /** Pops the most recent command and undoes it. With an empty history the stack's Pop
        throws; that case comes back as `popped == false` with nothing changed. */
    method Undo() returns (popped: bool)
      requires Valid()
      modifies this, context.Figures[0]
      ensures Valid()
      ensures popped == (old(commands) != [])
      ensures !popped ==> (commands == old(commands) &&
        context.Figures[0].Position == old(context.Figures[0].Position))
      ensures popped ==> (commands == old(commands)[..|old(commands)| - 1] &&
        context.Figures[0].Position == old(commands)[|old(commands)| - 1].startPose)
      ensures forall i :: 0 < i < context.Figures.Length ==>
        context.Figures[i].Position == old(context.Figures[i].Position)
    {
      if commands == [] {
        popped := false;
        return;
      }
      var top := commands[|commands| - 1];
      commands := commands[..|commands| - 1];
      top.Undo();
      popped := true;
    }
  }

  /** The demo run: one move of the first figure from (1,1) to (2,2), then an undo,
      which puts the board back as it started. */
  method Demo() returns (board: BoardContext)
    ensures board.Positions() == InitialPositions
  {
    board := new BoardContext();
    var invoker := new CommandInvoker(board);
    var move := new MoveCommand(Point(1, 1), Point(2, 2));
    invoker.RunNext(move);
    assert board.Positions() == [Point(2, 2), Point(1, 3), Point(1, 5), Point(1, 7)];
    var popped := invoker.Undo();
    assert popped;
  }
}
