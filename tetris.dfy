/**
 * The falling-block demo built on the WebGame loop: a 20 by 10 grid of shape
 * indices (0 is an empty cell), a single-cell piece that falls down column 5
 * and freezes where it lands, and the play and title controllers that drive
 * it. `Math.random()` is the `draw` parameter, a real in [0, 1).
 */
module Tetris {
  import WebGame

  const MapWidth := 10
  const MapHeight := 20

  /** The number of entries of the shape table: the empty shape 0 and the seven pieces I, J, L, O, S, T and Z. */
  const ShapeCount := 8

  /** Where a new current piece appears, and where the next piece waits. */
  const SpawnX := 5
  const SpawnY := 1
  const PreviewX := 8
  const PreviewY := 1

  /** The shape index a random draw picks: one of the seven pieces, never the empty shape. */
  function ShapeIndex(draw: real): (s: int)
    requires 0.0 <= draw < 1.0
    ensures 1 <= s < ShapeCount
  {
    1 + (draw * (ShapeCount - 1) as real).Floor
  }

  /** Each piece is picked by a slice of width 1/7 of the draw's range, so all seven are equally likely. */
  lemma ShapeIndexSlices(draw: real, k: int)
    requires 0.0 <= draw < 1.0 && 1 <= k < ShapeCount
    ensures ShapeIndex(draw) == k <==> (k - 1) as real / 7.0 <= draw < k as real / 7.0
  {
  }

  class Tetromino {
    var x: int
    var y: int
    var shapeIndex: int

    constructor (x: int, y: int, shapeIndex: int)
      ensures this.x == x && this.y == y && this.shapeIndex == shapeIndex
    {
      this.x, this.y, this.shapeIndex := x, y, shapeIndex;
    }

    /** A new piece at (x, y) with a randomly drawn shape. */
    static method Random(x: int, y: int, draw: real) returns (t: Tetromino)
      requires 0.0 <= draw < 1.0
      ensures fresh(t)
      ensures t.x == x && t.y == y && t.shapeIndex == ShapeIndex(draw)
      ensures 1 <= t.shapeIndex < ShapeCount
    {
      t := new Tetromino(x, y, ShapeIndex(draw));
    }

    /** Moves one row down. */
    method Fall()
      modifies this`y
      ensures y == old(y) + 1
    {
      y := y + 1;
    }

    /** The piece rests on the floor or on an occupied cell. The floor test comes
        first, so the row below is only read when it exists. */
    predicate Collision(grid: array2<int>): (landed: bool)
      requires grid.Length0 == MapHeight && 0 <= x < grid.Length1 && 0 <= y
      reads this, grid
      ensures y + 1 >= grid.Length0 ==> landed
      ensures y + 1 < grid.Length0 && grid[y + 1, x] > 0 ==> landed
      ensures !landed ==> y + 1 < grid.Length0 && grid[y + 1, x] <= 0
    {
      y + 1 >= MapHeight || grid[y + 1, x] > 0
    }

    /** Writes the piece's shape index into its cell, and nowhere else. */
    method Freeze(grid: array2<int>)
      requires 0 <= y < grid.Length0 && 0 <= x < grid.Length1
      modifies grid
      ensures grid[y, x] == shapeIndex
      ensures forall r, c :: 0 <= r < grid.Length0 && 0 <= c < grid.Length1 && (r != y || c != x) ==>
        grid[r, c] == old(grid[r, c])
    {
      grid[y, x] := shapeIndex;
    }
  }

  /** The callbacks each screen offers the loop: the title screen has no update. */
  const TitleCapabilities := WebGame.Controller({WebGame.WakeUp, WebGame.KeyEvent, WebGame.Draw})
  const PlayCapabilities := WebGame.Controller({WebGame.WakeUp, WebGame.KeyEvent, WebGame.Draw, WebGame.Update})

  /** The title screen's wakeUp: one frame per second. */
  method TitleWakeUp(game: WebGame.WebGame, now: int)
    requires game.Valid()
    modifies game`frameDelay, game`running, game`frameTime
    ensures game.Valid() && game.frameDelay == 1000.0 && game.running == old(game.running)
    ensures game.frameTime == if old(game.running) then now else old(game.frameTime)
  {
    game.SetFrameRate(1.0, now);
  }

  /**
   * The title screen's key handler: enter, pressed or released, starts a new
   * game with a fresh play controller, which is woken up at once.
   */
  method TitleKeyEvent(game: WebGame.WebGame, key: int, now: int, draw1: real, draw2: real)
    returns (play: PlayController?)
    requires game.Valid()
    requires 0.0 <= draw1 < 1.0 && 0.0 <= draw2 < 1.0
    modifies game`controller, game`frameDelay, game`updateDelay, game`running, game`frameTime
    ensures game.Valid()
    ensures key != WebGame.Keys["enter"] ==> play == null && unchanged(game)
    ensures key == WebGame.Keys["enter"] ==>
      && play != null && fresh(play) && play.Valid() && play.Fresh()
      && game.controller == WebGame.Some(PlayCapabilities)
      && game.frameDelay == 50.0 && game.updateDelay == 50.0
      && game.running == old(game.running)
      && game.frameTime == if old(game.running) then now else old(game.frameTime)
  {
    play := null;
    if key == WebGame.Keys["enter"] {
      play := new PlayController(draw1, draw2);
      var wokeUp := game.SetController(WebGame.Some(PlayCapabilities));
      if wokeUp {
        play.WakeUp(game, now);
      }
    }
  }

  class PlayController {
    var paused: bool
    var score: int
    var gameOver: bool
    var difficulty: int
    var grid: array2<int>
    var tetromino: Tetromino
    var nextTetromino: Tetromino

    /**
     * The grid is 20 by 10 and holds shape indices; the current piece is in
     * the grid with a row below it and has a piece shape; the next piece is
     * a different object, waiting at the preview position.
     */
    ghost predicate Valid()
      reads this, grid, tetromino, nextTetromino
    {
      && grid.Length0 == MapHeight && grid.Length1 == MapWidth
      && tetromino != nextTetromino
      && 0 <= tetromino.x < MapWidth && 1 <= tetromino.y && tetromino.y + 1 < MapHeight
      && 1 <= tetromino.shapeIndex < ShapeCount
      && nextTetromino.x == PreviewX && nextTetromino.y == PreviewY
      && 1 <= nextTetromino.shapeIndex < ShapeCount
      && forall r, c :: 0 <= r < MapHeight && 0 <= c < MapWidth ==> 0 <= grid[r, c] < ShapeCount
    }

    /** The state `Init` leaves: nothing on the grid, the pieces at their start positions, not paused. */
    ghost predicate Fresh()
      reads this, grid, tetromino, nextTetromino
    {
      && !paused && score == 0 && !gameOver && difficulty == 3
      && grid.Length0 == MapHeight && grid.Length1 == MapWidth
      && (forall r, c :: 0 <= r < MapHeight && 0 <= c < MapWidth ==> grid[r, c] == 0)
      && tetromino.x == SpawnX && tetromino.y == SpawnY
    }

    constructor (draw1: real, draw2: real)
      requires 0.0 <= draw1 < 1.0 && 0.0 <= draw2 < 1.0
      ensures Valid() && Fresh()
      ensures fresh(grid) && fresh(tetromino) && fresh(nextTetromino)
      ensures tetromino.shapeIndex == ShapeIndex(draw1) && nextTetromino.shapeIndex == ShapeIndex(draw2)
    {
      grid := new int[0, 0];
      tetromino := new Tetromino(0, 0, 0);
      nextTetromino := tetromino;
      new;
      Init(draw1, draw2);
    }

    /** Starts a game: an empty grid, a random current piece at (5, 1) and a random next piece at (8, 1). */
    method Init(draw1: real, draw2: real)
      requires 0.0 <= draw1 < 1.0 && 0.0 <= draw2 < 1.0
      modifies this
      ensures Valid() && Fresh()
      ensures fresh(grid) && fresh(tetromino) && fresh(nextTetromino)
      ensures tetromino.shapeIndex == ShapeIndex(draw1) && nextTetromino.shapeIndex == ShapeIndex(draw2)
    {
      var cells := new int[MapHeight, MapWidth];
      for i := 0 to MapHeight
        invariant forall r, c :: 0 <= r < i && 0 <= c < MapWidth ==> cells[r, c] == 0
      {
        for j := 0 to MapWidth
          invariant forall r, c :: 0 <= r < i && 0 <= c < MapWidth ==> cells[r, c] == 0
          invariant forall c :: 0 <= c < j ==> cells[i, c] == 0
        {
          cells[i, j] := 0;
        }
      }
      paused, score, gameOver, difficulty := false, 0, false, 3;
      grid := cells;
      tetromino := Tetromino.Random(SpawnX, SpawnY, draw1);
      nextTetromino := Tetromino.Random(PreviewX, PreviewY, draw2);
    }

    /** The play screen's wakeUp: 20 frames and 20 updates per second. */
    method WakeUp(game: WebGame.WebGame, now: int)
      requires game.Valid()
      modifies game`frameDelay, game`updateDelay, game`running, game`frameTime
      ensures game.Valid() && game.frameDelay == 50.0 && game.updateDelay == 50.0
      ensures game.running == old(game.running)
      ensures game.frameTime == if old(game.running) then now else old(game.frameTime)
    {
      game.SetFrameRate(20.0, now);
      game.SetUpdateRate(20.0);
    }

    /**
     * The play screen's key handler; releases are ignored. q goes back to the
     * title screen. p pauses the game by stopping the loop, or resumes it by
     * running the loop again.
     */
    method KeyEvent(game: WebGame.WebGame, key: int, pressed: bool, now: int)
      requires game.Valid()
      modifies this`paused, game`controller, game`frameDelay, game`running, game`frameTime
      ensures game.Valid()
      ensures !pressed || (key != WebGame.Keys["q"] && key != WebGame.Keys["p"]) ==>
        paused == old(paused) && unchanged(game)
      ensures pressed && key == WebGame.Keys["q"] ==>
        && paused == old(paused)
        && game.controller == WebGame.Some(TitleCapabilities)
        && game.frameDelay == 1000.0 && game.running == old(game.running)
        && game.frameTime == if old(game.running) then now else old(game.frameTime)
      ensures pressed && key == WebGame.Keys["p"] ==>
        && paused == !old(paused)
        && game.running == old(paused)
        && game.controller == old(game.controller) && game.frameDelay == old(game.frameDelay)
        && game.frameTime == if old(paused) && !old(game.running) then now else old(game.frameTime)
    {
      if pressed {
        if key == WebGame.Keys["q"] {
          var wokeUp := game.SetController(WebGame.Some(TitleCapabilities));
          if wokeUp {
            TitleWakeUp(game, now);
          }
        } else if key == WebGame.Keys["p"] {
          if paused {
            paused := false;
            game.Run(now);
          } else {
            paused := true;
            game.Stop();
          }
        }
      }
    }

    /**
     * One update step, called by the loop with the loop's update count still
     * at the value before this step. On an even count the piece falls one
     * row. If it then rests on the floor or on a filled cell, it freezes into
     * the grid, the next piece becomes the current one at (5, 1), a new next
     * piece is drawn, and the loop is stopped when cell (1, 5) is filled.
     */
    method Update(game: WebGame.WebGame, draw: real)
      requires Valid() && 0.0 <= draw < 1.0
      modifies this, tetromino, nextTetromino, grid, game`running
      ensures Valid()
      ensures grid == old(grid)
      ensures paused == old(paused) && score == old(score) && gameOver == old(gameOver) && difficulty == old(difficulty)
      ensures var x0 := old(tetromino.x);
              var y1 := old(tetromino.y) + (if game.updates % 2 == 0 then 1 else 0);
              var landed := y1 + 1 >= MapHeight || old(grid[y1 + 1, x0]) > 0;
              && (forall r, c :: 0 <= r < MapHeight && 0 <= c < MapWidth && (!landed || r != y1 || c != x0) ==>
                    grid[r, c] == old(grid[r, c]))
              && (!landed ==>
                    && tetromino == old(tetromino) && nextTetromino == old(nextTetromino)
                    && tetromino.x == x0 && tetromino.y == y1 && tetromino.shapeIndex == old(tetromino.shapeIndex)
                    && nextTetromino.x == old(nextTetromino.x) && nextTetromino.y == old(nextTetromino.y)
                    && nextTetromino.shapeIndex == old(nextTetromino.shapeIndex)
                    && game.running == old(game.running))
              && (landed ==>
                    && grid[y1, x0] == old(tetromino.shapeIndex)
                    && tetromino == old(nextTetromino) && tetromino.shapeIndex == old(nextTetromino.shapeIndex)
                    && tetromino.x == SpawnX && tetromino.y == SpawnY
                    && fresh(nextTetromino) && nextTetromino.shapeIndex == ShapeIndex(draw)
                    && game.running == (old(game.running) && grid[SpawnY, SpawnX] == 0))
    {
      if game.updates % 2 == 0 {
        tetromino.Fall();
      }
      if tetromino.Collision(grid) {
        tetromino.Freeze(grid);
        tetromino := nextTetromino;
        tetromino.x := SpawnX;
        tetromino.y := SpawnY;
        nextTetromino := Tetromino.Random(PreviewX, PreviewY, draw);
        if grid[SpawnY, SpawnX] > 0 {
          game.Stop();
        }
      }
    }
  }
}
