/**
 * The snake game of the 404 page (public/js/404-game.js): the direction
 * rules for arrow keys and swipes, the collision test, and the logic half
 * of each drawing step. The page's globals become the fields of a `Game`;
 * the canvas size is fixed when the game is made, and the random food
 * position is a parameter of the calls that place food.
 */
module SnakeGame {

  import opened Util

  /** `box`: the size of a cell in pixels. */
  const BOX := 20

  /** A cell's top-left corner, `{ x, y }`. */
  datatype Point = Point(x: int, y: int)

  /** The direction `d`, when it is set. */
  datatype Dir = Left | Up | Right | Down

  /** The direction a turn may never take from `dir`. */
  function Opposite(dir: Dir): Dir {
    match dir
    case Left => Right
    case Right => Left
    case Up => Down
    case Down => Up
  }

  /** The arrow keys: 37 left, 38 up, 39 right, 40 down. */
  function KeyDir(key: int): Option<Dir> {
    if key == 37 then Some(Left)
    else if key == 38 then Some(Up)
    else if key == 39 then Some(Right)
    else if key == 40 then Some(Down)
    else None
  }

  /** The direction after a key while playing: any arrow starts the game, later no reversal. */
  function TurnByKey(d: Option<Dir>, key: int): Option<Dir> {
    if d.None? then KeyDir(key)
    else if KeyDir(key).Some? && KeyDir(key).value != Opposite(d.value) then KeyDir(key)
    else d
  }

  /**
   * The direction after a swipe of `(dx, dy)`: the longer axis decides, a
   * tie goes to the vertical one; the first swipe always sets a direction,
   * later ones never reverse it.
   */
  function TurnBySwipe(d: Option<Dir>, dx: int, dy: int): Option<Dir> {
    var horizontal := Abs(dx) > Abs(dy);
    if d.None? then
      if horizontal then (if dx > 0 then Some(Right) else Some(Left))
      else (if dy > 0 then Some(Down) else Some(Up))
    else if horizontal then
      if dx > 0 && d.value != Left then Some(Right)
      else if dx < 0 && d.value != Right then Some(Left)
      else d
    else
      if dy > 0 && d.value != Up then Some(Down)
      else if dy < 0 && d.value != Down then Some(Up)
      else d
  }

  function Abs(n: int): int { if n < 0 then -n else n }

  /** The cell one box away in direction `dir`. */
  function Move(p: Point, dir: Dir): Point {
    match dir
    case Left => Point(p.x - BOX, p.y)
    case Up => Point(p.x, p.y - BOX)
    case Right => Point(p.x + BOX, p.y)
    case Down => Point(p.x, p.y + BOX)
  }

  /** Two cells side by side: one box apart along exactly one axis. */
  predicate Adjacent(p: Point, q: Point) {
    (p.x == q.x && Abs(p.y - q.y) == BOX) || (p.y == q.y && Abs(p.x - q.x) == BOX)
  }

  /** A cell on a canvas of `width` by `height`. */
  predicate Inside(p: Point, width: int, height: int) {
    0 <= p.x < width && 0 <= p.y < height
  }

  /** The globals `snake`, `food`, `score`, `d` and `isPlaying`; `food` is unset until the first game. */
  datatype GameState = GameState(snake: seq<Point>, food: Option<Point>, score: int, d: Option<Dir>, isPlaying: bool)

  /** `initGame` with food placed at `newFood`. */
  function Init(s: GameState, newFood: Point): GameState {
    GameState([Point(10 * BOX, 8 * BOX)], Some(newFood), 0, None, s.isPlaying)
  }

  /**
   * The logic of one `draw`: waiting for a direction changes nothing;
   * otherwise the head moves one box, food under it is eaten (score up,
   * new food at `newFood`) or else the tail is dropped, and a head off the
   * canvas or on the remaining body ends the game instead of being added.
   */
  function Step(s: GameState, newFood: Point, width: int, height: int): GameState
    requires s.snake != []
  {
    if s.d.None? then s
    else
      var head := Move(s.snake[0], s.d.value);
      var eats := s.food == Some(head);
      var score := if eats then s.score + 1 else s.score;
      var food := if eats then Some(newFood) else s.food;
      var body := if eats then s.snake else s.snake[..|s.snake| - 1];
      if !Inside(head, width, height) || head in body then GameState(body, food, score, s.d, false)
      else GameState([head] + body, food, score, s.d, s.isPlaying)
  }

  /** `collision(head, array)`: whether some cell of the array is the head's. */
  method Collision(head: Point, cells: seq<Point>) returns (hit: bool)
    ensures hit <==> head in cells
  {
    var i := 0;
    while i < |cells|
      invariant 0 <= i <= |cells|
      invariant forall k :: 0 <= k < i ==> cells[k] != head
    {
      if head.x == cells[i].x && head.y == cells[i].y {
        return true;
      }
      i := i + 1;
    }
    return false;
  }

  class Game {
    const width: int
    const height: int
    var snake: seq<Point>
    var food: Option<Point>
    var score: int
    var d: Option<Dir>
    var isPlaying: bool

    /** The page as loaded: no snake, no food, score 0, no direction, not playing. */
    constructor (width: int, height: int)
      ensures this.width == width && this.height == height
      ensures State() == GameState([], None, 0, None, false)
    {
      this.width := width;
      this.height := height;
      snake := [];
      food := None;
      score := 0;
      d := None;
      isPlaying := false;
    }

    function State(): GameState
      reads this
    {
      GameState(snake, food, score, d, isPlaying)
    }

    /** `initGame()`, with `generateFood` placing the food at `newFood`. */
    method InitGame(newFood: Point)
      modifies this
      ensures State() == Init(old(State()), newFood)
    {
      snake := [Point(10 * BOX, 8 * BOX)];
      food := Some(newFood);
      score := 0;
      d := None;
    }

    /** The `keydown` handler: keys count only while playing. */
    method Direction(key: int)
      modifies this`d
      ensures d == if isPlaying then TurnByKey(old(d), key) else old(d)
    {
      if !isPlaying {
        return;
      }
      if d.None? {
        if key == 37 {
          d := Some(Left);
        } else if key == 38 {
          d := Some(Up);
        } else if key == 39 {
          d := Some(Right);
        } else if key == 40 {
          d := Some(Down);
        }
        return;
      }
      if key == 37 && d != Some(Right) {
        d := Some(Left);
      } else if key == 38 && d != Some(Down) {
        d := Some(Up);
      } else if key == 39 && d != Some(Left) {
        d := Some(Right);
      } else if key == 40 && d != Some(Up) {
        d := Some(Down);
      }
    }

    /** `handleSwipe(sx, sy, ex, ey)`. */
    method HandleSwipe(sx: int, sy: int, ex: int, ey: int)
      modifies this`d
      ensures d == TurnBySwipe(old(d), ex - sx, ey - sy)
    {
      var dx := ex - sx;
      var dy := ey - sy;
      if d.None? {
        if Abs(dx) > Abs(dy) {
          d := if dx > 0 then Some(Right) else Some(Left);
        } else {
          d := if dy > 0 then Some(Down) else Some(Up);
        }
        return;
      }
      if Abs(dx) > Abs(dy) {
        if dx > 0 && d != Some(Left) {
          d := Some(Right);
        } else if dx < 0 && d != Some(Right) {
          d := Some(Left);
        }
      } else {
        if dy > 0 && d != Some(Up) {
          d := Some(Down);
        } else if dy < 0 && d != Some(Down) {
          d := Some(Up);
        }
      }
    }

    /** The `touchend` handler: a swipe counts only while playing. */
    method TouchEnd(sx: int, sy: int, ex: int, ey: int)
      modifies this`d
      ensures d == if isPlaying then TurnBySwipe(old(d), ex - sx, ey - sy) else old(d)
    {
      if !isPlaying {
        return;
      }
      HandleSwipe(sx, sy, ex, ey);
    }

    /** The logic half of `draw()`; `newFood` is where `generateFood` puts food if it is eaten. */
    method Draw(newFood: Point)
      requires snake != []
      modifies this
      ensures State() == Step(old(State()), newFood, width, height)
    {
      if d.None? {
        return;
      }
      ghost var s0 := State();
      var snakeX := snake[0].x;
      var snakeY := snake[0].y;
      if d == Some(Left) {
        snakeX := snakeX - BOX;
      }
      if d == Some(Up) {
        snakeY := snakeY - BOX;
      }
      if d == Some(Right) {
        snakeX := snakeX + BOX;
      }
      if d == Some(Down) {
        snakeY := snakeY + BOX;
      }
      assert Point(snakeX, snakeY) == Move(snake[0], d.value);
      if food.Some? && snakeX == food.value.x && snakeY == food.value.y {
        score := score + 1;
        food := Some(newFood);
      } else {
        snake := snake[..|snake| - 1];
      }
      var newHead := Point(snakeX, snakeY);
      assert snake == if s0.food == Some(newHead) then s0.snake else s0.snake[..|s0.snake| - 1];
      var outside := snakeX < 0 || snakeX >= width || snakeY < 0 || snakeY >= height;
      var hit := false;
      if !outside {
        hit := Collision(newHead, snake);
      }
      if outside || hit {
        isPlaying := false;
        return;
      }
      snake := [newHead] + snake;
    }

    /** `startGame()`: ignored while playing, else starts a fresh game. */
    method StartGame(newFood: Point)
      modifies this
      ensures old(isPlaying) ==> State() == old(State())
      ensures !old(isPlaying) ==> State() == Init(old(State()).(isPlaying := true), newFood)
    {
      if isPlaying {
        return;
      }
      isPlaying := true;
      InitGame(newFood);
    }
  }

  // ===== laws ================================================================

  /**
   * Keys: with no direction yet, each arrow sets its own direction and other
   * keys do nothing; afterwards an arrow turns the snake unless it points
   * back the way it goes, and the new direction is never the reverse of the
   * old one.
   */
  lemma KeyRules(d: Option<Dir>, key: int)
    ensures d.None? ==> TurnByKey(d, key) == KeyDir(key)
    ensures KeyDir(key).None? ==> TurnByKey(d, key) == d
    ensures d.Some? && KeyDir(key).Some? && KeyDir(key).value != Opposite(d.value) ==> TurnByKey(d, key) == KeyDir(key)
    ensures d.Some? ==> TurnByKey(d, key).Some? && TurnByKey(d, key).value != Opposite(d.value)
    ensures KeyDir(key).Some? <==> 37 <= key <= 40
  {
  }

  /**
   * Swipes: the first one always sets a direction, along the longer axis
   * with the swipe's sign; later ones either keep the direction or turn to
   * the swipe's, never to the reverse.
   */
  lemma SwipeRules(d: Option<Dir>, dx: int, dy: int)
    ensures TurnBySwipe(d, dx, dy).Some?
    ensures d.None? && Abs(dx) > Abs(dy) ==> TurnBySwipe(d, dx, dy) == Some(if dx > 0 then Right else Left)
    ensures d.None? && Abs(dx) <= Abs(dy) ==> TurnBySwipe(d, dx, dy) == Some(if dy > 0 then Down else Up)
    ensures d.Some? ==> TurnBySwipe(d, dx, dy).value != Opposite(d.value)
    ensures d.Some? && TurnBySwipe(d, dx, dy) != d ==>
      TurnBySwipe(d, dx, dy).value == (if Abs(dx) > Abs(dy) then (if dx > 0 then Right else Left)
                                        else (if dy > 0 then Down else Up))
    ensures dx == 0 && dy == 0 ==> TurnBySwipe(d, dx, dy) == (if d.None? then Some(Up) else d)
  {
  }

  /** A move goes to a neighbouring cell, and the reverse move comes back. */
  lemma MoveLaws(p: Point, dir: Dir)
    ensures Adjacent(p, Move(p, dir)) && Move(p, dir) != p
    ensures Move(Move(p, dir), Opposite(dir)) == p
    ensures Opposite(Opposite(dir)) == dir && Opposite(dir) != dir
  {
  }

  /**
   * One step: without a direction nothing changes. Otherwise the head moves
   * one box; eating raises the score by one and keeps the tail, not eating
   * keeps the score and drops the tail; the game ends exactly when the new
   * head is off the canvas or on the remaining body, and then no head is
   * added. A surviving step puts the new head in front of the body.
   */
  lemma StepLaws(s: GameState, newFood: Point, width: int, height: int)
    requires s.snake != []
    ensures s.d.None? ==> Step(s, newFood, width, height) == s
    ensures s.d.Some? ==>
      var r := Step(s, newFood, width, height);
      var head := Move(s.snake[0], s.d.value);
      var eats := s.food == Some(head);
      var body := if eats then s.snake else s.snake[..|s.snake| - 1];
      && r.d == s.d
      && r.score == s.score + (if eats then 1 else 0)
      && r.food == (if eats then Some(newFood) else s.food)
      && (r.isPlaying <==> s.isPlaying && Inside(head, width, height) && head !in body)
      && (Inside(head, width, height) && head !in body ==>
            r.snake == [head] + body && |r.snake| == |s.snake| + (if eats then 1 else 0))
      && (!Inside(head, width, height) || head in body ==> r.snake == body)
  {
  }

  /** No cell holds two segments. */
  predicate Distinct(snake: seq<Point>) {
    forall i, j :: 0 <= i < j < |snake| ==> snake[i] != snake[j]
  }

  /** Each segment is next to the one before it. */
  predicate Connected(snake: seq<Point>) {
    forall i :: 0 <= i < |snake| - 1 ==> Adjacent(snake[i], snake[i + 1])
  }

  /** Every segment is on the canvas. */
  predicate AllInside(snake: seq<Point>, width: int, height: int) {
    forall i :: 0 <= i < |snake| ==> Inside(snake[i], width, height)
  }

  /**
   * The shape of a game in progress: a snake of one segment per point
   * scored plus the head, on the canvas, connected and never overlapping.
   */
  predicate WellFormed(s: GameState, width: int, height: int) {
    && s.snake != []
    && |s.snake| == s.score + 1
    && AllInside(s.snake, width, height)
    && Connected(s.snake)
    && Distinct(s.snake)
  }

  /** A fresh game on a canvas wider than 200 and taller than 160 pixels is well formed. */
  lemma InitIsWellFormed(s: GameState, newFood: Point, width: int, height: int)
    requires width > 10 * BOX && height > 8 * BOX
    ensures WellFormed(Init(s, newFood), width, height)
  {
  }

  /** A prefix of a snake keeps its shape properties. */
  lemma PrefixKeepsShape(snake: seq<Point>, n: nat, width: int, height: int)
    requires n <= |snake|
    requires AllInside(snake, width, height) && Connected(snake) && Distinct(snake)
    ensures AllInside(snake[..n], width, height) && Connected(snake[..n]) && Distinct(snake[..n])
  {
    var p := snake[..n];
    assert forall k :: 0 <= k < |p| ==> p[k] == snake[k];
  }

  /** A new head next to the body, on the canvas and off the body keeps the shape properties. */
  lemma ConsKeepsShape(head: Point, body: seq<Point>, width: int, height: int)
    requires body != [] && Adjacent(head, body[0])
    requires Inside(head, width, height) && head !in body
    requires AllInside(body, width, height) && Connected(body) && Distinct(body)
    ensures AllInside([head] + body, width, height) && Connected([head] + body) && Distinct([head] + body)
  {
    var c := [head] + body;
    assert forall k :: 1 <= k < |c| ==> c[k] == body[k - 1];
    forall i, j | 0 <= i < j < |c| ensures c[i] != c[j] {
      if i == 0 {
        assert c[j] in body;
      }
    }
  }

  /**
   * A step of a well-formed game in progress that does not end it leaves the
   * game well formed; a step that ends it leaves one segment per point scored
   * (the tail has gone, or the food at the fatal cell was counted).
   */
  lemma StepKeepsShape(s: GameState, newFood: Point, width: int, height: int)
    requires WellFormed(s, width, height) && s.isPlaying
    ensures var r := Step(s, newFood, width, height);
      (r.isPlaying ==> WellFormed(r, width, height))
      && (!r.isPlaying ==> |r.snake| == r.score)
  {
    if s.d.Some? {
      var head := Move(s.snake[0], s.d.value);
      var eats := s.food == Some(head);
      var n := if eats then |s.snake| else |s.snake| - 1;
      var body := s.snake[..n];
      assert eats ==> body == s.snake;
      PrefixKeepsShape(s.snake, n, width, height);
      var r := Step(s, newFood, width, height);
      if Inside(head, width, height) && head !in body {
        MoveLaws(s.snake[0], s.d.value);
        if body == [] {
          assert r.snake == [head];
        } else {
          assert body[0] == s.snake[0];
          assert Adjacent(head, body[0]) by {
            assert Adjacent(s.snake[0], head);
          }
          ConsKeepsShape(head, body, width, height);
        }
      }
    }
  }
}
