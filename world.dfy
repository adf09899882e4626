/** The simulation core of game.js: actors (class Actor and its subclasses) and the level
    that owns the grid and the actor list (class Level). Both live in one module because
    each uses the other: an actor's `act` queries the level's obstacles and the level's
    `actorAt` asks its actors for intersections. */
module World {
  import opened Options
  import opened Vectors
  import opened Grid
  import JsArray

  /** The strings returned by the `type` getters. */
  datatype TypeName = ActorType | PlayerType | CoinType | FireballType

  /** What a parser dictionary maps a symbol to: one of the actor classes of game.js, or
      `NonActor`, a value whose `new` throws or produces something that is not an Actor
      (either way the cell yields no actor). */
  datatype Kind =
    | ActorClass
    | PlayerClass
    | CoinClass
    | FireballClass
    | HorizontalFireballClass
    | VerticalFireballClass
    | FireRainClass
    | NonActor
  {
    predicate IsFireball() {
      FireballClass? || HorizontalFireballClass? || VerticalFireballClass? || FireRainClass?
    }

    /** The `type` getter of each class. The four fireball classes share one tag, so the
        tag tells a player and a coin apart from everything else, and any fireball from
        everything else, but not one fireball class from another. */
    function Type(): (t: TypeName)
      requires !NonActor?
      ensures t == PlayerType <==> PlayerClass?
      ensures t == CoinType <==> CoinClass?
      ensures t == FireballType <==> IsFireball()
      ensures t == ActorType <==> ActorClass?
    {
      match this
      case PlayerClass => PlayerType
      case CoinClass => CoinType
      case ActorClass => ActorType
      case _ => FireballType
    }

    /** Where `new K(cell)` puts the actor. */
    function InitialPos(cell: Vector): Vector
      requires !NonActor?
    {
      match this
      case PlayerClass => cell.Plus(Vector(0.0, -0.5))
      case CoinClass => cell.Plus(Vector(0.2, 0.1))
      case _ => cell
    }

    /** The size `new K(cell)` gives the actor. */
    function InitialSize(): Vector
      requires !NonActor?
    {
      match this
      case PlayerClass => Vector(0.8, 1.5)
      case CoinClass => Vector(0.6, 0.6)
      case _ => Vector(1.0, 1.0)
    }

    /** The speed `new K(cell)` gives the actor. */
    function InitialSpeed(): Vector
      requires !NonActor?
    {
      match this
      case HorizontalFireballClass => Vector(2.0, 0.0)
      case VerticalFireballClass => Vector(0.0, 2.0)
      case FireRainClass => Vector(0.0, 3.0)
      case _ => Zero
    }
  }

  type ActorKind = k: Kind | !k.NonActor? witness ActorClass

  /** `status`: `null` while the level is undecided, then `'won'` or `'lost'`. */
  datatype Status = Undecided | Won | Lost

  /** The first argument of `playerTouched`: an obstacle tag or an actor's type. */
  datatype Touch = TouchObstacle(obstacle: Obstacle) | TouchActor(typeName: TypeName) {
    predicate Lethal() {
      this == TouchObstacle(Lava) || this == TouchActor(FireballType)
    }
  }

  class Actor {
    /** The class the actor was built from (its `type` is `kind.Type()`). */
    const kind: ActorKind
    /** FireRain's spawn position, `this.start`; no other class has one. */
    const start: Option<Vector>
    var pos: Vector
    var size: Vector
    var speed: Vector

    predicate Valid() {
      kind.FireRainClass? <==> start.Some?
    }

    /** `new Actor(pos, size, speed)`. */
    constructor (pos: Vector, size: Vector, speed: Vector)
      ensures Valid() && kind == ActorClass
      ensures this.pos == pos && this.size == size && this.speed == speed
    {
      kind := ActorClass;
      start := None;
      this.pos, this.size, this.speed := pos, size, speed;
    }

    /** `new Fireball(pos, speed)`: the size is forced to (1, 1). */
    constructor Fireball(pos: Vector, speed: Vector)
      ensures Valid() && kind == FireballClass
      ensures this.pos == pos && size == Vector(1.0, 1.0) && this.speed == speed
    {
      kind := FireballClass;
      start := None;
      this.pos, size, this.speed := pos, Vector(1.0, 1.0), speed;
    }

    constructor HorizontalFireball(pos: Vector)
      ensures Valid() && kind == HorizontalFireballClass
      ensures this.pos == pos && size == Vector(1.0, 1.0) && speed == Vector(2.0, 0.0)
    {
      kind := HorizontalFireballClass;
      start := None;
      this.pos, size, speed := pos, Vector(1.0, 1.0), Vector(2.0, 0.0);
    }

    constructor VerticalFireball(pos: Vector)
      ensures Valid() && kind == VerticalFireballClass
      ensures this.pos == pos && size == Vector(1.0, 1.0) && speed == Vector(0.0, 2.0)
    {
      kind := VerticalFireballClass;
      start := None;
      this.pos, size, speed := pos, Vector(1.0, 1.0), Vector(0.0, 2.0);
    }

    /** `new FireRain(pos)`: remembers `pos` as its start and falls at speed 3. */
    constructor FireRain(pos: Vector)
      ensures Valid() && kind == FireRainClass && start == Some(pos)
      ensures this.pos == pos && size == Vector(1.0, 1.0) && speed == Vector(0.0, 3.0)
    {
      kind := FireRainClass;
      start := Some(pos);
      this.pos, size, speed := pos, Vector(1.0, 1.0), Vector(0.0, 3.0);
    }

    /** `new Coin(pos)`: shifted by (0.2, 0.1) into its cell, size (0.6, 0.6), no speed. */
    constructor Coin(pos: Vector)
      ensures Valid() && kind == CoinClass
      ensures this.pos == pos.Plus(Vector(0.2, 0.1)) && size == Vector(0.6, 0.6) && speed == Zero
    {
      kind := CoinClass;
      start := None;
      this.pos, size, speed := pos.Plus(Vector(0.2, 0.1)), Vector(0.6, 0.6), Zero;
    }

    /** `new Player(pos)`: raised by 0.5, size (0.8, 1.5), standing still. */
    constructor Player(pos: Vector)
      ensures Valid() && kind == PlayerClass
      ensures this.pos == pos.Plus(Vector(0.0, -0.5)) && size == Vector(0.8, 1.5) && speed == Zero
    {
      kind := PlayerClass;
      start := None;
      this.pos, size, speed := pos.Plus(Vector(0.0, -0.5)), Vector(0.8, 1.5), Zero;
    }

    function Left(): real reads this { pos.x }
    function Top(): real reads this { pos.y }
    function Right(): real reads this { pos.x + size.x }
    function Bottom(): real reads this { pos.y + size.y }

    /** The point `p` lies strictly inside this actor's box. */
    predicate Inside(p: Vector)
      reads this
    {
      Left() < p.x < Right() && Top() < p.y < Bottom()
    }

    /** `isIntersect`: the guards of game.js:50-58 in their order. */
    predicate IsIntersect(other: Actor)
      reads this, other
    {
      if other == this then false
      else if other.Right() <= Left() then false
      else if other.Left() >= Right() then false
      else if other.Bottom() <= Top() then false
      else if other.Top() >= Bottom() then false
      else if other.size.x < 0.0 || other.size.y < 0.0 then false
      else true
    }

    /** `getNextPosition(time)`: where the actor would be after `time` at its speed. */
    function NextPosition(time: real): Vector
      reads this
    {
      pos.Plus(speed.Times(time))
    }

    /** `handleObstacle`: a Fireball turns back; a FireRain returns to its start and keeps
        falling. */
    method HandleObstacle()
      requires Valid() && kind.IsFireball()
      modifies this`pos, this`speed
      ensures kind.FireRainClass? ==> pos == start.value && speed == old(speed)
      ensures !kind.FireRainClass? ==> pos == old(pos) && speed == old(speed).Times(-1.0)
    {
      if kind.FireRainClass? {
        pos := start.value;
      } else {
        speed := speed.Times(-1.0);
      }
    }

    /** `act(time, level)`: a no-op for the base class and Player; a fireball of any class
        detects first and resolves after, moving only when the next position is clear. */
    method Act(time: real, level: Level)
      requires Valid() && !kind.CoinClass?
      modifies this`pos, this`speed
      ensures !kind.IsFireball() ==> pos == old(pos) && speed == old(speed)
      ensures kind.IsFireball() ==>
        var next := old(pos).Plus(old(speed).Times(time));
        if level.ObstacleFor(next, size).None? then
          pos == next && speed == old(speed)
        else if kind.FireRainClass? then
          pos == start.value && speed == old(speed)
        else
          pos == old(pos) && speed == old(speed).Times(-1.0)
    {
      if kind.IsFireball() {
        var next := NextPosition(time);
        var obstacle := level.ObstacleAt(next, size);
        if obstacle.Some? {
          HandleObstacle();
        } else {
          pos := next;
        }
      }
    }
  }

  /** The first actor in list order whose type is `t` (`actors.find`). */
  function FirstOfType(actors: seq<Actor>, t: TypeName): (r: Option<Actor>)
    ensures r.None? <==> NoneOfType(actors, t)
    ensures r.Some? ==> exists i :: 0 <= i < |actors| && actors[i] == r.value && r.value.kind.Type() == t
                                   && NoneOfType(actors[..i], t)
  {
    if |actors| == 0 then None
    else if actors[0].kind.Type() == t then
      assert NoneOfType(actors[..0], t);
      Some(actors[0])
    else
      var r := FirstOfType(actors[1..], t);
      assert r.Some? ==> exists i :: 0 < i < |actors| && actors[i] == r.value && r.value.kind.Type() == t
                                   && NoneOfType(actors[..i], t) by {
        if r.Some? {
          var i :| 0 <= i < |actors[1..]| && actors[1..][i] == r.value && NoneOfType(actors[1..][..i], t);
          assert actors[..i + 1] == [actors[0]] + actors[1..][..i];
        }
      }
      r
  }

  /** The actor list after `splice(indexOf(actor), 1)`. */
  function Without(actors: seq<Actor>, actor: Actor): seq<Actor> {
    JsArray.Splice(actors, JsArray.IndexOf(actors, actor), 1)
  }

  /** No actor in the list has type `t`. */
  predicate NoneOfType(actors: seq<Actor>, t: TypeName) {
    forall i :: 0 <= i < |actors| ==> actors[i].kind.Type() != t
  }

  class Level {
    const grid: seq<seq<Cell>>
    /** `height`: the number of rows, fixed at construction. */
    const height: nat := |grid|
    var actors: seq<Actor>
    var status: Status
    var finishDelay: real

    /** `new Level(grid, actors)`: copies both lists; undecided, with one tick of delay. */
    constructor (grid: seq<seq<Cell>>, actors: seq<Actor>)
      ensures this.grid == grid && this.actors == actors && height == |grid|
      ensures status == Undecided && finishDelay == 1.0
      ensures !IsFinished()
    {
      this.grid := grid;
      this.actors := actors;
      status := Undecided;
      finishDelay := 1.0;
    }

    /** `width`: the length of the longest row, 0 for a grid without rows. */
    function Width(): (w: nat)
      ensures height == 0 ==> w == 0
      ensures forall k :: 0 <= k < height ==> |grid[k]| <= w
      ensures height > 0 ==> exists k :: 0 <= k < height && |grid[k]| == w
    {
      if height > 0 then |Longest(grid)| else 0
    }

    /** `player`: the first actor whose type is `'player'`. */
    function Player(): Option<Actor>
      reads this
    {
      FirstOfType(actors, PlayerType)
    }

    /** `isFinished`: decided, and the external driver has run the delay below zero. */
    predicate IsFinished()
      reads this
    {
      status != Undecided && finishDelay < 0.0
    }

    /** `actorAt(obj)`: the first actor in list order that intersects `obj`. */
    method ActorAt(obj: Actor) returns (r: Option<Actor>)
      ensures r.None? <==> forall i :: 0 <= i < |actors| ==> !actors[i].IsIntersect(obj)
      ensures r.Some? ==> exists i :: 0 <= i < |actors| && actors[i] == r.value && actors[i].IsIntersect(obj)
                                     && forall j :: 0 <= j < i ==> !actors[j].IsIntersect(obj)
    {
      for i := 0 to |actors|
        invariant forall j :: 0 <= j < i ==> !actors[j].IsIntersect(obj)
      {
        if actors[i].IsIntersect(obj) {
          return Some(actors[i]);
        }
      }
      return None;
    }

    /** What `obstacleAt(pos, size)` answers: the left, right and top borders are walls,
        the bottom border is lava, checked in that order; inside the borders, the first
        obstacle of the whole grid in row-major order. */
    function ObstacleFor(pos: Vector, size: Vector): Cell {
      if pos.x < 0.0 then Some(Wall)
      else if pos.Plus(size).x > Width() as real then Some(Wall)
      else if pos.y < 0.0 then Some(Wall)
      else if pos.Plus(size).y > height as real then Some(Lava)
      else FirstObstacle(grid)
    }

    /** `obstacleAt(pos, size)`, with its early-return scan of the grid. */
    method ObstacleAt(pos: Vector, size: Vector) returns (r: Cell)
      ensures r == ObstacleFor(pos, size)
    {
      if pos.x < 0.0 {
        return Some(Wall);
      }
      if pos.Plus(size).x > Width() as real {
        return Some(Wall);
      }
      if pos.y < 0.0 {
        return Some(Wall);
      }
      if pos.Plus(size).y > height as real {
        return Some(Lava);
      }
      for i := 0 to |grid|
        invariant AllEmpty(grid[..i])
      {
        var row := grid[i];
        for j := 0 to |row|
          invariant forall c :: 0 <= c < j ==> row[c].None?
        {
          if row[j].Some? {
            FirstObstacleIsFirst(grid, i, j);
            return row[j];
          }
        }
        assert grid[..i + 1] == grid[..i] + [row];
      }
      assert grid[..|grid|] == grid;
      FirstObstacleNone(grid);
      return None;
    }

    /** `removeActor(actor)`: `splice(indexOf(actor), 1)`. A present actor loses its first
        occurrence; for an absent one `indexOf` is -1 and the last actor goes. */
    method RemoveActor(actor: Actor)
      modifies this`actors
      ensures actors == Without(old(actors), actor)
      ensures actor in old(actors) ==>
        var i := JsArray.IndexOf(old(actors), actor);
        old(actors)[i] == actor && actor !in old(actors)[..i] && actors == old(actors)[..i] + old(actors)[i + 1..]
      ensures actor !in old(actors) && |old(actors)| > 0 ==> actors == old(actors)[..|old(actors)| - 1]
    {
      if actor in actors {
        JsArray.SpliceOutPresent(actors, actor);
      } else {
        JsArray.SpliceOutAbsent(actors, actor);
      }
      actors := Without(actors, actor);
    }

    /** `noMoreActors(t)`: no actor of type `t` is left (trivially so when none is left). */
    method NoMoreActors(t: TypeName) returns (r: bool)
      ensures |actors| == 0 ==> r
      ensures r <==> NoneOfType(actors, t)
    {
      if |actors| == 0 {
        return true;
      }
      for i := 0 to |actors|
        invariant NoneOfType(actors[..i], t)
      {
        if actors[i].kind.Type() == t {
          return false;
        }
        assert actors[..i + 1] == actors[..i] + [actors[i]];
      }
      assert actors[..|actors|] == actors;
      return true;
    }

    /** `playerTouched(type, actor)`: lava or a fireball loses the level, whatever the status
        was; touching a coin removes it and wins once no coin is left. */
    method PlayerTouched(touch: Touch, actor: Option<Actor>)
      modifies this`actors, this`status
      ensures touch.Lethal() ==> status == Lost && actors == old(actors)
      ensures touch == TouchActor(CoinType) && actor.Some? ==>
        && actors == Without(old(actors), actor.value)
        && status == (if NoneOfType(actors, CoinType) then Won else old(status))
      ensures !touch.Lethal() && !(touch == TouchActor(CoinType) && actor.Some?) ==>
        actors == old(actors) && status == old(status)
    {
      if touch.Lethal() {
        status := Lost;
      }
      if touch == TouchActor(CoinType) && actor.Some? {
        RemoveActor(actor.value);
        var none := NoMoreActors(CoinType);
        if none {
          status := Won;
        }
      }
    }
  }
  /** The exclusions of `isIntersect`: an actor never meets itself, boxes that only share
      an edge do not meet, and an actor of negative size is never met. */
  lemma IntersectExclusions(a: Actor, b: Actor)
    ensures !a.IsIntersect(a)
    ensures b.Left() == a.Right() || b.Right() == a.Left() || b.Top() == a.Bottom() || b.Bottom() == a.Top()
      ==> !a.IsIntersect(b)
    ensures b.size.x < 0.0 || b.size.y < 0.0 ==> !a.IsIntersect(b)
  {
  }

  /** For boxes of positive size, `isIntersect` is the usual overlap of open rectangles:
      two distinct actors intersect exactly when some point lies strictly inside both. */
  lemma IntersectIffSharedPoint(a: Actor, b: Actor)
    requires a.size.x > 0.0 && a.size.y > 0.0 && b.size.x > 0.0 && b.size.y > 0.0
    ensures a.IsIntersect(b) <==> a != b && exists p :: a.Inside(p) && b.Inside(p)
  {
    if a != b && a.IsIntersect(b) {
      var left := if a.Left() < b.Left() then b.Left() else a.Left();
      var right := if a.Right() < b.Right() then a.Right() else b.Right();
      var top := if a.Top() < b.Top() then b.Top() else a.Top();
      var bottom := if a.Bottom() < b.Bottom() then a.Bottom() else b.Bottom();
      var p := Vector((left + right) / 2.0, (top + bottom) / 2.0);
      assert a.Inside(p) && b.Inside(p);
    }
  }

  /** Between actors whose sizes are not negative, `isIntersect` does not depend on which
      of the two asks. */
  lemma IntersectSymmetric(a: Actor, b: Actor)
    requires a.size.x >= 0.0 && a.size.y >= 0.0 && b.size.x >= 0.0 && b.size.y >= 0.0
    ensures a.IsIntersect(b) == b.IsIntersect(a)
  {
  }

  /** The borders take precedence over the grid: left, right and top borders are walls,
      below the bottom is lava; inside the borders the answer is empty exactly when the
      grid holds no obstacle at all. */
  lemma ObstaclePrecedence(level: Level, pos: Vector, size: Vector)
    ensures pos.x < 0.0 || pos.x + size.x > level.Width() as real || pos.y < 0.0
      ==> level.ObstacleFor(pos, size) == Some(Wall)
    ensures 0.0 <= pos.x && pos.x + size.x <= level.Width() as real && 0.0 <= pos.y
            && pos.y + size.y > level.height as real
      ==> level.ObstacleFor(pos, size) == Some(Lava)
    ensures 0.0 <= pos.x && pos.x + size.x <= level.Width() as real && 0.0 <= pos.y
            && pos.y + size.y <= level.height as real
      ==> (level.ObstacleFor(pos, size).None? <==> AllEmpty(level.grid))
  {
    FirstObstacleNone(level.grid);
  }

  /** Inside the borders the answer does not depend on the rectangle at all: the scan
      looks at the whole grid, not at the cells under the rectangle. */
  lemma ObstacleIgnoresPosition(level: Level, pos1: Vector, size1: Vector, pos2: Vector, size2: Vector)
    requires 0.0 <= pos1.x && pos1.x + size1.x <= level.Width() as real
    requires 0.0 <= pos1.y && pos1.y + size1.y <= level.height as real
    requires 0.0 <= pos2.x && pos2.x + size2.x <= level.Width() as real
    requires 0.0 <= pos2.y && pos2.y + size2.y <= level.height as real
    ensures level.ObstacleFor(pos1, size1) == level.ObstacleFor(pos2, size2) == FirstObstacle(level.grid)
  {
  }

  /** One row, a wall then an empty cell. The last rectangle covers only the empty cell
      and still meets the wall. */
  lemma OneRowExample(level: Level)
    requires level.grid == [[Some(Wall), None]]
    ensures level.ObstacleFor(Vector(-0.5, 0.0), Vector(1.0, 1.0)) == Some(Wall)
    ensures level.ObstacleFor(Vector(0.0, 1.5), Vector(1.0, 1.0)) == Some(Lava)
    ensures level.ObstacleFor(Vector(0.5, 0.0), Vector(0.5, 1.0)) == Some(Wall)
    ensures level.ObstacleFor(Vector(1.5, 0.0), Vector(0.5, 1.0)) == Some(Wall)
  {
    assert level.Width() == 2;
    assert FirstInRow(level.grid[0]) == Some(Wall);
  }

  /** Where each class puts a new actor relative to its cell: every box stays within the
      cell's column and ends no lower than the cell; only the player reaches above the cell,
      standing 1.5 tall on the cell's floor; a coin is centred across the cell; a fireball
      fills it exactly. */
  lemma SpawnFitsCell(kind: ActorKind, cell: Vector)
    ensures var p, s := kind.InitialPos(cell), kind.InitialSize();
      && cell.x <= p.x && p.x + s.x <= cell.x + 1.0
      && p.y + s.y <= cell.y + 1.0
      && (p.y < cell.y <==> kind.PlayerClass?)
      && (kind.PlayerClass? ==> p.y + s.y == cell.y + 1.0)
      && (kind.CoinClass? ==> p.x + s.x / 2.0 == cell.x + 0.5)
      && (kind.IsFireball() ==> p == cell && s == Vector(1.0, 1.0))
  {
  }
}
