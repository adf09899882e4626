# Tile-world simulation core of simple-canvas-game, in Dafny

This project models the simulation core of `game.js`, a small 2-D tile-based platform
game. The core has five parts:

- **Vectors**: an immutable `Vector` with `plus` and `times`.
- **Actors** (`World.Actor`): a position, a size and a speed, the derived edges
  `left`, `top`, `right` and `bottom`, and the box-overlap test `isIntersect`. It also
  has one constructor for each class of game.js: `Actor`, `Fireball`,
  `HorizontalFireball`, `VerticalFireball`, `FireRain`, `Coin` and `Player`.
- **The fireball family's tick** (`act` and `handleObstacle`): it detects an obstacle
  first and resolves it afterwards. A generic fireball turns back. A `FireRain` returns
  to its start.
- **The level** (`World.Level`): a grid of obstacle tags (`wall`, `lava` or empty) and a
  mutable actor list. It has the `status` and `finishDelay` fields, the `width`,
  `player` and `isFinished` getters, the queries `actorAt`, `obstacleAt` and
  `noMoreActors`, and the mutators `removeActor` and `playerTouched`, which holds the
  win/lose rule.
- **The level parser** (`Parser.LevelParser`): the fixed symbol-to-obstacle map,
  `createGrid`, `createActors` over a symbol dictionary, and `parse`.

These source entities are modelled as classes: actors, the level and the parser.
`Act`, `HandleObstacle`, `RemoveActor` and `PlayerTouched` overwrite their fields in
place. The early-return `for` loops of `actorAt`, `obstacleAt` and `noMoreActors` are
methods with loops, and so are the push loops of `createGrid` and `createActors`. Each
loop method is proved against a specification function:

- `Level.ObstacleFor` specifies `obstacleAt`.
- `Grid.FirstObstacle` specifies its scan of the grid.
- `Parser.Sites` lists, in order, the actors a scheme asks for.

Lemmas then state what those functions mean.

A dictionary entry is a `Kind`: one of the seven actor classes, or `NonActor`.
`NonActor` stands for a value whose `new` throws or yields something that is not an
Actor. The source swallows that case, and the cell gives no actor.

Positions and sizes are `real`. Every constant of the game is a short decimal, so the
model holds it exactly.

## Behaviour worth knowing

game.js behaves as follows in these cases, and the model does the same:

- **`obstacleAt`.** Once the four border checks pass, `obstacleAt` returns the first
  non-empty cell of the whole grid in row-major order (game.js:98-102). It does not look
  only at the cells under the rectangle. `World.ObstacleIgnoresPosition` proves that the
  answer inside the borders does not depend on the rectangle. `World.OneRowExample`
  shows a rectangle over an empty cell that still meets a wall.
- **`removeActor` with an absent actor.** It does not leave the list alone: `indexOf`
  gives -1, and `splice(-1, 1)` drops the last actor (`JsArray.SpliceOutAbsent`).
- **`playerTouched` and `status`.** It assigns `status` unconditionally. Touching lava
  or a fireball sets `lost` even after a win. Taking the last coin sets `won` even after
  a loss. The status can therefore change more than once.
- **`isIntersect` and negative sizes.** Only the OTHER actor's size is tested for
  negative components. The size of the actor doing the asking is not checked.

## Model

| member | source | states |
|---|---|---|
| `Vectors.PlusIsCommutativeMonoid` | game.js:9-14 | `plus` is associative and commutative, and `new Vector()` is its identity |
| `Vectors.TimesIsLinear` | game.js:16-18 | `times` distributes over `plus` and composes multiplicatively; `times(1)` is the identity, `times(-1)` undoes itself (the fireball's bounce), `times(0)` is the zero vector |
| `JsArray.IndexOf` | game.js:106 | `indexOf` is -1 exactly when the element is absent; otherwise it is the position of the element's first occurrence |
| `JsArray.SpliceOutPresent` | game.js:106 | `splice(indexOf(x), 1)` on a list holding `x` removes exactly its first occurrence: one fewer element, the multiset minus `x`, everything else in order |
| `JsArray.SpliceOutAbsent` | game.js:106 | `splice(indexOf(x), 1)` on a list without `x` drops the last element, and leaves an empty list empty |
| `Grid.Longest` | game.js:72 | the row the `reduce` settles on is one of the rows and is at least as long as every row |
| `Grid.FirstObstacleIsFirst` | game.js:98-102 | if every cell before (i, j) in row-major order is empty and (i, j) is not, the scan returns the tag of (i, j) |
| `Grid.FirstObstacleNone` | game.js:98-102 | the scan finds nothing exactly when the grid holds no obstacle |
| `Grid.FirstObstacleFound` | game.js:98-102 | a tag the scan returns belongs to a cell before which every cell in row-major order is empty |
| `World.Actor.constructor` | game.js:22-29 | `new Actor(pos, size, speed)` keeps the three vectors it is given |
| `World.Actor.Fireball` | game.js:178-181 | a Fireball keeps its position and speed, and its size is (1, 1) |
| `World.Actor.HorizontalFireball` | game.js:207-211 | speed (2, 0), size (1, 1), position as given |
| `World.Actor.VerticalFireball` | game.js:215-219 | speed (0, 2), size (1, 1), position as given |
| `World.Actor.FireRain` | game.js:223-228 | speed (0, 3), size (1, 1), position as given, and `start` is that position |
| `World.Actor.Coin` | game.js:240-247 | the position is shifted by (0.2, 0.1), the size is (0.6, 0.6) and the speed is zero |
| `World.Actor.Player` | game.js:272-277 | the position is shifted by (0, -0.5), the size is (0.8, 1.5) and the speed is zero |
| `World.Actor.HandleObstacle` | game.js:191-193 | a Fireball reverses its speed and stays where it is; a FireRain (its override, game.js:230-232) returns to `start` and keeps its speed |
| `World.Actor.Act` | game.js:195-203 | a fireball of any class queries `obstacleAt(pos + speed*time, size)`. On an obstacle it keeps its position and reverses its speed (FireRain: returns to `start`, keeps its speed). Otherwise it moves to `pos + speed*time` and keeps its speed. The size never changes. For `Actor` and `Player`, `act` changes nothing |
| `World.Kind.Type` | game.js:46-48 | with its overrides in Fireball, Coin and Player (game.js:183-185, 249-251, 279-281), the `type` tag is 'player' exactly for a Player, 'coin' exactly for a Coin, 'actor' exactly for a plain Actor, and 'fireball' exactly for the four fireball classes, which share it |
| `World.FirstOfType` | game.js:79-81 | the `player` getter's `find` is empty exactly when no actor has the type; otherwise it returns an actor of that type with none before it in the list |
| `World.IntersectExclusions` | game.js:50-58 | an actor never intersects itself; boxes that only share an edge do not intersect; an actor of negative size is never intersected |
| `World.IntersectIffSharedPoint` | game.js:50-58 | for boxes of positive size, `isIntersect` holds exactly when the actors are distinct and some point lies strictly inside both boxes |
| `World.IntersectSymmetric` | game.js:50-58 | between actors of non-negative size, `a.isIntersect(b)` equals `b.isIntersect(a)` |
| `World.Level.constructor` | game.js:62-68 | a new level keeps the grid and the actors, has `height` = row count, `status` null and `finishDelay` 1, and so is not finished |
| `World.Level.Width` | game.js:70-77 | `width` is 0 for a grid without rows; otherwise it is the length of some row and no row is longer |
| `World.Level.ActorAt` | game.js:87-91 | the result is empty exactly when no actor intersects the target; otherwise it is the first actor in list order that does |
| `World.Level.ObstacleAt` | game.js:93-103 | the loop computes exactly `ObstacleFor`: the border checks in their order, then the first obstacle of the whole grid |
| `World.ObstaclePrecedence` | game.js:94-97 | left, right and top borders give wall whatever the grid holds; past the bottom border (inside the others) gives lava; inside all borders the answer is empty exactly when the grid has no obstacle |
| `World.ObstacleIgnoresPosition` | game.js:98-102 | inside the borders every rectangle gets the same answer, the grid's first obstacle |
| `World.OneRowExample` | game.js:93-103 | on the grid with one row, a wall and then an empty cell: a rectangle sticking out left meets wall, one below the bottom meets lava, one over the wall meets wall, and one over only the empty cell also meets wall |
| `World.Level.RemoveActor` | game.js:105-107 | the actor list becomes `splice(indexOf(actor), 1)`: a present actor loses exactly its first occurrence; for an absent actor the last one is dropped |
| `World.Level.NoMoreActors` | game.js:109-115 | true exactly when no actor has the type, and in particular when the list is empty |
| `World.Level.PlayerTouched` | game.js:117-123 | lava or fireball: `status` becomes lost and the actors stay. Coin with an actor: that actor is spliced out and `status` becomes won exactly when no coin remains, otherwise it stays. Anything else changes nothing |
| `World.SpawnFitsCell` | game.js:240-277 | a new actor stays within its cell's column and ends no lower than the cell. Only the player reaches above it, standing on the cell's floor. A coin is centred across the cell. A fireball fills the cell exactly |
| `Parser.Spawn` | game.js:157-162 | `new dict[symbol](cell)` gives a fresh actor of that class with that class's position, size and speed; it gives nothing exactly for a dictionary value that is not an actor class |
| `Parser.LevelParser.constructor` | game.js:127-129 | the parser keeps the dictionary it is given |
| `Parser.LevelParser.ActorFromSymbol` | game.js:131-133 | the result is present exactly when the dictionary has the symbol, and is then the dictionary's entry |
| `Parser.LevelParser.CreateGrid` | game.js:135-149 | one row per scheme string, as long as that string; a cell is wall exactly for 'x', lava exactly for '!', and empty for every other character |
| `Parser.LevelParser.CreateActors` | game.js:151-168 | no actors without a dictionary; otherwise one new actor per site of `Sites`, in that order, each built as its class builds it, and no two of them the same object |
| `Parser.SitesSound` | game.js:154-159 | every actor asked for comes from a cell whose symbol the dictionary maps to an actor class, at that cell's (column, row) |
| `Parser.SitesComplete` | game.js:154-159 | every cell whose symbol the dictionary maps to an actor class asks for an actor of that class at (column, row) |
| `Parser.SitesInRowMajorOrder` | game.js:154-155 | the actors come in strict row-major order of their cells |
| `Parser.LevelParser.Parse` | game.js:170-174 | the level has the scheme's grid, `height` = number of strings, the actors `createActors` builds (each a new object, no two the same), `status` null and `finishDelay` 1 |
| `Parser.PlayerAndCoinExample` | game.js:143-174 | the scheme ["@ o", "xxxx"] with '@' as Player and 'o' as Coin asks for a player at (0, 0) and a single coin at (2, 0), and its second grid row is four walls |

Some members are also modelled but have no row of their own:
- `Level.Player` is `FirstOfType(actors, PlayerType)`.
- `Level.IsFinished` (game.js:83-85) is "status set and `finishDelay` below zero".
- `Actor.IsIntersect` is stated by the three `Intersect…` lemmas.
- `Actor.NextPosition` is Fireball's `getNextPosition` (game.js:187-189),
  `pos + speed·time`. It is stated through `Actor.Act`.

`LevelParser.ObstacleFromSymbol` (game.js:135-141) is stated through `CreateGrid`.

## Left out

- Actor.Act: its precondition excludes coins. `Coin.act`, `getNextPosition`,
  `updateSpring` and `getSpringVector` (game.js:253-268) use `Math.sin` on a phase, so
  the coin's oscillation is not modelled.
- The coin's random initial phase (`getRandom`, `Math.random`, game.js:235-237) and its
  `spring`, `springSpeed` and `springDist` fields are left out for the same reason. The
  coin's position, size and speed at construction are modelled.
- LevelParser.ActorFromSymbol: requires a dictionary. Without one, the source's
  `this.dict[symbol]` throws a TypeError. game.js never calls `actorFromSymbol`:
  `createActors` tests `symbol in this.dict` and reads `this.dict[symbol]` itself
  (game.js:156, 158). The model's `CreateActors` uses `ActorFromSymbol` in their place,
  as the same lookup on a plain map, and only once it knows there is a dictionary.
- The runtime `instanceof` checks of `plus` and of the `Actor` constructor, and the
  errors they throw (game.js:10-12, 23-25), are subsumed by static types.
- The `instanceof Actor` test and the try/catch in `createActors` (game.js:157-162)
  become the `NonActor` entry and `Spawn`'s empty result.
- JavaScript's `symbol in dict` also sees inherited properties, and `actorFromSymbol`
  accepts an `undefined` symbol. The dictionary here is a plain finite map, and a symbol
  is always a character.
- Default arguments are not modelled: those of `Actor` (game.js:22), of `Fireball`
  (game.js:178) and `getNextPosition`'s `time = 1` (game.js:187). Every call passes its
  arguments explicitly. `Spawn` builds in the defaults that `new K(cell)` relies on: size
  (1, 1) and zero speed for a plain `Actor`, and zero speed for a `Fireball`.
- `string.split('')` (game.js:145, 155) splits into UTF-16 code units, while a Dafny
  `string` is a sequence of Unicode scalar values. A symbol outside the Basic
  Multilingual Plane is one cell here but two in game.js, which shifts every later
  column. ASCII schemes are unaffected.
- Parser.Spawn: a method rather than a function, because building an actor allocates an
  object.
- The top-level script (game.js:283-313) is not part of this model: the demo scheme,
  `runLevel`, `DOMDisplay`, `loadLevels` and `console.log`. These are rendering,
  asynchronous loading and the game loop.
- Counting `finishDelay` down and moving the player belong to the external driver.
  Player kinematics means gravity, input and jumps. The core has only the `isFinished`
  test and the inherited no-op `act`.
- `grid` and `height` are constant fields of the level, because nothing in the core
  reassigns them.
- Numbers are exact reals, so floating-point rounding of positions is not modelled.
