/** LevelParser of game.js: turns a scheme (one string per row) into a grid of obstacle
    tags and a list of actors, and builds a Level from the two. */
module Parser {
  import opened Options
  import opened Vectors
  import opened Grid
  import opened World

  /** An actor a scheme asks for: its class and its cell, (column, row). */
  datatype Site = Site(kind: ActorKind, cell: Vector)

  /** The actors row `y` asks for, left to right: one per symbol that the dictionary maps
      to an actor class. */
  function RowSites(row: string, y: nat, dict: map<char, Kind>): seq<Site> {
    if |row| == 0 then []
    else
      var x := |row| - 1;
      RowSites(row[..x], y, dict)
        + if row[x] in dict && !dict[row[x]].NonActor?
          then [Site(dict[row[x]], Vector(x as real, y as real))]
          else []
  }

  /** The actors the whole scheme asks for, row by row. */
  function Sites(scheme: seq<string>, dict: map<char, Kind>): seq<Site> {
    if |scheme| == 0 then []
    else Sites(scheme[..|scheme| - 1], dict) + RowSites(scheme[|scheme| - 1], |scheme| - 1, dict)
  }

  /** Cell (x, y) of the scheme holds a symbol that the dictionary maps to an actor class. */
  predicate Marked(scheme: seq<string>, dict: map<char, Kind>, x: int, y: int) {
    0 <= y < |scheme| && 0 <= x < |scheme[y]| && scheme[y][x] in dict && !dict[scheme[y][x]].NonActor?
  }

  /** Cell `a` comes strictly before cell `b` in row-major order. */
  predicate RowMajorBefore(a: Vector, b: Vector) {
    a.y < b.y || (a.y == b.y && a.x < b.x)
  }

  /** The actor is what `new K(cell)` makes for the site's class K and cell. */
  predicate Spawned(a: Actor, s: Site)
    reads a
  {
    && a.kind == s.kind
    && a.Valid()
    && a.start == (if s.kind.FireRainClass? then Some(s.cell) else None)
    && a.pos == s.kind.InitialPos(s.cell)
    && a.size == s.kind.InitialSize()
    && a.speed == s.kind.InitialSpeed()
  }

  /** `grid` is what `createGrid` makes of `scheme`: a row per string, a cell per character,
      wall exactly for 'x', lava exactly for '!', empty for anything else. */
  predicate IsGridOf(grid: seq<seq<Cell>>, scheme: seq<string>) {
    && |grid| == |scheme|
    && (forall y :: 0 <= y < |scheme| ==> |grid[y]| == |scheme[y]|)
    && forall y, x :: 0 <= y < |scheme| && 0 <= x < |scheme[y]| ==>
         && (grid[y][x] == Some(Wall) <==> scheme[y][x] == 'x')
         && (grid[y][x] == Some(Lava) <==> scheme[y][x] == '!')
         && (grid[y][x] == None <==> scheme[y][x] != 'x' && scheme[y][x] != '!')
  }

  /** Site `s` is what cell x of row `y` asks for. */
  ghost predicate FromRowCell(row: string, y: nat, dict: map<char, Kind>, s: Site) {
    exists x :: 0 <= x < |row| && row[x] in dict && !dict[row[x]].NonActor?
             && s == Site(dict[row[x]], Vector(x as real, y as real))
  }

  /** Site `s` is what a marked cell of the scheme asks for. */
  ghost predicate FromMarkedCell(scheme: seq<string>, dict: map<char, Kind>, s: Site) {
    exists x, y :: Marked(scheme, dict, x, y) && s == Site(dict[scheme[y][x]], Vector(x as real, y as real))
  }

  lemma {:induction false} RowSitesSpec(row: string, y: nat, dict: map<char, Kind>)
    ensures forall i :: 0 <= i < |RowSites(row, y, dict)| ==> FromRowCell(row, y, dict, RowSites(row, y, dict)[i])
    ensures forall x :: 0 <= x < |row| && row[x] in dict && !dict[row[x]].NonActor? ==>
      Site(dict[row[x]], Vector(x as real, y as real)) in RowSites(row, y, dict)
    ensures forall i, j :: 0 <= i < j < |RowSites(row, y, dict)| ==>
      RowSites(row, y, dict)[i].cell.x < RowSites(row, y, dict)[j].cell.x
  {
    if |row| > 0 {
      var n := |row| - 1;
      var prefix := row[..n];
      RowSitesSpec(prefix, y, dict);
      var rs, before := RowSites(row, y, dict), RowSites(prefix, y, dict);
      assert rs[..|before|] == before;
      forall i | 0 <= i < |rs|
        ensures FromRowCell(row, y, dict, rs[i])
        ensures rs[i].cell.x < n as real || i == |rs| - 1
        ensures rs[i].cell.x <= n as real
      {
        if i < |before| {
          assert rs[i] == before[i];
          assert FromRowCell(prefix, y, dict, before[i]);
          var x :| 0 <= x < |prefix| && prefix[x] in dict && !dict[prefix[x]].NonActor?
                 && before[i] == Site(dict[prefix[x]], Vector(x as real, y as real));
          assert row[x] == prefix[x];
        } else {
          assert rs[i] == Site(dict[row[n]], Vector(n as real, y as real));
        }
      }
      forall x | 0 <= x < |row| && row[x] in dict && !dict[row[x]].NonActor?
        ensures Site(dict[row[x]], Vector(x as real, y as real)) in rs
      {
        if x < n {
          assert prefix[x] == row[x];
        } else {
          assert rs[|rs| - 1] == Site(dict[row[x]], Vector(x as real, y as real));
        }
      }
    }
  }

  /** Every actor `createActors` asks for comes from a marked cell of the scheme. */
  lemma {:induction false} SitesSound(scheme: seq<string>, dict: map<char, Kind>)
    ensures forall i :: 0 <= i < |Sites(scheme, dict)| ==> FromMarkedCell(scheme, dict, Sites(scheme, dict)[i])
  {
    if |scheme| > 0 {
      var n := |scheme| - 1;
      var prefix := scheme[..n];
      SitesSound(prefix, dict);
      RowSitesSpec(scheme[n], n, dict);
      var ss, before, last := Sites(scheme, dict), Sites(prefix, dict), RowSites(scheme[n], n, dict);
      forall i | 0 <= i < |ss|
        ensures FromMarkedCell(scheme, dict, ss[i])
      {
        if i < |before| {
          assert ss[i] == before[i];
          assert FromMarkedCell(prefix, dict, before[i]);
          var x, y :| Marked(prefix, dict, x, y)
                   && before[i] == Site(dict[prefix[y][x]], Vector(x as real, y as real));
          assert prefix[y] == scheme[y];
          assert Marked(scheme, dict, x, y);
        } else {
          assert ss[i] == last[i - |before|];
          assert FromRowCell(scheme[n], n, dict, last[i - |before|]);
          var x :| 0 <= x < |scheme[n]| && scheme[n][x] in dict && !dict[scheme[n][x]].NonActor?
                 && last[i - |before|] == Site(dict[scheme[n][x]], Vector(x as real, n as real));
          assert Marked(scheme, dict, x, n);
        }
      }
    }
  }

  /** Every marked cell of the scheme gives an actor. */
  lemma {:induction false} SitesComplete(scheme: seq<string>, dict: map<char, Kind>)
    ensures forall x, y :: Marked(scheme, dict, x, y) ==>
      Site(dict[scheme[y][x]], Vector(x as real, y as real)) in Sites(scheme, dict)
  {
    if |scheme| > 0 {
      var n := |scheme| - 1;
      var prefix := scheme[..n];
      SitesComplete(prefix, dict);
      RowSitesSpec(scheme[n], n, dict);
      forall x, y | Marked(scheme, dict, x, y)
        ensures Site(dict[scheme[y][x]], Vector(x as real, y as real)) in Sites(scheme, dict)
      {
        if y < n {
          assert prefix[y] == scheme[y];
          assert Marked(prefix, dict, x, y);
        }
      }
    }
  }

  /** The actors come in strict row-major order of their cells, so no cell gives two. */
  lemma {:induction false} SitesInRowMajorOrder(scheme: seq<string>, dict: map<char, Kind>)
    ensures forall i, j :: 0 <= i < j < |Sites(scheme, dict)| ==>
      RowMajorBefore(Sites(scheme, dict)[i].cell, Sites(scheme, dict)[j].cell)
  {
    if |scheme| > 0 {
      var n := |scheme| - 1;
      var prefix := scheme[..n];
      SitesInRowMajorOrder(prefix, dict);
      SitesSound(prefix, dict);
      RowSitesSpec(scheme[n], n, dict);
      var ss, before, last := Sites(scheme, dict), Sites(prefix, dict), RowSites(scheme[n], n, dict);
      forall i | 0 <= i < |ss|
        ensures i < |before| ==> ss[i].cell.y < n as real
        ensures i >= |before| ==> ss[i].cell.y == n as real
      {
        if i < |before| {
          assert ss[i] == before[i];
          assert FromMarkedCell(prefix, dict, before[i]);
        } else {
          assert ss[i] == last[i - |before|];
          assert FromRowCell(scheme[n], n, dict, last[i - |before|]);
        }
      }
      forall i, j | 0 <= i < j < |ss|
        ensures RowMajorBefore(ss[i].cell, ss[j].cell)
      {
        if j < |before| {
          assert ss[i] == before[i] && ss[j] == before[j];
        } else if |before| <= i {
          assert ss[i] == last[i - |before|] && ss[j] == last[j - |before|];
        }
      }
    }
  }

  /** `new this.dict[symbol](cell)` inside its try/catch and `instanceof Actor` test: a
      class of game.js gives its actor; anything else gives none and is skipped. */
  method Spawn(kind: Kind, cell: Vector) returns (r: Option<Actor>)
    ensures r.None? <==> kind.NonActor?
    ensures r.Some? ==> fresh(r.value) && Spawned(r.value, Site(kind, cell))
  {
    if kind.NonActor? {
      r := None;
    } else {
      var a: Actor;
      if kind.PlayerClass? {
        a := new Actor.Player(cell);
      } else if kind.CoinClass? {
        a := new Actor.Coin(cell);
      } else if kind.FireballClass? {
        a := new Actor.Fireball(cell, Zero);
      } else if kind.HorizontalFireballClass? {
        a := new Actor.HorizontalFireball(cell);
      } else if kind.VerticalFireballClass? {
        a := new Actor.VerticalFireball(cell);
      } else if kind.FireRainClass? {
        a := new Actor.FireRain(cell);
      } else {
        a := new Actor(cell, Vector(1.0, 1.0), Zero);
      }
      r := Some(a);
    }
  }

  class LevelParser {
    /** The symbol dictionary; `None` stands for a parser built without one. */
    const dict: Option<map<char, Kind>>

    constructor (dict: Option<map<char, Kind>>)
      ensures this.dict == dict
    {
      this.dict := dict;
    }

    /** `actorFromSymbol`: the dictionary's entry for `symbol`. Without a dictionary the
        source throws, so one is required. */
    function ActorFromSymbol(symbol: char): (r: Option<Kind>)
      requires dict.Some?
      ensures r.Some? <==> symbol in dict.value
      ensures r.Some? ==> r.value == dict.value[symbol]
    {
      if symbol in dict.value then Some(dict.value[symbol]) else None
    }

    /** `obstacleFromSymbol`: the fixed tile language, whatever the dictionary. */
    function ObstacleFromSymbol(symbol: char): Cell {
      match symbol
      case 'x' => Some(Wall)
      case '!' => Some(Lava)
      case _ => None
    }

    /** `createGrid`: each string becomes a row of cells, pushed in order. */
    method CreateGrid(scheme: seq<string>) returns (grid: seq<seq<Cell>>)
      ensures IsGridOf(grid, scheme)
    {
      grid := [];
      for y := 0 to |scheme|
        invariant IsGridOf(grid, scheme[..y])
      {
        var row := scheme[y];
        var obstacles := seq(|row|, x requires 0 <= x < |row| => ObstacleFromSymbol(row[x]));
        grid := grid + [obstacles];
        assert scheme[..y + 1] == scheme[..y] + [row];
      }
      assert scheme[..|scheme|] == scheme;
    }

    /** `createActors`: one actor per marked cell, in row-major order, each new and
        distinct; none at all without a dictionary. */
    method CreateActors(scheme: seq<string>) returns (actors: seq<Actor>)
      ensures dict.None? ==> actors == []
      ensures dict.Some? ==> |actors| == |Sites(scheme, dict.value)|
      ensures dict.Some? ==> forall k :: 0 <= k < |actors| ==> Spawned(actors[k], Sites(scheme, dict.value)[k])
      ensures forall k :: 0 <= k < |actors| ==> fresh(actors[k])
      ensures forall i, j :: 0 <= i < j < |actors| ==> actors[i] != actors[j]
    {
      actors := [];
      if dict.Some? {
        ghost var d := dict.value;
        for y := 0 to |scheme|
          invariant |actors| == |Sites(scheme[..y], d)|
          invariant forall k :: 0 <= k < |actors| ==> Spawned(actors[k], Sites(scheme[..y], d)[k])
          invariant forall k :: 0 <= k < |actors| ==> fresh(actors[k])
          invariant forall i, j :: 0 <= i < j < |actors| ==> actors[i] != actors[j]
        {
          var row := scheme[y];
          ghost var done := Sites(scheme[..y], d);
          for x := 0 to |row|
            invariant |actors| == |done + RowSites(row[..x], y, d)|
            invariant forall k :: 0 <= k < |actors| ==> Spawned(actors[k], (done + RowSites(row[..x], y, d))[k])
            invariant forall k :: 0 <= k < |actors| ==> fresh(actors[k])
            invariant forall i, j :: 0 <= i < j < |actors| ==> actors[i] != actors[j]
          {
            assert row[..x + 1][..x] == row[..x];
            var kind := ActorFromSymbol(row[x]);
            if kind.Some? {
              var a := Spawn(kind.value, Vector(x as real, y as real));
              if a.Some? {
                actors := actors + [a.value];
              }
            }
          }
          assert row[..|row|] == row;
          assert scheme[..y + 1][..y] == scheme[..y];
        }
        assert scheme[..|scheme|] == scheme;
      }
    }

    /** `parse`: a new Level over the grid and the actors of the scheme. */
    method Parse(plan: seq<string>) returns (level: Level)
      ensures fresh(level)
      ensures IsGridOf(level.grid, plan) && level.height == |plan|
      ensures level.status == Undecided && level.finishDelay == 1.0
      ensures dict.None? ==> level.actors == []
      ensures dict.Some? ==> |level.actors| == |Sites(plan, dict.value)|
      ensures dict.Some? ==> forall k :: 0 <= k < |level.actors| ==> Spawned(level.actors[k], Sites(plan, dict.value)[k])
      ensures forall k :: 0 <= k < |level.actors| ==> fresh(level.actors[k])
      ensures forall i, j :: 0 <= i < j < |level.actors| ==> level.actors[i] != level.actors[j]
    {
      var grid := CreateGrid(plan);
      var actors := CreateActors(plan);
      level := new Level(grid, actors);
    }
  }

  /** The scheme ["@ o", "xxxx"] with '@' for Player and 'o' for Coin: a player at (0, 0),
      one coin at (2, 0), and a bottom row of four walls. */
  lemma PlayerAndCoinExample(grid: seq<seq<Cell>>)
    requires IsGridOf(grid, ["@ o", "xxxx"])
    ensures Sites(["@ o", "xxxx"], map['@' := PlayerClass, 'o' := CoinClass])
         == [Site(PlayerClass, Vector(0.0, 0.0)), Site(CoinClass, Vector(2.0, 0.0))]
    ensures grid[1] == [Some(Wall), Some(Wall), Some(Wall), Some(Wall)]
  {
    var scheme, dict := ["@ o", "xxxx"], map['@' := PlayerClass, 'o' := CoinClass];
    assert scheme[..1] == ["@ o"] && ["@ o"][..0] == [];
    assert "@ o"[..2] == "@ " && "@ "[..1] == "@" && "@"[..0] == [];
    assert "xxxx"[..3] == "xxx" && "xxx"[..2] == "xx" && "xx"[..1] == "x" && "x"[..0] == [];
    assert RowSites("xxxx", 1, dict) == [];
    assert grid[1][0] == Some(Wall) && grid[1][1] == Some(Wall) && grid[1][2] == Some(Wall) && grid[1][3] == Some(Wall);
  }
}
