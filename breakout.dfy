/**
 * The Breakout game of src/apps/game/2d/breakout/breakout.cpp: reading a level
 * file into a grid of tile codes, creating one brick object per nonzero tile,
 * and moving the ball.
 *
 * A level file is its text (None when it cannot be opened); `>>` on an
 * unsigned int is modelled for plain decimal digits. Textures and the square
 * mesh's buffers are handles the caller supplies.
 */
module BreakoutGame {
  import opened Common
  import opened GameObjects
  import Mesh

  const UINT_MAX: nat := 0xFFFF_FFFF

  // ---------------------------------------------------------------------
  // Reading a level file
  // ---------------------------------------------------------------------

  predicate IsDigit(c: char) { '0' <= c <= '9' }

  /** The characters `>>` skips before a number. */
  predicate IsSpace(c: char) { c == ' ' || c == '\t' || c == '\n' || c == '\r' || c == '\U{0B}' || c == '\U{0C}' }

  function DigitValue(c: char): nat
    requires IsDigit(c)
  {
    (c as int) - ('0' as int)
  }

  /** The first index at or after i that does not hold a digit. */
  function DigitEnd(s: string, i: nat): (e: nat)
    requires i <= |s|
    ensures i <= e <= |s| && (e < |s| ==> !IsDigit(s[e]))
    ensures forall k :: i <= k < e ==> IsDigit(s[k])
    decreases |s| - i
  {
    if i == |s| || !IsDigit(s[i]) then i else DigitEnd(s, i + 1)
  }

  /** The decimal value of the digits s[i..j]. */
  function Value(s: string, i: nat, j: nat): nat
    requires i <= j <= |s| && forall k :: i <= k < j ==> IsDigit(s[k])
  {
    if i == j then 0 else Value(s, i, j - 1) * 10 + DigitValue(s[j - 1])
  }

  /** The numbers `while (sstream >> tileCode)` reads from s[pos..]: whitespace
   *  is skipped, a run of digits is one number, and reading stops at the first
   *  character that cannot start a number or at a number above UINT_MAX. */
  function RowAt(s: string, pos: nat): seq<nat>
    requires pos <= |s|
    decreases |s| - pos
  {
    if pos == |s| then []
    else if IsSpace(s[pos]) then RowAt(s, pos + 1)
    else if !IsDigit(s[pos]) then []
    else
      var e := DigitEnd(s, pos);
      var v := Value(s, pos, e);
      if v > UINT_MAX then [] else [v] + RowAt(s, e)
  }

  /** The index of the first newline at or after pos, or the end of the text. */
  function LineEnd(text: string, pos: nat): (e: nat)
    requires pos <= |text|
    ensures pos <= e <= |text| && (e < |text| ==> text[e] == '\n')
    ensures forall k :: pos <= k < e ==> text[k] != '\n'
    decreases |text| - pos
  {
    if pos == |text| || text[pos] == '\n' then pos else LineEnd(text, pos + 1)
  }

  /** What std::getline returns, line after line: a final newline does not
   *  start another line. */
  function Lines(text: string): seq<string>
    decreases |text|
  {
    if text == [] then []
    else
      var e := LineEnd(text, 0);
      [text[..e]] + if e == |text| then [] else Lines(text[e + 1..])
  }

  /** The tile grid read from a level file's text: one row per line. */
  function ParseLevel(text: string): (tileData: seq<seq<nat>>)
  {
    var lines := Lines(text);
    seq(|lines|, k requires 0 <= k < |lines| => RowAt(lines[k], 0))
  }

  /** The digits of n, most significant first. */
  function ShowNat(n: nat): (s: string)
    ensures |s| >= 1 && forall k :: 0 <= k < |s| ==> IsDigit(s[k])
  {
    if n < 10 then [(n + '0' as int) as char] else ShowNat(n / 10) + [(n % 10 + '0' as int) as char]
  }

  /** A row as a level file writes it: numbers separated by single spaces. */
  function FormatRow(row: seq<nat>): string
  {
    if row == [] then [] else if |row| == 1 then ShowNat(row[0]) else ShowNat(row[0]) + " " + FormatRow(row[1..])
  }

  /** A grid as a level file: every row ended by a newline. */
  function FormatLevel(tileData: seq<seq<nat>>): string
  {
    if tileData == [] then [] else FormatRow(tileData[0]) + "\n" + FormatLevel(tileData[1..])
  }

  lemma {:induction false} ValuePrefix(a: string, b: string, i: nat, j: nat)
    requires i <= j <= |a| && forall k :: i <= k < j ==> IsDigit(a[k])
    ensures Value(a + b, i, j) == Value(a, i, j)
    decreases j
  {
    if i < j {
      ValuePrefix(a, b, i, j - 1);
    }
  }

  lemma {:induction false} ValueShow(n: nat)
    ensures Value(ShowNat(n), 0, |ShowNat(n)|) == n
  {
    var s := ShowNat(n);
    if n >= 10 {
      var p := ShowNat(n / 10);
      ValueShow(n / 10);
      ValuePrefix(p, [(n % 10 + '0' as int) as char], 0, |p|);
      assert s[..|s| - 1] == p;
    }
  }

  /** Reading is unaffected by what comes before the read position. */
  lemma {:induction false} RowAtShift(a: string, b: string, pos: nat)
    requires pos <= |b|
    ensures RowAt(a + b, |a| + pos) == RowAt(b, pos)
    decreases |b| - pos
  {
    var s, i := a + b, |a| + pos;
    if pos < |b| {
      assert s[i] == b[pos];
      if IsSpace(b[pos]) {
        RowAtShift(a, b, pos + 1);
        assert RowAt(s, i) == RowAt(s, i + 1);
      } else if IsDigit(b[pos]) {
        var e := DigitEnd(b, pos);
        assert DigitEnd(s, i) == |a| + e by { DigitEndShift(a, b, pos); }
        var v := Value(b, pos, e);
        assert Value(s, i, |a| + e) == v by { ValueShift(a, b, pos, e); }
        if v <= UINT_MAX {
          RowAtShift(a, b, e);
          assert RowAt(s, i) == [v] + RowAt(s, |a| + e);
        }
      }
    }
  }

  lemma {:induction false} DigitEndShift(a: string, b: string, pos: nat)
    requires pos <= |b|
    ensures DigitEnd(a + b, |a| + pos) == |a| + DigitEnd(b, pos)
    decreases |b| - pos
  {
    if pos < |b| && IsDigit(b[pos]) {
      DigitEndShift(a, b, pos + 1);
    }
  }

  lemma {:induction false} ValueShift(a: string, b: string, i: nat, j: nat)
    requires i <= j <= |b| && forall k :: i <= k < j ==> IsDigit(b[k])
    ensures Value(a + b, |a| + i, |a| + j) == Value(b, i, j)
    decreases j
  {
    if i < j {
      ValueShift(a, b, i, j - 1);
    }
  }

  /** A number followed by a separator reads back as that number. */
  lemma ReadNumber(n: nat, rest: string)
    requires n <= UINT_MAX && (rest == [] || IsSpace(rest[0]))
    ensures RowAt(ShowNat(n) + rest, 0) == [n] + RowAt(rest, 0)
  {
    var d := ShowNat(n);
    var s := d + rest;
    assert DigitEnd(s, 0) == |d| by {
      DigitEndShift(d, rest, 0);
      DigitEndAll(d, 0);
    }
    assert Value(s, 0, |d|) == n by {
      ValuePrefix(d, rest, 0, |d|);
      ValueShow(n);
    }
    assert s[0] == d[0] && IsDigit(d[0]) && !IsSpace(d[0]);
    assert RowAt(s, |d|) == RowAt(rest, 0) by {
      RowAtShift(d, rest, 0);
    }
  }

  lemma {:induction false} DigitEndAll(s: string, i: nat)
    requires i <= |s| && forall k :: i <= k < |s| ==> IsDigit(s[k])
    ensures DigitEnd(s, i) == |s|
    decreases |s| - i
  {
    if i < |s| {
      DigitEndAll(s, i + 1);
    }
  }

  /** Every row a level file writes reads back unchanged. */
  lemma {:induction false} RowRoundTrip(row: seq<nat>)
    requires forall k :: 0 <= k < |row| ==> row[k] <= UINT_MAX
    ensures RowAt(FormatRow(row), 0) == row
    decreases |row|
  {
    if |row| == 1 {
      ReadNumber(row[0], []);
      assert ShowNat(row[0]) + [] == ShowNat(row[0]);
    } else if |row| > 1 {
      var tail := FormatRow(row[1..]);
      RowRoundTrip(row[1..]);
      assert ShowNat(row[0]) + " " + tail == ShowNat(row[0]) + (" " + tail);
      ReadNumber(row[0], " " + tail);
      RowAtShift(" ", tail, 0);
      assert RowAt(" " + tail, 0) == RowAt(" " + tail, 1);
    }
  }

  lemma {:induction false} FormatRowNoNewline(row: seq<nat>)
    ensures forall k :: 0 <= k < |FormatRow(row)| ==> FormatRow(row)[k] != '\n'
    decreases |row|
  {
    if |row| > 1 {
      FormatRowNoNewline(row[1..]);
    }
  }

  /** The first line of a written level is its first row; the rest are the
   *  lines of the remaining rows. */
  lemma LinesStep(tileData: seq<seq<nat>>)
    requires tileData != []
    ensures Lines(FormatLevel(tileData)) == [FormatRow(tileData[0])] + Lines(FormatLevel(tileData[1..]))
  {
    FormatRowNoNewline(tileData[0]);
    LinesCons(FormatRow(tileData[0]), FormatLevel(tileData[1..]));
  }

  /** A line without a newline, then a newline, then more text. */
  lemma LinesCons(line: string, rest: string)
    requires forall k :: 0 <= k < |line| ==> line[k] != '\n'
    ensures Lines(line + "\n" + rest) == [line] + Lines(rest)
  {
    var text := line + "\n" + rest;
    assert text == line + ("\n" + rest);
    LineEndAt(line, "\n" + rest);
    assert text[..|line|] == line;
    assert text[|line| + 1..] == rest;
  }

  /** The lines of a written level are its formatted rows. */
  lemma {:induction false} LinesOfFormat(tileData: seq<seq<nat>>)
    ensures |Lines(FormatLevel(tileData))| == |tileData|
    ensures forall k :: 0 <= k < |tileData| ==> Lines(FormatLevel(tileData))[k] == FormatRow(tileData[k])
    decreases |tileData|
  {
    if tileData != [] {
      LinesStep(tileData);
      LinesOfFormat(tileData[1..]);
      var lines := Lines(FormatLevel(tileData));
      forall k | 1 <= k < |tileData|
        ensures lines[k] == FormatRow(tileData[k])
      {
        assert tileData[1..][k - 1] == tileData[k];
      }
    } else {
      assert FormatLevel(tileData) == [];
    }
  }

  lemma {:induction false} LineEndAt(line: string, rest: string)
    requires forall k :: 0 <= k < |line| ==> line[k] != '\n'
    requires rest != [] && rest[0] == '\n'
    ensures LineEnd(line + rest, 0) == |line|
  {
    LineEndFrom(line + rest, 0, |line|);
  }

  lemma {:induction false} LineEndFrom(s: string, pos: nat, e: nat)
    requires pos <= e < |s| && s[e] == '\n' && forall k :: pos <= k < e ==> s[k] != '\n'
    ensures LineEnd(s, pos) == e
    decreases e - pos
  {
    if pos < e {
      LineEndFrom(s, pos + 1, e);
    }
  }

  /** Writing a grid as a level file and reading it back gives the grid. */
  lemma LevelRoundTrip(tileData: seq<seq<nat>>)
    requires forall y, x :: 0 <= y < |tileData| && 0 <= x < |tileData[y]| ==> tileData[y][x] <= UINT_MAX
    ensures ParseLevel(FormatLevel(tileData)) == tileData
  {
    LinesOfFormat(tileData);
    forall y | 0 <= y < |tileData|
      ensures ParseLevel(FormatLevel(tileData))[y] == tileData[y]
    {
      RowRoundTrip(tileData[y]);
    }
  }

  /** One line's loop `while (sstream >> tileCode) row.push_back(tileCode)`. */
  method ReadRow(line: string) returns (row: seq<nat>)
    ensures row == RowAt(line, 0)
  {
    row := [];
    var pos := 0;
    while pos < |line|
      invariant pos <= |line| && row + RowAt(line, pos) == RowAt(line, 0)
      decreases |line| - pos
    {
      if IsSpace(line[pos]) {
        pos := pos + 1;
      } else if !IsDigit(line[pos]) {
        return;
      } else {
        var end, v := pos, 0;
        while end < |line| && IsDigit(line[end])
          invariant pos <= end <= |line| && (forall k :: pos <= k < end ==> IsDigit(line[k]))
          invariant v == Value(line, pos, end)
          invariant DigitEnd(line, pos) == DigitEnd(line, end)
          decreases |line| - end
        {
          v := v * 10 + DigitValue(line[end]);
          end := end + 1;
        }
        if v > UINT_MAX {
          return;
        }
        row, pos := row + [v], end;
      }
    }
  }

  /** load's loop: one row per line of the file. */
  method ReadLevel(text: string) returns (tileData: seq<seq<nat>>)
    ensures tileData == ParseLevel(text)
  {
    var lines := Lines(text);
    tileData := [];
    for i := 0 to |lines|
      invariant tileData == ParseLevel(text)[..i]
    {
      var row := ReadRow(lines[i]);
      tileData := tileData + [row];
    }
  }

  // ---------------------------------------------------------------------
  // Creating a level's objects
  // ---------------------------------------------------------------------

  /** A nonzero tile: its column, row and code. */
  datatype Tile = Tile(x: nat, y: nat, code: nat)

  /** Every row is at least as long as row 0, whose length is the level width. */
  predicate Rectangular(tileData: seq<seq<nat>>)
  {
    |tileData| > 0 && forall y :: 0 <= y < |tileData| ==> |tileData[0]| <= |tileData[y]|
  }

  /** The nonzero tiles of row y among its first n cells, left to right. */
  function RowTiles(row: seq<nat>, y: nat, n: nat): (ts: seq<Tile>)
    requires n <= |row|
    ensures |ts| <= n
  {
    if n == 0 then []
    else RowTiles(row, y, n - 1) + if row[n - 1] != 0 then [Tile(n - 1, y, row[n - 1])] else []
  }

  /** The nonzero tiles of the first h rows, row by row, each cut to the level width. */
  function GridTiles(tileData: seq<seq<nat>>, h: nat): seq<Tile>
    requires Rectangular(tileData) && h <= |tileData|
  {
    if h == 0 then [] else GridTiles(tileData, h - 1) + RowTiles(tileData[h - 1], h - 1, |tileData[0]|)
  }

  /** Tiles in row-major order: by row, then by column. */
  predicate Before(a: Tile, b: Tile) { a.y < b.y || (a.y == b.y && a.x < b.x) }

  lemma {:induction false} RowTilesExact(row: seq<nat>, y: nat, n: nat)
    requires n <= |row|
    ensures forall t :: t in RowTiles(row, y, n) <==> t.y == y && t.x < n && t.code == row[t.x] && t.code != 0
    ensures forall i, j :: 0 <= i < j < |RowTiles(row, y, n)| ==> RowTiles(row, y, n)[i].x < RowTiles(row, y, n)[j].x
  {
    if n > 0 {
      RowTilesExact(row, y, n - 1);
    }
  }

  /** init creates one brick exactly for each nonzero tile within the level width. */
  lemma {:induction false} GridTilesExact(tileData: seq<seq<nat>>, h: nat)
    requires Rectangular(tileData) && h <= |tileData|
    ensures forall t :: t in GridTiles(tileData, h) <==>
      t.y < h && t.x < |tileData[0]| && t.code == tileData[t.y][t.x] && t.code != 0
  {
    if h > 0 {
      GridTilesExact(tileData, h - 1);
      RowTilesExact(tileData[h - 1], h - 1, |tileData[0]|);
    }
  }

  /** ... and creates them in row-major order. */
  lemma {:induction false} GridTilesOrdered(tileData: seq<seq<nat>>, h: nat)
    requires Rectangular(tileData) && h <= |tileData|
    ensures forall i, j :: 0 <= i < j < |GridTiles(tileData, h)| ==> Before(GridTiles(tileData, h)[i], GridTiles(tileData, h)[j])
  {
    if h > 0 {
      var prev, row := GridTiles(tileData, h - 1), RowTiles(tileData[h - 1], h - 1, |tileData[0]|);
      GridTilesOrdered(tileData, h - 1);
      GridTilesExact(tileData, h - 1);
      RowTilesExact(tileData[h - 1], h - 1, |tileData[0]|);
      var all := prev + row;
      forall i, j | 0 <= i < j < |all|
        ensures Before(all[i], all[j])
      {
        if j < |prev| {
        } else if i < |prev| {
          assert all[i] in prev && all[j] == row[j - |prev|] && all[j] in row;
        } else {
          assert all[i] == row[i - |prev|] && all[j] == row[j - |prev|];
        }
      }
    }
  }

  /** The colour of a non-solid brick: codes 2 to 5 are blue, green, yellow
   *  and orange; any higher code stays white. */
  function BrickColor(code: nat): Vec3
  {
    if code == 2 then Vec3(0.2, 0.6, 1.0)
    else if code == 3 then Vec3(0.0, 0.7, 0.0)
    else if code == 4 then Vec3(0.8, 0.8, 0.4)
    else if code == 5 then Vec3(1.0, 0.5, 0.0)
    else Vec3(1.0, 1.0, 1.0)
  }

  const SOLID_COLOR: Vec3 := Vec3(0.8, 0.8, 0.7)

  /** Textures init loads from the resources directory. */
  datatype LevelTextures = LevelTextures(blockSolid: Handle, block: Handle, background: Handle)

  /** The size and position of a tile's cell. The cell width divides levelWidth
   *  by the level width in floating point, the cell height divides levelHeight
   *  by the number of rows in unsigned arithmetic; both are then scaled by 1/400. */
  function UnitWidth(levelWidth: nat, width: nat): real
  {
    if width == 0 then 0.0 // no tile is placed in a level of width 0
    else (levelWidth as real / width as real) / 400.0
  }

  function UnitHeight(levelHeight: nat, height: nat): real
    requires height > 0
  {
    (levelHeight / height) as real / 400.0
  }

  /** The brick object created for a tile: code 1 is solid with the solid
   *  texture, any other code is breakable with the block texture and its colour. */
  predicate IsBrick(o: GameObject, id: Id, t: Tile, unitWidth: real, unitHeight: real,
                    square: Mesh.Model, textures: LevelTextures, isCurrentLevel: bool)
  {
    o.id == id && o.model == Some(square) && o.isHidden == !isCurrentLevel &&
    o.isSolid == (t.code == 1) && !o.destroyed && !o.isMirror && !o.isParticle && o.ball.None? &&
    o.diffuseMap == Some(if t.code == 1 then textures.blockSolid else textures.block) &&
    o.color == (if t.code == 1 then SOLID_COLOR else BrickColor(t.code)) &&
    o.transform2d.translation == Vec3(unitWidth * t.x as real - 0.93, unitHeight * t.y as real - 0.95, 0.0) &&
    o.transform2d.scale == Vec2(unitWidth, unitHeight)
  }

  /** The background object: the square with the background texture, a quarter
   *  of the grid's size in unsigned arithmetic, slightly behind the bricks. */
  predicate IsBackground(o: GameObject, id: Id, width: nat, height: nat,
                         square: Mesh.Model, textures: LevelTextures, isCurrentLevel: bool)
  {
    o.id == id && o.model == Some(square) && o.isHidden == !isCurrentLevel &&
    !o.isSolid && !o.destroyed && o.diffuseMap == Some(textures.background) && o.color == Vec3(1.0, 1.0, 1.0) &&
    o.transform2d.translation == Vec3(0.0, 0.0, 0.01) &&
    o.transform2d.scale == Vec2((width / 4) as real, (height / 4) as real)
  }

  /** The objects first, first + 1, ... are the bricks of the tiles `tiles`. */
  predicate Bricks(objects: map<Id, GameObject>, first: Id, tiles: seq<Tile>, unitWidth: real, unitHeight: real,
                   square: Mesh.Model, textures: LevelTextures, isCurrentLevel: bool)
  {
    forall k :: 0 <= k < |tiles| ==> BrickAt(objects, first + k, tiles[k], unitWidth, unitHeight, square, textures, isCurrentLevel)
  }

  predicate BrickAt(objects: map<Id, GameObject>, id: Id, t: Tile, unitWidth: real, unitHeight: real,
                    square: Mesh.Model, textures: LevelTextures, isCurrentLevel: bool)
  {
    id in objects && IsBrick(objects[id], id, t, unitWidth, unitHeight, square, textures, isCurrentLevel)
  }

  lemma BricksKept(before: map<Id, GameObject>, after: map<Id, GameObject>, first: Id, tiles: seq<Tile>,
                   unitWidth: real, unitHeight: real, square: Mesh.Model, textures: LevelTextures, isCurrentLevel: bool)
    requires Bricks(before, first, tiles, unitWidth, unitHeight, square, textures, isCurrentLevel) && Kept(before, after)
    ensures Bricks(after, first, tiles, unitWidth, unitHeight, square, textures, isCurrentLevel)
  {
    forall k | 0 <= k < |tiles|
      ensures BrickAt(after, first + k, tiles[k], unitWidth, unitHeight, square, textures, isCurrentLevel)
    {
      assert BrickAt(before, first + k, tiles[k], unitWidth, unitHeight, square, textures, isCurrentLevel);
    }
  }

  lemma BricksAppend(objects: map<Id, GameObject>, first: Id, a: seq<Tile>, b: seq<Tile>,
                     unitWidth: real, unitHeight: real, square: Mesh.Model, textures: LevelTextures, isCurrentLevel: bool)
    requires Bricks(objects, first, a, unitWidth, unitHeight, square, textures, isCurrentLevel)
    requires Bricks(objects, first + |a|, b, unitWidth, unitHeight, square, textures, isCurrentLevel)
    ensures Bricks(objects, first, a + b, unitWidth, unitHeight, square, textures, isCurrentLevel)
  {
    forall k | |a| <= k < |a| + |b|
      ensures BrickAt(objects, first + k, (a + b)[k], unitWidth, unitHeight, square, textures, isCurrentLevel)
    {
      assert (a + b)[k] == b[k - |a|] && first + k == (first + |a|) + (k - |a|);
    }
  }

  /** The bricks of the rows placed so far stay, and the next row's follow them. */
  lemma RowPlaced(before: map<Id, GameObject>, after: map<Id, GameObject>, first: Id, done: seq<Tile>, next: Id, row: seq<Tile>,
                  unitWidth: real, unitHeight: real, square: Mesh.Model, textures: LevelTextures, isCurrentLevel: bool)
    requires Bricks(before, first, done, unitWidth, unitHeight, square, textures, isCurrentLevel) && Kept(before, after)
    requires next == first + |done|
    requires Bricks(after, next, row, unitWidth, unitHeight, square, textures, isCurrentLevel)
    ensures Bricks(after, first, done + row, unitWidth, unitHeight, square, textures, isCurrentLevel)
  {
    BricksKept(before, after, first, done, unitWidth, unitHeight, square, textures, isCurrentLevel);
    BricksAppend(after, first, done, row, unitWidth, unitHeight, square, textures, isCurrentLevel);
  }

  /** The background object init creates before the bricks. */
  method PlaceBackground(gom: GameObjectManager, width: nat, height: nat, square: Mesh.Model,
                         textures: LevelTextures, isCurrentLevel: bool) returns (bg: Id)
    requires gom.Valid() && gom.currentId < MAX_GAME_OBJECTS
    modifies gom
    ensures gom.Valid() && bg == old(gom.currentId) && gom.currentId == bg + 1
    ensures bg in gom.gameObjects && IsBackground(gom.gameObjects[bg], bg, width, height, square, textures, isCurrentLevel)
    ensures Kept(old(gom.gameObjects), gom.gameObjects)
  {
    bg := gom.CreateGameObject();
    var b := gom.gameObjects[bg];
    gom.Update(b.(model := Some(square), color := Vec3(1.0, 1.0, 1.0), diffuseMap := Some(textures.background),
                  transform2d := b.transform2d.(translation := Vec3(0.0, 0.0, 0.01),
                                                scale := Vec2((width / 4) as real, (height / 4) as real)),
                  isHidden := !isCurrentLevel));
  }

  class GameLevel {
    var bricks: seq<Id>

    constructor ()
      ensures bricks == []
    {
      bricks := [];
    }

    /** One row of init's inner loop: a brick per nonzero tile of row y within
     *  the level width, left to right. */
    method PlaceRow(gom: GameObjectManager, tileData: seq<seq<nat>>, y: nat, unitWidth: real, unitHeight: real,
                    square: Mesh.Model, textures: LevelTextures, isCurrentLevel: bool)
      requires gom.Valid() && Rectangular(tileData) && y < |tileData|
      requires gom.currentId + |RowTiles(tileData[y], y, |tileData[0]|)| <= MAX_GAME_OBJECTS
      modifies this, gom
      ensures gom.Valid()
      ensures var tiles := RowTiles(tileData[y], y, |tileData[0]|);
        gom.currentId == old(gom.currentId) + |tiles| &&
        bricks == old(bricks) + Ids(old(gom.currentId), |tiles|) &&
        Bricks(gom.gameObjects, old(gom.currentId), tiles, unitWidth, unitHeight, square, textures, isCurrentLevel)
      ensures Kept(old(gom.gameObjects), gom.gameObjects)
    {
      ghost var first, objects0 := gom.currentId, gom.gameObjects;
      var x := 0;
      while x < |tileData[0]|
        invariant x <= |tileData[0]| && gom.Valid()
        invariant gom.currentId == first + |RowTiles(tileData[y], y, x)|
        invariant bricks == old(bricks) + Ids(first, |RowTiles(tileData[y], y, x)|)
        invariant Bricks(gom.gameObjects, first, RowTiles(tileData[y], y, x), unitWidth, unitHeight, square, textures, isCurrentLevel)
        invariant Kept(objects0, gom.gameObjects)
      {
        if tileData[y][x] != 0 {
          ghost var tiles, before := RowTiles(tileData[y], y, x), gom.gameObjects;
          RowTilesPrefix(tileData[y], y, x + 1, |tileData[0]|);
          var id := PlaceBrick(gom, Tile(x, y, tileData[y][x]), unitWidth, unitHeight, square, textures, isCurrentLevel);
          bricks := bricks + [id];
          BricksKept(before, gom.gameObjects, first, tiles, unitWidth, unitHeight, square, textures, isCurrentLevel);
          assert Bricks(gom.gameObjects, first + |tiles|, [Tile(x, y, tileData[y][x])],
                        unitWidth, unitHeight, square, textures, isCurrentLevel);
          BricksAppend(gom.gameObjects, first, tiles, [Tile(x, y, tileData[y][x])],
                       unitWidth, unitHeight, square, textures, isCurrentLevel);
          assert Ids(first, |tiles|) + [id] == Ids(first, |tiles| + 1);
        }
        x := x + 1;
      }
    }

    /** One pass of init's outer loop: row y's bricks follow those of the rows above. */
    method PlaceNextRow(gom: GameObjectManager, tileData: seq<seq<nat>>, y: nat, first: Id, ghost bricks0: seq<Id>,
                        unitWidth: real, unitHeight: real, square: Mesh.Model, textures: LevelTextures, isCurrentLevel: bool)
      requires gom.Valid() && Rectangular(tileData) && y < |tileData|
      requires first + |GridTiles(tileData, |tileData|)| <= MAX_GAME_OBJECTS
      requires gom.currentId == first + |GridTiles(tileData, y)|
      requires bricks == bricks0 + Ids(first, |GridTiles(tileData, y)|)
      requires Bricks(gom.gameObjects, first, GridTiles(tileData, y), unitWidth, unitHeight, square, textures, isCurrentLevel)
      modifies this, gom
      ensures gom.Valid() && gom.currentId == first + |GridTiles(tileData, y + 1)|
      ensures bricks == bricks0 + Ids(first, |GridTiles(tileData, y + 1)|)
      ensures Bricks(gom.gameObjects, first, GridTiles(tileData, y + 1), unitWidth, unitHeight, square, textures, isCurrentLevel)
      ensures Kept(old(gom.gameObjects), gom.gameObjects)
    {
      ghost var done, before := GridTiles(tileData, y), gom.gameObjects;
      ghost var row := RowTiles(tileData[y], y, |tileData[0]|);
      GridTilesGrow(tileData, y + 1, |tileData|);
      assert GridTiles(tileData, y + 1) == done + row;
      var next := gom.currentId;
      ghost var placed := bricks;
      PlaceRow(gom, tileData, y, unitWidth, unitHeight, square, textures, isCurrentLevel);
      RowPlaced(before, gom.gameObjects, first, done, next, row, unitWidth, unitHeight, square, textures, isCurrentLevel);
      assert bricks == placed + Ids(next, |row|);
      IdsAppend(bricks0, first, |done|, |row|);
      assert |GridTiles(tileData, y + 1)| == |done| + |row|;
    }

    /** init: one background object, then one brick per nonzero tile in
     *  row-major order, the ids of the bricks appended to `bricks`. Row 0's
     *  length is the level width; a shorter later row would be read past its
     *  end, so every row must be at least that long. */
    method Init(gom: GameObjectManager, tileData: seq<seq<nat>>, levelWidth: nat, levelHeight: nat,
                isCurrentLevel: bool, textures: LevelTextures, vertexBuffer: Handle, indexBuffer: Handle)
      requires gom.Valid() && Rectangular(tileData)
      requires gom.currentId + 1 + |GridTiles(tileData, |tileData|)| <= MAX_GAME_OBJECTS
      modifies this, gom
      ensures gom.Valid()
      ensures var base := old(gom.currentId); var tiles := GridTiles(tileData, |tileData|);
        var square := Mesh.CreateModel(4, 6, Mesh.NoAttachment, vertexBuffer, indexBuffer).value;
        gom.currentId == base + 1 + |tiles| && bricks == old(bricks) + Ids(base + 1, |tiles|) &&
        base in gom.gameObjects &&
        IsBackground(gom.gameObjects[base], base, |tileData[0]|, |tileData|, square, textures, isCurrentLevel) &&
        Bricks(gom.gameObjects, base + 1, tiles, UnitWidth(levelWidth, |tileData[0]|),
               UnitHeight(levelHeight, |tileData|), square, textures, isCurrentLevel)
      ensures Kept(old(gom.gameObjects), gom.gameObjects)
    {
      var height, width := |tileData|, |tileData[0]|;
      var square := Mesh.CreateModel(4, 6, Mesh.NoAttachment, vertexBuffer, indexBuffer).value;
      var unitWidth, unitHeight := UnitWidth(levelWidth, width), UnitHeight(levelHeight, height);
      var bg := PlaceBackground(gom, width, height, square, textures, isCurrentLevel);
      ghost var background := gom.gameObjects[bg];
      var y := 0;
      while y < height
        invariant y <= height && gom.Valid()
        invariant gom.currentId == bg + 1 + |GridTiles(tileData, y)|
        invariant bricks == old(bricks) + Ids(bg + 1, |GridTiles(tileData, y)|)
        invariant bg in gom.gameObjects && gom.gameObjects[bg] == background
        invariant Bricks(gom.gameObjects, bg + 1, GridTiles(tileData, y), unitWidth, unitHeight, square, textures, isCurrentLevel)
        invariant Kept(old(gom.gameObjects), gom.gameObjects)
      {
        ghost var before := gom.gameObjects;
        PlaceNextRow(gom, tileData, y, bg + 1, old(bricks), unitWidth, unitHeight, square, textures, isCurrentLevel);
        KeptTrans(old(gom.gameObjects), before, gom.gameObjects);
        y := y + 1;
      }
    }

    /** load: `bricks` is cleared first; a file that cannot be opened or has no
     *  lines leaves it empty, any other file is handed to init. */
    method Load(gom: GameObjectManager, file: Option<string>, levelWidth: nat, levelHeight: nat,
                isCurrentLevel: bool, textures: LevelTextures, vertexBuffer: Handle, indexBuffer: Handle)
      requires gom.Valid()
      requires file.Some? && ParseLevel(file.value) != [] ==>
        Rectangular(ParseLevel(file.value)) &&
        gom.currentId + 1 + |GridTiles(ParseLevel(file.value), |ParseLevel(file.value)|)| <= MAX_GAME_OBJECTS
      modifies this, gom
      ensures gom.Valid()
      ensures file.None? || ParseLevel(file.value) == [] ==>
        bricks == [] && gom.currentId == old(gom.currentId) && gom.gameObjects == old(gom.gameObjects)
      ensures file.Some? && ParseLevel(file.value) != [] ==>
        bricks == Ids(old(gom.currentId) + 1, |GridTiles(ParseLevel(file.value), |ParseLevel(file.value)|)|)
    {
      bricks := [];
      if file.Some? {
        var tileData := ReadLevel(file.value);
        if tileData != [] {
          Init(gom, tileData, levelWidth, levelHeight, isCurrentLevel, textures, vertexBuffer, indexBuffer);
        }
      }
    }
  }

  lemma {:induction false} GridTilesGrow(tileData: seq<seq<nat>>, h: nat, n: nat)
    requires Rectangular(tileData) && 0 < h <= n <= |tileData|
    ensures |GridTiles(tileData, h)| <= |GridTiles(tileData, n)|
    decreases n - h
  {
    if h < n {
      GridTilesGrow(tileData, h, n - 1);
    }
  }

  lemma {:induction false} RowTilesPrefix(row: seq<nat>, y: nat, x: nat, n: nat)
    requires x <= n <= |row|
    ensures |RowTiles(row, y, x)| <= |RowTiles(row, y, n)|
    decreases n - x
  {
    if x < n {
      RowTilesPrefix(row, y, x, n - 1);
    }
  }

  /** One brick of init's inner loop. */
  method PlaceBrick(gom: GameObjectManager, t: Tile, unitWidth: real, unitHeight: real,
                    square: Mesh.Model, textures: LevelTextures, isCurrentLevel: bool)
    returns (id: Id)
    requires gom.Valid() && gom.currentId < MAX_GAME_OBJECTS && t.code != 0
    modifies gom
    ensures gom.Valid() && id == old(gom.currentId) && gom.currentId == id + 1
    ensures BrickAt(gom.gameObjects, id, t, unitWidth, unitHeight, square, textures, isCurrentLevel)
    ensures Kept(old(gom.gameObjects), gom.gameObjects)
  {
    id := gom.CreateGameObject();
    var o := gom.gameObjects[id];
    var pos := Vec3(unitWidth * t.x as real - 0.93, unitHeight * t.y as real - 0.95, 0.0);
    gom.Update(o.(diffuseMap := Some(if t.code == 1 then textures.blockSolid else textures.block),
                  transform2d := o.transform2d.(translation := pos, scale := Vec2(unitWidth, unitHeight)),
                  color := if t.code == 1 then SOLID_COLOR else BrickColor(t.code),
                  isSolid := t.code == 1, model := Some(square), isHidden := !isCurrentLevel));
  }

  // ---------------------------------------------------------------------
  // Moving the ball
  // ---------------------------------------------------------------------

  /** The x position and velocity after the side walls: a ball past the left
   *  wall or touching the right one is put back on it with x velocity reversed. */
  function ReflectX(x: real, vx: real, width: real, windowWidth: real): (r: (real, real))
    ensures r.0 == -1.0 || r.0 + width <= windowWidth
    ensures r.1 == vx || r.1 == -vx
    ensures !(x <= -1.0 || x + width >= windowWidth) ==> r == (x, vx)
  {
    if x <= -1.0 then (-1.0, -vx)
    else if x + width >= windowWidth then (windowWidth - width, -vx)
    else (x, vx)
  }

  /** The y position and velocity after the top wall; the bottom edge does nothing. */
  function ReflectY(y: real, vy: real): (r: (real, real))
    ensures r.0 >= -1.0 && (r.0 == y || r.0 == -1.0)
    ensures y > -1.0 ==> r == (y, vy)
    ensures r.1 == vy || r.1 == -vy
  {
    if y <= -1.0 then (-1.0, -vy) else (y, vy)
  }

  /** updateBallPos for a ball object: a free ball moves by velocity * dt and
   *  bounces off the left, right and top walls. A stuck ball only follows the
   *  player's x. */
  function MovedBall(ball: GameObject, player: GameObject, dt: real, windowWidth: nat): (r: GameObject)
    requires ball.ball.Some?
    ensures ball.ball.value.stuck ==>
      r == ball.(transform2d := ball.transform2d.(translation := ball.transform2d.translation.(x := player.transform2d.translation.x)))
    ensures !ball.ball.value.stuck ==>
      r == ball.(transform2d := ball.transform2d.(translation := r.transform2d.translation), rigidBody2d := r.rigidBody2d)
    ensures !ball.ball.value.stuck ==>
      (r.transform2d.translation.y >= -1.0 &&
       (r.transform2d.translation.x == -1.0 || r.transform2d.translation.x + ball.transform2d.scale.x <= windowWidth as real))
  {
    if ball.ball.value.stuck then
      ball.(transform2d := ball.transform2d.(translation := ball.transform2d.translation.(x := player.transform2d.translation.x)))
    else
      var v := ball.rigidBody2d.velocity;
      var t := ball.transform2d.translation;
      var rx := ReflectX(t.x + v.x * dt, v.x, ball.transform2d.scale.x, windowWidth as real);
      var ry := ReflectY(t.y + v.y * dt, v.y);
      ball.(transform2d := ball.transform2d.(translation := Vec3(rx.0, ry.0, t.z)),
            rigidBody2d := ball.rigidBody2d.(velocity := Vec2(rx.1, ry.1)))
  }

  /** The Breakout app's ball and paddle: pointers to objects of the manager. */
  class Breakout {
    const gom: GameObjectManager
    const ballId: Id
    const playerId: Id

    ghost predicate Valid()
      reads this, gom
    {
      gom.Valid() && ballId in gom.gameObjects && playerId in gom.gameObjects &&
      gom.gameObjects[ballId].ball.Some?
    }

    constructor (gom: GameObjectManager, ballId: Id, playerId: Id)
      requires gom.Valid() && ballId in gom.gameObjects && playerId in gom.gameObjects
      requires gom.gameObjects[ballId].ball.Some?
      ensures Valid() && this.gom == gom && this.ballId == ballId && this.playerId == playerId
    {
      this.gom := gom;
      this.ballId := ballId;
      this.playerId := playerId;
    }

    /** updateBallPos: only the ball object changes. */
    method UpdateBallPos(dt: real, windowWidth: nat)
      requires Valid()
      modifies gom`gameObjects
      ensures Valid()
      ensures gom.gameObjects ==
        old(gom.gameObjects)[ballId := MovedBall(old(gom.gameObjects[ballId]), old(gom.gameObjects[playerId]), dt, windowWidth)]
    {
      var ball := gom.gameObjects[ballId];
      gom.Update(MovedBall(ball, gom.gameObjects[playerId], dt, windowWidth));
    }
  }
}
