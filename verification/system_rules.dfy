/**
 * The deterministic rules inside the systems of src/Scene/Systems.hpp, as functions:
 * the tile grid and its texture cache, the placement of tile draws, the effect of a key
 * event on the player's speed, one movement step, and the camera-relative sprite draw.
 * The system classes in module Scene are proved against these.
 */
module SystemRules {
  import opened Wrappers
  import opened Components
  import opened Backend

  // ------------------------------------------------------------------------------
  // Tile map (TilemapSystem)
  // ------------------------------------------------------------------------------

  const TilesCount := 4
  const TilesWidth := 20
  const TilesHeight := 20
  const OriginX := 0
  const OriginY := 0
  const TileWidth := 32
  const TileHeight := 32

  /** The number of cells of the flat lookup table. */
  const CellCount := TilesWidth * TilesHeight

  /**
   * The initialised part of the 20 x 20 grid of tile codes: ten rows of ten codes. Every
   * cell outside it is zero-initialised.
   */
  const MmapRows: seq<seq<int>> := [
    [0, 0, 0, 0, 0, 0, 0, 0, 0, 0],
    [0, 0, 0, 0, 0, 0, 0, 0, 0, 0],
    [0, 0, 0, 0, 0, 0, 0, 0, 0, 0],
    [0, 0, 0, 0, 0, 0, 0, 0, 0, 0],
    [0, 0, 0, 0, 0, 0, 1, 1, 1, 1],
    [0, 0, 0, 0, 0, 0, 1, 1, 1, 1],
    [0, 0, 0, 0, 0, 0, 1, 1, 1, 1],
    [0, 0, 0, 0, 0, 0, 1, 1, 1, 1],
    [0, 0, 0, 0, 0, 0, 1, 1, 1, 1],
    [0, 0, 0, 0, 0, 0, 1, 1, 1, 1]
  ]

  /** The image of each tile code; only the first two of the four slots are set. */
  const Files: seq<string> := ["assets/tiles/floor.png", "assets/tiles/grass.png", "", ""]

  /**
   * The tile code of cell (i, j) of the grid: 1 on rows 4 to 9 of columns 6 to 9 of the
   * initialised part, 0 everywhere else (MmapRowsAgree checks it against the table).
   */
  function Mmap(i: nat, j: nat): (code: int)
    requires i < TilesWidth && j < TilesHeight
    ensures code == 0 || code == 1
    ensures 0 <= code < TilesCount && Files[code] != ""
  {
    if 4 <= i < 10 && 6 <= j < 10 then 1 else 0
  }

  lemma MmapRowsAgree()
    ensures |MmapRows| == 10
    ensures forall i, j | 0 <= i < 10 && 0 <= j < 10 :: j < |MmapRows[i]| && MmapRows[i][j] == Mmap(i, j)
  {
    var zeros := [0, 0, 0, 0, 0, 0, 0, 0, 0, 0];
    var grass := [0, 0, 0, 0, 0, 0, 1, 1, 1, 1];
    assert MmapRows == [zeros, zeros, zeros, zeros, grass, grass, grass, grass, grass, grass];
  }

  /** The slot of cell (i, j) in the flat lookup table. */
  function CellIndex(i: nat, j: nat): (k: nat)
    requires i < TilesWidth && j < TilesHeight
    ensures k < CellCount
    ensures k / TilesWidth == i && k % TilesWidth == j
  {
    i * TilesWidth + j
  }

  /** The tile code of the cell whose slot in the flat table is `k`. */
  function CellCode(k: nat): (code: int)
    requires k < CellCount
    ensures code == 0 || code == 1
  {
    Mmap(k / TilesWidth, k % TilesWidth)
  }

  /** The tile codes of the table's slots, in row-major order. */
  function GridCodes(): (codes: seq<int>)
    ensures |codes| == CellCount
    ensures InSlots(codes)
  {
    seq(CellCount, k requires 0 <= k < CellCount => CellCode(k))
  }

  /**
   * The table a tile map holds once each slot has the texture cached for its cell's code;
   * a slot whose code is not cached would hold the null texture.
   */
  function FilledTable(tiles: map<int, TextureId>): (table: seq<TextureId>)
    ensures |table| == CellCount
  {
    seq(CellCount, k requires 0 <= k < CellCount => if CellCode(k) in tiles then tiles[CellCode(k)] else NullTexture)
  }

  /** `table` is the filled table of the cache `tiles`, which holds every code of the grid. */
  predicate FilledFrom(table: seq<TextureId>, tiles: map<int, TextureId>)
  {
    && table == FilledTable(tiles)
    && forall k | 0 <= k < CellCount :: CellCode(k) in tiles
  }

  /** Every code of `codes` names one of the `TilesCount` image slots. */
  predicate InSlots(codes: seq<int>)
  {
    forall k | 0 <= k < |codes| :: 0 <= codes[k] < TilesCount
  }

  /** The set of codes occurring in `codes`. */
  function Seen(codes: seq<int>): (r: set<int>)
    ensures forall c :: c in r <==> c in codes
  {
    if codes == [] then {}
    else
      assert codes == codes[..|codes| - 1] + [codes[|codes| - 1]];
      Seen(codes[..|codes| - 1]) + {codes[|codes| - 1]}
  }

  /** The texture cache of the tile map together with the renderer's texture creations. */
  datatype CacheState = CacheState(tiles: map<int, TextureId>, created: seq<Origin>)

  /** The codes whose image slot names a file, so that loading it yields a surface. */
  function Loadable(): (r: set<int>)
    ensures forall c :: c in r <==> 0 <= c < TilesCount && Files[c] != ""
  {
    set c | 0 <= c < TilesCount && Files[c] != ""
  }

  /**
   * One cell of the setup walk: a cached code keeps its texture; an unknown code gets the
   * texture created from its image file, or the null texture when its slot names no
   * file, and that texture is cached either way.
   */
  function CacheStep(st: CacheState, code: int): (r: CacheState)
    requires 0 <= code < TilesCount
    ensures code in r.tiles && r.tiles.Keys == st.tiles.Keys + {code}
    ensures forall c | c in st.tiles :: r.tiles[c] == st.tiles[c]
    ensures st.created <= r.created
    ensures |r.created| == |st.created| + (if code in st.tiles || Files[code] == "" then 0 else 1)
    ensures code !in st.tiles && Files[code] == "" ==> r.tiles[code] == NullTexture
    ensures code !in st.tiles && Files[code] != "" ==>
      r.tiles[code] == |r.created| && r.created[r.tiles[code] - 1] == FromSurface(Files[code])
  {
    if code in st.tiles then st
    else if Files[code] == "" then CacheState(st.tiles[code := NullTexture], st.created)
    else CacheState(st.tiles[code := |st.created| + 1], st.created + [FromSurface(Files[code])])
  }

  /**
   * The cache after the setup walk has visited cells with the given codes, in order. It
   * creates at most one texture per cell visited.
   */
  function Walk(st: CacheState, codes: seq<int>): (r: CacheState)
    requires InSlots(codes)
    ensures |r.created| <= |st.created| + |codes|
  {
    if codes == [] then st
    else
      CacheStep(Walk(st, codes[..|codes| - 1]), codes[|codes| - 1])
  }

  /** Visiting one more cell is one more cache step. */
  lemma WalkSnoc(st: CacheState, codes: seq<int>, k: nat)
    requires InSlots(codes) && k < |codes|
    ensures InSlots(codes[..k]) && InSlots(codes[..k + 1])
    ensures Walk(st, codes[..k + 1]) == CacheStep(Walk(st, codes[..k]), codes[k])
  {
    assert codes[..k + 1][..k] == codes[..k];
  }

  /** The walk never replaces a cached texture. */
  lemma {:induction false} WalkKeeps(st: CacheState, codes: seq<int>)
    requires InSlots(codes)
    ensures forall c | c in st.tiles :: c in Walk(st, codes).tiles && Walk(st, codes).tiles[c] == st.tiles[c]
  {
    if codes != [] {
      WalkKeeps(st, codes[..|codes| - 1]);
    }
  }

  /** The walk caches exactly the codes it visited, besides those cached before. */
  lemma {:induction false} WalkCaches(st: CacheState, codes: seq<int>)
    requires InSlots(codes)
    ensures Walk(st, codes).tiles.Keys == st.tiles.Keys + Seen(codes)
  {
    if codes != [] {
      WalkCaches(st, codes[..|codes| - 1]);
    }
  }

  /** The walk over the grid leaves every code of the grid cached. */
  lemma WalkCachesGrid(st: CacheState)
    ensures forall k | 0 <= k < CellCount :: CellCode(k) in Walk(st, GridCodes()).tiles
  {
    WalkCaches(st, GridCodes());
    forall k | 0 <= k < CellCount
      ensures CellCode(k) in Walk(st, GridCodes()).tiles
    {
      assert GridCodes()[k] == CellCode(k);
    }
  }

  /** The walk only appends to the renderer's creations. */
  lemma {:induction false} WalkAppends(st: CacheState, codes: seq<int>)
    requires InSlots(codes)
    ensures st.created <= Walk(st, codes).created
  {
    if codes != [] {
      WalkAppends(st, codes[..|codes| - 1]);
    }
  }

  /**
   * The walk creates one texture per visited code that was not cached when it started and
   * whose slot names a file.
   */
  lemma {:induction false} WalkCreatesOnMiss(st: CacheState, codes: seq<int>)
    requires InSlots(codes)
    ensures |Walk(st, codes).created| == |st.created| + |(Seen(codes) - st.tiles.Keys) * Loadable()|
  {
    if codes != [] {
      var init := codes[..|codes| - 1];
      WalkCreatesOnMiss(st, init);
      WalkCaches(st, init);
      CacheStepCount(Walk(st, init), codes[|codes| - 1], Seen(init), st.tiles.Keys);
    }
  }

  /** One step of the walk creates a texture exactly when its code is newly seen and loadable. */
  lemma CacheStepCount(p: CacheState, code: int, seen: set<int>, cached: set<int>)
    requires 0 <= code < TilesCount && p.tiles.Keys == cached + seen
    ensures |CacheStep(p, code).created| - |p.created|
         == |((seen + {code}) - cached) * Loadable()| - |(seen - cached) * Loadable()|
  {
    if code !in seen + cached && Files[code] != "" {
      assert ((seen + {code}) - cached) * Loadable() == ((seen - cached) * Loadable()) + {code};
    } else {
      assert ((seen + {code}) - cached) * Loadable() == (seen - cached) * Loadable();
    }
  }

  /**
   * Every texture cached in `r` but not in `st` was created after `st`, from the file its
   * code names; a code whose slot names no file is cached with the null texture.
   */
  predicate CreatedFromFiles(st: CacheState, r: CacheState)
  {
    && st.created <= r.created
    && forall c | c in r.tiles && c !in st.tiles ::
         && 0 <= c < TilesCount
         && (Files[c] == "" ==> r.tiles[c] == NullTexture)
         && (Files[c] != "" ==>
               && |st.created| < r.tiles[c] <= |r.created|
               && r.created[r.tiles[c] - 1] == FromSurface(Files[c]))
  }

  /** One cache step keeps every cached texture created from its file. */
  lemma CacheStepFromFiles(st: CacheState, p: CacheState, code: int)
    requires 0 <= code < TilesCount && CreatedFromFiles(st, p)
    ensures CreatedFromFiles(st, CacheStep(p, code))
  {
    var r := CacheStep(p, code);
    forall c | c in r.tiles && c !in st.tiles && Files[c] != ""
      ensures |st.created| < r.tiles[c] <= |r.created| && r.created[r.tiles[c] - 1] == FromSurface(Files[c])
    {
      if c in p.tiles {
        assert r.created[..|p.created|] == p.created;
      }
    }
  }

  /** Every texture the walk caches for a code that names a file was created by it, from that file. */
  lemma {:induction false} WalkCreatesFromFile(st: CacheState, codes: seq<int>)
    requires InSlots(codes)
    ensures CreatedFromFiles(st, Walk(st, codes))
  {
    if codes != [] {
      WalkCreatesFromFile(st, codes[..|codes| - 1]);
      CacheStepFromFiles(st, Walk(st, codes[..|codes| - 1]), codes[|codes| - 1]);
    }
  }

  /** Cache contents while only code 0 has been seen, and once both codes have. */
  function FloorOnly(c0: seq<Origin>): CacheState
  {
    CacheState(map[0 := |c0| + 1], c0 + [FromSurface(Files[0])])
  }

  function FloorAndGrass(c0: seq<Origin>): CacheState
  {
    CacheState(map[0 := |c0| + 1, 1 := |c0| + 2], c0 + [FromSurface(Files[0]), FromSurface(Files[1])])
  }

  /** On an empty cache, a walk over codes 0 and 1 that starts with 0 creates floor, then grass. */
  lemma {:induction false} FreshWalk(c0: seq<Origin>, codes: seq<int>)
    requires codes != [] && codes[0] == 0 && forall k | 0 <= k < |codes| :: codes[k] == 0 || codes[k] == 1
    ensures Walk(CacheState(map[], c0), codes) == if 1 in codes then FloorAndGrass(c0) else FloorOnly(c0)
  {
    var init := codes[..|codes| - 1];
    if init == [] {
      assert codes == [0];
    } else {
      assert init[0] == 0;
      FreshWalk(c0, init);
      var code := codes[|codes| - 1];
      assert codes == init + [code];
      if code == 1 && 1 !in init {
        assert FloorOnly(c0).tiles[1 := |FloorOnly(c0).created| + 1] == FloorAndGrass(c0).tiles;
      }
    }
  }

  /** The grid holds exactly the codes 0 and 1. */
  lemma GridHoldsFloorAndGrass()
    ensures Seen(GridCodes()) == {0, 1}
    ensures GridCodes()[0] == 0
  {
    assert GridCodes()[86] == CellCode(86) == 1;
    assert GridCodes()[0] == CellCode(0) == 0;
  }

  /**
   * On an empty cache, the walk of the whole grid creates exactly two textures, the floor
   * and then the grass image, and caches them under codes 0 and 1.
   */
  lemma FreshSetupCreatesTwo(c0: seq<Origin>)
    ensures InSlots(GridCodes())
    ensures Walk(CacheState(map[], c0), GridCodes()) == CacheState(
      map[0 := |c0| + 1, 1 := |c0| + 2],
      c0 + [FromSurface("assets/tiles/floor.png"), FromSurface("assets/tiles/grass.png")])
  {
    GridHoldsFloorAndGrass();
    FreshWalk(c0, GridCodes());
  }

  /**
   * The draw of table slot `k`: the slot's texture, unclipped, as one tile placed on the
   * 32-pixel grid inside the 640 x 640 field.
   */
  function CellDraw(tilemap: seq<TextureId>, k: nat): (d: Draw)
    requires k < |tilemap|
    ensures d.texture == tilemap[k] && d.src == None
    ensures d.dst.w == TileWidth && d.dst.h == TileHeight
    ensures k < CellCount ==>
      && 0 <= d.dst.x < TilesHeight * TileWidth && d.dst.x % TileWidth == 0
      && 0 <= d.dst.y < TilesWidth * TileHeight && d.dst.y % TileHeight == 0
  {
    Draw(tilemap[k], None,
         Rect(OriginX + (k % TilesWidth) * TileWidth, OriginY + (k / TilesWidth) * TileHeight, TileWidth, TileHeight))
  }

  /** The draws of the first `k` slots of the table: one per slot, in slot order. */
  function TileDrawsUpTo(tilemap: seq<TextureId>, k: nat): (draws: seq<Draw>)
    requires k <= |tilemap|
    ensures |draws| == k
    ensures forall m | 0 <= m < k :: draws[m] == CellDraw(tilemap, m)
  {
    if k == 0 then [] else TileDrawsUpTo(tilemap, k - 1) + [CellDraw(tilemap, k - 1)]
  }

  /** The draws of one tile-map render: one per table slot, in slot order. */
  function TileDraws(tilemap: seq<TextureId>): (draws: seq<Draw>)
    requires |tilemap| == CellCount
    ensures |draws| == CellCount
    ensures forall k | 0 <= k < CellCount :: draws[k] == CellDraw(tilemap, k)
  {
    TileDrawsUpTo(tilemap, CellCount)
  }

  /**
   * One tile-map render draws every cell once: cell (i, j) with its table texture, no
   * clip, at (j * 32, i * 32) and 32 x 32 in size.
   */
  lemma TileDrawPlacement(tilemap: seq<TextureId>, i: nat, j: nat)
    requires |tilemap| == CellCount && i < TilesWidth && j < TilesHeight
    ensures |TileDraws(tilemap)| == CellCount
    ensures TileDraws(tilemap)[CellIndex(i, j)] ==
      Draw(tilemap[CellIndex(i, j)], None, Rect(j * 32, i * 32, 32, 32))
  {
  }

  /** Tile draws come in row-major order: top rows first, left to right within a row. */
  lemma TileDrawsRowMajor(tilemap: seq<TextureId>, k: nat, k': nat)
    requires |tilemap| == CellCount && k < k' < CellCount
    ensures |TileDraws(tilemap)| == CellCount
    ensures var d, d' := TileDraws(tilemap)[k].dst, TileDraws(tilemap)[k'].dst;
      d.y < d'.y || (d.y == d'.y && d.x < d'.x)
  {
  }

  // ------------------------------------------------------------------------------
  // Player input (PlayerInputSystem)
  // ------------------------------------------------------------------------------

  /** The speed an arrow key sets, in pixels per second. */
  const Speed := 100

  datatype Axis = Horizontal | Vertical

  /** The axis an arrow key steers and the sign of its direction; other keys steer none. */
  function Steers(k: Key): Option<(Axis, int)>
  {
    match k
    case Left => Some((Horizontal, -1))
    case Right => Some((Horizontal, 1))
    case Up => Some((Vertical, -1))
    case Down => Some((Vertical, 1))
    case OtherKey(_) => None
  }

  /** The axis an event writes and the speed it writes there, if any. */
  function Write(ev: Event): Option<(Axis, int)>
  {
    match ev
    case KeyDown(k) => (match Steers(k) case Some((a, sign)) => Some((a, sign * Speed)) case None => None)
    case KeyUp(k) => (match Steers(k) case Some((a, _)) => Some((a, 0)) case None => None)
    case OtherEvent => None
  }

  function SpeedOn(m: Movement, a: Axis): int
  {
    match a
    case Horizontal => m.speedX
    case Vertical => m.speedY
  }

  function SetSpeed(m: Movement, a: Axis, v: int): Movement
  {
    match a
    case Horizontal => m.(speedX := v)
    case Vertical => m.(speedY := v)
  }

  /**
   * The player's Movement after one event, following the two switches of the input
   * system; it writes the one axis the event steers and keeps the other.
   */
  function KeyEffect(m: Movement, ev: Event): (r: Movement)
    ensures Write(ev).None? ==> r == m
    ensures Write(ev).Some? ==> r == SetSpeed(m, Write(ev).value.0, Write(ev).value.1)
  {
    var afterDown :=
      if ev.KeyDown? then
        match ev.key
        case Left => m.(speedX := -Speed)
        case Right => m.(speedX := Speed)
        case Up => m.(speedY := -Speed)
        case Down => m.(speedY := Speed)
        case OtherKey(_) => m
      else m;
    if ev.KeyUp? then
      match ev.key
      case Left => afterDown.(speedX := 0)
      case Right => afterDown.(speedX := 0)
      case Up => afterDown.(speedY := 0)
      case Down => afterDown.(speedY := 0)
      case OtherKey(_) => afterDown
    else afterDown
  }

  /** The player's Movement after a sequence of events, one input run per event. */
  function Replay(m: Movement, evs: seq<Event>): Movement
  {
    if evs == [] then m else KeyEffect(Replay(m, evs[..|evs| - 1]), evs[|evs| - 1])
  }

  /** The speed the last event writing axis `a` wrote, if any did. */
  function LastWrite(evs: seq<Event>, a: Axis): Option<int>
  {
    if evs == [] then None
    else
      match Write(evs[|evs| - 1])
      case Some((a', v)) => if a' == a then Some(v) else LastWrite(evs[..|evs| - 1], a)
      case None => LastWrite(evs[..|evs| - 1], a)
  }

  /** Last write wins per axis: each speed is the one its axis's last event wrote. */
  lemma {:induction false} LastWriteWins(m: Movement, evs: seq<Event>, a: Axis)
    ensures SpeedOn(Replay(m, evs), a) == match LastWrite(evs, a) case Some(v) => v case None => SpeedOn(m, a)
  {
    if evs != [] {
      LastWriteWins(m, evs[..|evs| - 1], a);
    }
  }

  /** Pressing LEFT and then RIGHT, without releasing LEFT, moves right at full speed. */
  lemma LeftThenRight(m: Movement)
    ensures Replay(m, [KeyDown(Left), KeyDown(Right)]) == Movement(Speed, m.speedY)
  {
    var evs := [KeyDown(Left), KeyDown(Right)];
    assert evs[..1] == [KeyDown(Left)] && evs[..1][..0] == [];
    assert Replay(m, evs[..1]) == Movement(-Speed, m.speedY);
  }

  /**
   * The Movement after the same event is handed to `n` input systems in turn. An event
   * that steers no axis leaves it as it was, however many systems see it.
   */
  function KeyEffectTimes(m: Movement, ev: Event, n: nat): (r: Movement)
    ensures Write(ev).None? ==> r == m
  {
    if n == 0 then m else KeyEffect(KeyEffectTimes(m, ev, n - 1), ev)
  }

  /** Handing one event to several input systems has the effect of handing it to one. */
  lemma {:induction false} KeyEffectTimesOnce(m: Movement, ev: Event, n: nat)
    requires n >= 1
    ensures KeyEffectTimes(m, ev, n) == KeyEffect(m, ev)
  {
    if n > 1 {
      KeyEffectTimesOnce(m, ev, n - 1);
    }
  }

  // ------------------------------------------------------------------------------
  // Movement (MovementUpdateSystem)
  // ------------------------------------------------------------------------------

  /** The conversion of a floating-point value to `int`: truncation toward zero. */
  function TruncateTowardZero(v: real): (n: int)
    ensures v >= 0.0 ==> n as real <= v < n as real + 1.0
    ensures v < 0.0 ==> n as real - 1.0 < v <= n as real
  {
    if v >= 0.0 then v.Floor else -((-v).Floor)
  }

  /**
   * `p += speed * dT` on an `int` position: the exact new position, truncated toward zero
   * to a whole pixel; no speed, no move.
   */
  function Advance(p: int, speed: int, dT: real): (r: int)
    ensures var v := p as real + speed as real * dT;
      && (v >= 0.0 ==> r as real <= v < r as real + 1.0)
      && (v < 0.0 ==> r as real - 1.0 < v <= r as real)
    ensures speed == 0 ==> r == p
  {
    TruncateTowardZero(p as real + speed as real * dT)
  }

  /** One update of a position by a speed over `dT` seconds, each axis on its own. */
  function Step(pos: Transform, vel: Movement, dT: real): (r: Transform)
    ensures vel.speedX == 0 ==> r.posX == pos.posX
    ensures vel.speedY == 0 ==> r.posY == pos.posY
  {
    Transform(Advance(pos.posX, vel.speedX, dT), Advance(pos.posY, vel.speedY, dT))
  }

  /** A whole displacement is added exactly. */
  lemma AdvanceWhole(p: int, speed: int, dT: real, d: int)
    requires speed as real * dT == d as real
    ensures Advance(p, speed, dT) == p + d
  {
  }

  /** Each axis of a step depends on that axis's position and speed only. */
  lemma StepAxesIndependent(pos: Transform, vel: Movement, pos': Transform, vel': Movement, dT: real)
    ensures pos.posX == pos'.posX && vel.speedX == vel'.speedX ==> Step(pos, vel, dT).posX == Step(pos', vel', dT).posX
    ensures pos.posY == pos'.posY && vel.speedY == vel'.speedY ==> Step(pos, vel, dT).posY == Step(pos', vel', dT).posY
  {
  }

  /**
   * The transforms after one movement update: every entity with a Movement steps; the
   * same entities stay positioned and those without a Movement stay where they were.
   */
  function MoveAll(transforms: map<EntityId, Transform>, movements: map<EntityId, Movement>, dT: real)
    : (r: map<EntityId, Transform>)
    ensures r.Keys == transforms.Keys
    ensures forall e | e in transforms && e !in movements :: r[e] == transforms[e]
  {
    map e | e in transforms :: if e in movements then Step(transforms[e], movements[e], dT) else transforms[e]
  }

  /**
   * The transforms after `n` movement updates with the same `dT`: the same entities stay
   * positioned, and those without a Movement stay where they were.
   */
  function MoveTimes(transforms: map<EntityId, Transform>, movements: map<EntityId, Movement>, dT: real, n: nat)
    : (r: map<EntityId, Transform>)
    ensures r.Keys == transforms.Keys
    ensures forall e | e in transforms && e !in movements :: r[e] == transforms[e]
  {
    if n == 0 then transforms else MoveAll(MoveTimes(transforms, movements, dT, n - 1), movements, dT)
  }

  /**
   * An update keeps the set of positioned entities, leaves every entity without a Movement
   * and every entity with zero speed where it was.
   */
  lemma MoveAllKeeps(transforms: map<EntityId, Transform>, movements: map<EntityId, Movement>, dT: real)
    ensures MoveAll(transforms, movements, dT).Keys == transforms.Keys
    ensures forall e | e in transforms && (e !in movements || movements[e] == Movement(0, 0)) ::
      MoveAll(transforms, movements, dT)[e] == transforms[e]
  {
  }

  /** Repeated updates never move an entity that has no Movement or a zero one. */
  lemma {:induction false} MoveTimesKeeps(transforms: map<EntityId, Transform>, movements: map<EntityId, Movement>,
                                          dT: real, n: nat, e: EntityId)
    requires e in transforms && (e !in movements || movements[e] == Movement(0, 0))
    ensures e in MoveTimes(transforms, movements, dT, n)
    ensures MoveTimes(transforms, movements, dT, n)[e] == transforms[e]
  {
    if n > 0 {
      MoveTimesKeeps(transforms, movements, dT, n - 1, e);
    }
  }

  /** A player at (100, 100) with speed (100, 0) is at (110, 100) after a tenth of a second. */
  lemma StepExample()
    ensures Step(Transform(100, 100), Movement(100, 0), 0.1) == Transform(110, 100)
  {
    AdvanceWhole(100, 100, 0.1, 10);
  }

  // ------------------------------------------------------------------------------
  // Sprites (SpriteRenderSystem)
  // ------------------------------------------------------------------------------

  /**
   * The draw of one sprite: its texture clipped to its source square, drawn at the same
   * size where the camera's position plus the screen position is the entity's position.
   */
  function SpriteDraw(pos: Transform, sprite: Sprite, camera: Transform): (d: Draw)
    ensures d.texture == sprite.texture && d.src == Some(Rect(sprite.x, sprite.y, sprite.size, sprite.size))
    ensures camera.posX + d.dst.x == pos.posX && camera.posY + d.dst.y == pos.posY
    ensures d.dst.w == sprite.size && d.dst.h == sprite.size
  {
    Draw(sprite.texture,
         Some(Rect(sprite.x, sprite.y, sprite.size, sprite.size)),
         Rect(pos.posX - camera.posX, pos.posY - camera.posY, sprite.size, sprite.size))
  }

  /**
   * The draws of the sprites of `order`, in that order: the `k`-th draws the texture of
   * the `k`-th entity's sprite at its position relative to the camera.
   */
  function SpriteDraws(order: seq<EntityId>, transforms: map<EntityId, Transform>,
                       sprites: map<EntityId, Sprite>, camera: Transform): (draws: seq<Draw>)
    requires forall e | e in order :: e in transforms && e in sprites
    ensures |draws| == |order|
    ensures forall k | 0 <= k < |order| ::
      && draws[k].texture == sprites[order[k]].texture
      && camera.posX + draws[k].dst.x == transforms[order[k]].posX
      && camera.posY + draws[k].dst.y == transforms[order[k]].posY
  {
    seq(|order|, k requires 0 <= k < |order| => SpriteDraw(transforms[order[k]], sprites[order[k]], camera))
  }

  /** The camera's own sprite is drawn at the screen origin. */
  lemma CameraAtOrigin(camera: Transform, sprite: Sprite)
    ensures SpriteDraw(camera, sprite, camera).dst == Rect(0, 0, sprite.size, sprite.size)
  {
  }

  /** Moving an entity and the camera by the same offset does not move its draw. */
  lemma SpriteDrawFollowsCamera(pos: Transform, sprite: Sprite, camera: Transform, dx: int, dy: int)
    ensures SpriteDraw(Transform(pos.posX + dx, pos.posY + dy), sprite, Transform(camera.posX + dx, camera.posY + dy))
         == SpriteDraw(pos, sprite, camera)
  {
  }

  /** A sprite at (150, 120) seen from a camera at (100, 100) is drawn at (50, 20). */
  lemma SpriteDrawExample(sprite: Sprite)
    ensures SpriteDraw(Transform(150, 120), sprite, Transform(100, 100)).dst == Rect(50, 20, sprite.size, sprite.size)
  {
  }

  /** `order` lists every member of `s` exactly once: one pass over a view. */
  predicate Enumerates(order: seq<EntityId>, s: set<EntityId>)
  {
    && (forall i, j | 0 <= i < j < |order| :: order[i] != order[j])
    && (forall e | e in order :: e in s)
    && (forall e | e in s :: e in order)
  }

  /** A pass over a view visits as many entities as the view holds. */
  lemma {:induction false} EnumeratesSize(order: seq<EntityId>, s: set<EntityId>)
    requires Enumerates(order, s)
    ensures |order| == |s|
  {
    if order != [] {
      var last := order[|order| - 1];
      var init := order[..|order| - 1];
      forall e
        ensures e in init <==> e in s - {last}
      {
        if e in init {
          var k :| 0 <= k < |init| && init[k] == e;
          assert order[k] == e;
        }
        if e in s - {last} {
          var k :| 0 <= k < |order| && order[k] == e;
          assert k < |order| - 1;
          assert init[k] == e;
        }
      }
      EnumeratesSize(init, s - {last});
    }
  }

  /** Drawing one more sprite appends its draw. */
  lemma SpriteDrawsSnoc(order: seq<EntityId>, e: EntityId, transforms: map<EntityId, Transform>,
                        sprites: map<EntityId, Sprite>, camera: Transform)
    requires forall x | x in order :: x in transforms && x in sprites
    requires e in transforms && e in sprites
    ensures SpriteDraws(order + [e], transforms, sprites, camera)
         == SpriteDraws(order, transforms, sprites, camera) + [SpriteDraw(transforms[e], sprites[e], camera)]
  {
  }
}
