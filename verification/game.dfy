/**
 * The scene wiring of `Game::setup` (src/Game/Game.cpp:54-67) and one render frame of the
 * wired scene: the tile map, registered first, is drawn before the sprites.
 */
module Game {
  import opened Components
  import opened Backend
  import opened SystemRules
  import opened Scene

  /**
   * Builds the scene the game runs: a character setup, the player input, the movement
   * update, a tile map used for setup and render, and the sprite render, then runs the
   * setup phase once. The renderer creates the character image, then the floor and the
   * grass tiles; the tile map caches those two under codes 0 and 1 and fills its table.
   */
  method SetupScene(renderer: Renderer) returns (scene: Scene, character: CharacterSetupSystem, tiles: TilemapSystem, sprites: SpriteRenderSystem)
    modifies renderer`created
    ensures fresh(scene) && scene.Valid()
    ensures scene.setupSystems == [CharacterSetup(character), TilemapSetup(tiles)]
    ensures |scene.inputSystems| == 1 && |scene.updateSystems| == 1
    ensures scene.renderSystems == [TilemapRender(tiles), SpriteRender(sprites)]
    ensures renderer.created == old(renderer.created) + [FromSurface(CharacterSpriteFile),
      FromSurface("assets/tiles/floor.png"), FromSurface("assets/tiles/grass.png")]
    ensures tiles.tiles == map[0 := |old(renderer.created)| + 2, 1 := |old(renderer.created)| + 3]
    ensures tiles.Loaded()
    ensures |scene.log.calls| == 2
    ensures scene.log.calls[0].SetupRan? && scene.log.calls[0].system == character
    ensures scene.log.calls[1].SetupRan? && scene.log.calls[1].system == tiles
    ensures scene.PlayerReady() && scene.CanRender()
  {
    scene, character, tiles, sprites := Wire(renderer);
    SetupWired(scene, character, tiles, sprites, renderer);
  }

  /** The setup phase of `Game::setup`, run once on the freshly wired scene. */
  method SetupWired(scene: Scene, character: CharacterSetupSystem, tiles: TilemapSystem, sprites: SpriteRenderSystem, renderer: Renderer)
    requires scene.Valid() && scene.log.calls == []
    requires scene.setupSystems == [CharacterSetup(character), TilemapSetup(tiles)]
    requires scene.renderSystems == [TilemapRender(tiles), SpriteRender(sprites)]
    requires scene.tileSet == {tiles} && scene.renderers == {renderer}
    requires character.renderer == renderer && tiles.renderer == renderer && tiles.tiles == map[]
    modifies scene`player, scene.r`next, scene.r`tables, scene.log`calls, scene.tilemaps.Keys, renderer`created, tiles`tiles
    ensures scene.Valid()
    ensures renderer.created == old(renderer.created) + [FromSurface(CharacterSpriteFile),
      FromSurface("assets/tiles/floor.png"), FromSurface("assets/tiles/grass.png")]
    ensures tiles.tiles == map[0 := |old(renderer.created)| + 2, 1 := |old(renderer.created)| + 3]
    ensures tiles.Loaded()
    ensures |scene.log.calls| == 2
    ensures scene.log.calls[0].SetupRan? && scene.log.calls[0].system == character
    ensures scene.log.calls[1].SetupRan? && scene.log.calls[1].system == tiles
    ensures scene.PlayerReady() && scene.CanRender()
  {
    ghost var c0 := renderer.created;
    ghost var v0 := scene.SetupState();
    WiredView(scene, tiles, renderer);
    scene.Setup();
    WiredSetupOutcome(scene, character, tiles, renderer, c0, v0);
    assert scene.setupSystems[0].CharacterSetup?;
    assert TilemapSetup(tiles) in scene.setupSystems;
  }

  /** The view of the freshly wired scene: one renderer, one empty tile cache, no call logged. */
  lemma WiredView(scene: Scene, tiles: TilemapSystem, renderer: Renderer)
    requires scene.log.calls == [] && tiles.tiles == map[]
    requires scene.tileSet == {tiles} && scene.renderers == {renderer}
    ensures scene.SetupState().calls == []
    ensures scene.SetupState().created == map[renderer := renderer.created]
    ensures scene.SetupState().caches == map[tiles := map[]]
  {
    assert scene.CreatedMap() == map[renderer := renderer.created];
    assert scene.CacheMap() == map[tiles := map[]];
  }

  /**
   * What the setup phase of the wired scene, started from view `v0`, leaves in the renderer,
   * the tile map and the log.
   */
  lemma WiredSetupOutcome(scene: Scene, character: CharacterSetupSystem, tiles: TilemapSystem, renderer: Renderer,
                          c0: seq<Origin>, v0: SetupView)
    requires v0.calls == [] && v0.created == map[renderer := c0] && v0.caches == map[tiles := map[]]
    requires scene.tileSet == {tiles} && scene.renderers == {renderer}
    requires scene.setupSystems == [CharacterSetup(character), TilemapSetup(tiles)]
    requires character.renderer == renderer && tiles.renderer == renderer
    requires scene.SetupState().(player := v0.player) == SetupRun(scene.setupSystems, v0)
    ensures renderer.created == c0 + [FromSurface(CharacterSpriteFile),
      FromSurface("assets/tiles/floor.png"), FromSurface("assets/tiles/grass.png")]
    ensures tiles.tiles == map[0 := |c0| + 2, 1 := |c0| + 3]
    ensures |scene.log.calls| == 2
    ensures scene.log.calls[0].SetupRan? && scene.log.calls[0].system == character
    ensures scene.log.calls[1].SetupRan? && scene.log.calls[1].system == tiles
  {
    GameSetupRun(character, tiles, renderer, c0, v0);
    assert scene.CreatedMap()[renderer] == renderer.created;
    assert scene.CacheMap()[tiles] == tiles.tiles;
  }

  /**
   * The setup phase of the game's scene from a view in which the renderer created `c0`,
   * the tile map's cache is empty and no call is logged: the character image is created
   * first, then the floor and the grass tiles, which the tile map caches under codes 0
   * and 1; one record per system, in list order.
   */
  lemma GameSetupRun(character: CharacterSetupSystem, tiles: TilemapSystem, renderer: Renderer, c0: seq<Origin>, v0: SetupView)
    requires character.renderer == renderer && tiles.renderer == renderer
    requires v0.calls == [] && v0.created == map[renderer := c0] && v0.caches == map[tiles := map[]]
    ensures var run := SetupRun([CharacterSetup(character), TilemapSetup(tiles)], v0);
      && run.created == map[renderer := c0 + [FromSurface(CharacterSpriteFile),
           FromSurface("assets/tiles/floor.png"), FromSurface("assets/tiles/grass.png")]]
      && run.caches == map[tiles := map[0 := |c0| + 2, 1 := |c0| + 3]]
      && |run.calls| == 2
      && run.calls[0].SetupRan? && run.calls[0].system == character
      && run.calls[1].SetupRan? && run.calls[1].system == tiles
  {
    var ss := [CharacterSetup(character), TilemapSetup(tiles)];
    var c1 := c0 + [FromSurface(CharacterSpriteFile)];
    assert ss[..1] == [CharacterSetup(character)];
    var first := SetupRun(ss[..1], v0);
    GameCharacterStep(character, renderer, c0, v0);
    FreshSetupCreatesTwo(c1);
    var last := TilemapSetup(tiles).Record(first.created, first.caches);
    assert last.after == Walk(CacheState(map[], c1), GridCodes());
    assert ss[..|ss| - 1] == ss[..1];
    assert c1 + [FromSurface("assets/tiles/floor.png"), FromSurface("assets/tiles/grass.png")]
      == c0 + [FromSurface(CharacterSpriteFile), FromSurface("assets/tiles/floor.png"), FromSurface("assets/tiles/grass.png")];
    SetupRunRecords(ss, v0);
  }

  /** The first step of the game's setup phase: the character image is created, the caches stay as they were. */
  lemma GameCharacterStep(character: CharacterSetupSystem, renderer: Renderer, c0: seq<Origin>, v0: SetupView)
    requires character.renderer == renderer && v0.created == map[renderer := c0]
    ensures SetupRun([CharacterSetup(character)], v0).created == map[renderer := c0 + [FromSurface(CharacterSpriteFile)]]
    ensures SetupRun([CharacterSetup(character)], v0).caches == v0.caches
  {
    assert [CharacterSetup(character)][..0] == [];
  }

  /** The registrations of `Game::setup`, before the setup phase. */
  method Wire(renderer: Renderer) returns (scene: Scene, character: CharacterSetupSystem, tiles: TilemapSystem, sprites: SpriteRenderSystem)
    ensures fresh(scene) && fresh(scene.r) && fresh(scene.log) && scene.Valid()
    ensures scene.setupSystems == [CharacterSetup(character), TilemapSetup(tiles)]
    ensures |scene.inputSystems| == 1 && |scene.updateSystems| == 1
    ensures scene.renderSystems == [TilemapRender(tiles), SpriteRender(sprites)]
    ensures scene.log.calls == []
    ensures fresh(tiles) && fresh(tiles.tilemap) && scene.tileSet == {tiles}
    ensures scene.tilemaps == map[tiles.tilemap := tiles] && scene.renderers == {renderer}
    ensures character.renderer == renderer && tiles.renderer == renderer && tiles.tiles == map[]
  {
    scene := new Scene("FirstScene");
    character := WireCharacter(scene, renderer);
    WireMotion(scene);
    tiles, sprites := WireTilesAndSprites(scene, renderer);
  }

  /** The character setup, first in the setup list. */
  method WireCharacter(scene: Scene, renderer: Renderer) returns (character: CharacterSetupSystem)
    requires scene.Valid() && scene.setupSystems == [] && scene.renderers == {}
    modifies scene`setupSystems, scene`tileSet, scene`characterSet, scene`tilemaps, scene`renderers
    ensures scene.Valid()
    ensures scene.setupSystems == [CharacterSetup(character)] && character.renderer == renderer
    ensures scene.tileSet == old(scene.tileSet) && scene.tilemaps == old(scene.tilemaps) && scene.renderers == {renderer}
  {
    character := new CharacterSetupSystem(renderer);
    scene.AddSetupSystem(CharacterSetup(character));
  }

  /** The player input and the movement update, each the only one of its phase. */
  method WireMotion(scene: Scene)
    requires scene.Valid() && scene.inputSystems == [] && scene.updateSystems == []
    modifies scene`inputSystems, scene`updateSystems, scene`inputSet, scene`updateSet
    ensures scene.Valid()
    ensures |scene.inputSystems| == 1 && |scene.updateSystems| == 1
  {
    var input := new PlayerInputSystem();
    var movement := new MovementUpdateSystem();
    scene.AddInputSystem(PlayerInput(input));
    scene.AddUpdateSystem(MovementUpdate(movement));
  }

  /** The tile map, for setup and then for render, and the sprite render after it. */
  method WireTilesAndSprites(scene: Scene, renderer: Renderer) returns (tiles: TilemapSystem, sprites: SpriteRenderSystem)
    requires scene.Valid() && scene.renderSystems == [] && scene.tileSet == {} && scene.tilemaps == map[]
    modifies scene`setupSystems, scene`renderSystems, scene`tileSet, scene`characterSet, scene`spriteSet
    modifies scene`tilemaps, scene`renderers
    ensures scene.Valid()
    ensures scene.setupSystems == old(scene.setupSystems) + [TilemapSetup(tiles)]
    ensures scene.renderSystems == [TilemapRender(tiles), SpriteRender(sprites)]
    ensures fresh(tiles) && fresh(tiles.tilemap) && scene.tileSet == {tiles}
    ensures scene.tilemaps == map[tiles.tilemap := tiles] && scene.renderers == old(scene.renderers) + {renderer}
    ensures tiles.renderer == renderer && tiles.tiles == map[]
  {
    sprites := new SpriteRenderSystem();
    tiles := WireTiles(scene, renderer);
    scene.AddRenderSystem(SpriteRender(sprites));
  }

  /** The tile map, registered as a setup system and as the first render system. */
  method WireTiles(scene: Scene, renderer: Renderer) returns (tiles: TilemapSystem)
    requires scene.Valid() && scene.renderSystems == [] && scene.tileSet == {} && scene.tilemaps == map[]
    modifies scene`setupSystems, scene`renderSystems, scene`tileSet, scene`characterSet, scene`spriteSet
    modifies scene`tilemaps, scene`renderers
    ensures scene.Valid()
    ensures scene.setupSystems == old(scene.setupSystems) + [TilemapSetup(tiles)]
    ensures scene.renderSystems == [TilemapRender(tiles)]
    ensures fresh(tiles) && fresh(tiles.tilemap) && scene.tileSet == {tiles}
    ensures scene.tilemaps == map[tiles.tilemap := tiles] && scene.renderers == old(scene.renderers) + {renderer}
    ensures tiles.renderer == renderer && tiles.tiles == map[]
  {
    tiles := new TilemapSystem(renderer);
    scene.AddSetupSystem(TilemapSetup(tiles));
    scene.AddRenderSystem(TilemapRender(tiles));
  }

  /**
   * One render of the wired scene: `target` receives the 400 tile draws first and then
   * the sprite draws of one pass over the Transform+Sprite view, relative to the player.
   */
  method RenderFrame(scene: Scene, tiles: TilemapSystem, sprites: SpriteRenderSystem, target: Renderer)
    requires scene.Valid() && scene.player != null && scene.player.handle in scene.r.tables.transforms
    requires scene.renderSystems == [TilemapRender(tiles), SpriteRender(sprites)]
    modifies target`draws, scene.log`calls
    ensures scene.Valid() && tiles.tilemap.Length == CellCount
    ensures scene.player != null && scene.player.handle in scene.r.tables.transforms
    ensures exists order: seq<EntityId> ::
      && Enumerates(order, scene.r.tables.transforms.Keys * scene.r.tables.sprites.Keys)
      && target.draws == old(target.draws) + TileDraws(tiles.tilemap[..])
           + SpriteDraws(order, scene.r.tables.transforms, scene.r.tables.sprites, scene.r.tables.transforms[scene.player.handle])
  {
    ghost var n0 := |scene.log.calls|;
    assert scene.renderSystems[0].In(scene.tileSet, scene.spriteSet);
    assert scene.CanRender();
    scene.Render(target);
    ghost var calls := scene.log.calls[n0..];
    assert scene.Rendered(scene.renderSystems[0], target, scene.log.calls[n0 + 0]);
    assert scene.Rendered(scene.renderSystems[1], target, scene.log.calls[n0 + 1]);
    assert calls == [calls[0], calls[1]];
    assert calls[..1] == [calls[0]] && calls[..1][..0] == [];
    assert Drawn(calls[..1]) == calls[0].drawn;
    assert Drawn(calls) == calls[0].drawn + calls[1].drawn;
    ghost var order := calls[1].order;
    assert Enumerates(order, scene.r.tables.transforms.Keys * scene.r.tables.sprites.Keys);
  }
}
