/**
 * The scene of src/Scene/Scene.h and Scene.cpp, the entity handle of src/Scene/Entity.hpp
 * and the five systems of src/Scene/Systems.hpp.
 *
 * The source dispatches through the virtual `run` of four abstract system interfaces;
 * here each phase list holds a closed variant naming the concrete system, so the scene,
 * the handle and the systems live in one module, as they refer to each other.
 *
 * Every system run appends a record of itself to the scene's ghost call log; the phase
 * methods promise that the log grows by exactly their list, in registration order, and
 * say what each recorded run did.
 */
module Scene {
  import opened Wrappers
  import opened Components
  import opened Registry
  import opened Backend
  import opened SystemRules

  /** The tag, position, speed and sprite file of the player made by the character setup. */
  const PlayerTag := "PLAYER"
  const PlayerStart := Transform(100, 100)
  const PlayerSpeed := Movement(100, 100)
  const CharacterSpriteFile := "./assets/characters/Matthew.png"

  /**
   * The player starts moving at (100, 100): a RIGHT key-down leaves its vertical speed as
   * it was, so a tenth of a second later it has moved ten pixels along both axes.
   */
  lemma PlayerAfterRightForATenth()
    ensures KeyEffect(PlayerSpeed, KeyDown(Right)) == Movement(100, 100)
    ensures Step(PlayerStart, KeyEffect(PlayerSpeed, KeyDown(Right)), 0.1) == Transform(110, 110)
  {
    AdvanceWhole(100, 100, 0.1, 10);
  }

  /**
   * One run of a system by a scene phase. A setup run records the renderer it creates its
   * textures with and, before and after the run, the creations of that renderer together
   * with the system's tile cache (empty for the character setup). A render run records
   * the pass order over the view it drew (empty for the tile map) and the draws it made.
   */
  datatype Call =
    | SetupRan(system: object, renderer: Renderer, before: CacheState, after: CacheState)
    | InputRan(system: object, event: Event)
    | UpdateRan(system: object, dT: real)
    | RenderRan(system: object, target: Renderer, order: seq<EntityId>, drawn: seq<Draw>)

  /** The ghost record of the system runs of one scene. */
  class CallLog {
    ghost var calls: seq<Call>

    constructor ()
      ensures calls == []
    {
      calls := [];
    }
  }

  /** The systems that can sit in the setup list. */
  datatype SetupSystem = TilemapSetup(tileSystem: TilemapSystem) | CharacterSetup(characterSystem: CharacterSetupSystem)
  {
    function Object(): object
    {
      match this
      case TilemapSetup(t) => t
      case CharacterSetup(c) => c
    }

    /** The system points back at `sc`; a tile map also has its 20 x 20 table. */
    ghost predicate Registered(sc: Scene)
      reads Object()
    {
      match this
      case TilemapSetup(t) => t.scene == sc && t.tilemap.Length == CellCount
      case CharacterSetup(c) => c.scene == sc
    }

    /** The system object is among the registered ones of its class. */
    ghost predicate In(tiles: set<TilemapSystem>, characters: set<CharacterSetupSystem>)
    {
      match this
      case TilemapSetup(t) => t in tiles
      case CharacterSetup(c) => c in characters
    }

    /** The renderer the run creates its textures with. */
    function Renderer(): Renderer
    {
      match this
      case TilemapSetup(t) => t.renderer
      case CharacterSetup(c) => c.renderer
    }

    ghost function Renderers(): set<Renderer>
    {
      {Renderer()}
    }

    /**
     * The record of a run of this system that finds the renderer creations `created` and
     * the tile caches `caches`: a tile map walks the grid over its cache, and the character
     * setup creates one texture, from the character image, and keeps no cache.
     */
    ghost function Record(created: map<Renderer, seq<Origin>>, caches: map<TilemapSystem, map<int, TextureId>>): Call
    {
      var before := CacheState(
        if TilemapSetup? && tileSystem in caches then caches[tileSystem] else map[],
        if Renderer() in created then created[Renderer()] else []);
      var after := match this
        case TilemapSetup(_) => Walk(before, GridCodes())
        case CharacterSetup(_) => CacheState(before.tiles, before.created + [FromSurface(CharacterSpriteFile)]);
      SetupRan(Object(), Renderer(), before, after)
    }

    /** The tile map whose cache the run fills, if any. */
    ghost function TileFrame(): set<TilemapSystem>
    {
      if TilemapSetup? then {tileSystem} else {}
    }
  }

  /** The systems that can sit in the input list. */
  datatype InputSystem = PlayerInput(inputSystem: PlayerInputSystem)
  {
    function Object(): object
    {
      inputSystem
    }

    ghost predicate Registered(sc: Scene)
      reads Object()
    {
      inputSystem.scene == sc
    }
  }

  /** The systems that can sit in the update list. */
  datatype UpdateSystem = MovementUpdate(updateSystem: MovementUpdateSystem)
  {
    function Object(): object
    {
      updateSystem
    }

    ghost predicate Registered(sc: Scene)
      reads Object()
    {
      updateSystem.scene == sc
    }
  }

  /** The systems that can sit in the render list. */
  datatype RenderSystem = TilemapRender(tileSystem: TilemapSystem) | SpriteRender(spriteSystem: SpriteRenderSystem)
  {
    function Object(): object
    {
      match this
      case TilemapRender(t) => t
      case SpriteRender(s) => s
    }

    ghost predicate Registered(sc: Scene)
      reads Object()
    {
      match this
      case TilemapRender(t) => t.scene == sc && t.tilemap.Length == CellCount
      case SpriteRender(s) => s.scene == sc
    }

    /** The system object is among the registered ones of its class. */
    ghost predicate In(tiles: set<TilemapSystem>, sprites: set<SpriteRenderSystem>)
    {
      match this
      case TilemapRender(t) => t in tiles
      case SpriteRender(p) => p in sprites
    }

    /** The renderer a tile map keeps for its setup, if any. */
    ghost function Renderers(): set<Renderer>
    {
      if TilemapRender? then {tileSystem.renderer} else {}
    }

    /** The tile map, if any. */
    ghost function TileFrame(): set<TilemapSystem>
    {
      if TilemapRender? then {tileSystem} else {}
    }
  }

  /**
   * What the setup phase reads and changes, as values: the call log, the creations of
   * each renderer, the cache of each tile map, the table of each tile map, the registry,
   * the player and whether the player row is ready.
   */
  datatype SetupView = SetupView(
    calls: seq<Call>, created: map<Renderer, seq<Origin>>, caches: map<TilemapSystem, map<int, TextureId>>,
    slots: map<TilemapSystem, seq<TextureId>>, next: nat, tables: Tables, player: Entity?, ready: bool)

  /**
   * The registry after the character setup adds the player as row `e`: Tag "PLAYER",
   * Transform (100, 100), Movement (100, 100) and the default Sprite of `texture`.
   */
  function WithPlayer(tables: Tables, e: EntityId, texture: TextureId): Tables
  {
    Tables(tables.tags[e := Tag(PlayerTag)], tables.transforms[e := PlayerStart],
           tables.movements[e := PlayerSpeed], tables.sprites[e := DefaultSprite(texture)])
  }

  /**
   * The view after one run of `s` from `pre`, as its record says: a tile map changes its
   * renderer's creations, its cache and its table, now filled from the cache; the
   * character setup changes its renderer's creations and adds the player row, with the
   * texture it just created, as entity `pre.next`. The player object it makes is not a
   * value, so `player` is left as it was.
   */
  ghost function Ran(s: SetupSystem, pre: SetupView): SetupView
  {
    var c := s.Record(pre.created, pre.caches);
    var post := pre.(calls := pre.calls + [c], created := pre.created[s.Renderer() := c.after.created]);
    match s
    case TilemapSetup(t) =>
      post.(caches := pre.caches[t := c.after.tiles], slots := pre.slots[t := FilledTable(c.after.tiles)])
    case CharacterSetup(_) =>
      post.(next := pre.next + 1, tables := WithPlayer(pre.tables, pre.next, |c.after.created|), ready := true)
  }

  /** The view after the setup systems `ss` ran in list order from `v0`. */
  ghost function SetupRun(ss: seq<SetupSystem>, v0: SetupView): SetupView
  {
    if ss == [] then v0 else Ran(ss[|ss| - 1], SetupRun(ss[..|ss| - 1], v0))
  }

  /** `c` is a setup record of `s`, naming the system and its renderer. */
  predicate RecordOf(c: Call, s: SetupSystem)
  {
    c.SetupRan? && c.system == s.Object() && c.renderer == s.Renderer()
  }

  /** The phase appends one record per system, in list order. */
  lemma {:induction false} SetupRunRecords(ss: seq<SetupSystem>, v0: SetupView)
    ensures |SetupRun(ss, v0).calls| == |v0.calls| + |ss|
    ensures SetupRun(ss, v0).calls[..|v0.calls|] == v0.calls
    ensures forall k | 0 <= k < |ss| :: RecordOf(SetupRun(ss, v0).calls[|v0.calls| + k], ss[k])
  {
    if ss != [] {
      var p := ss[..|ss| - 1];
      var s := ss[|ss| - 1];
      var pre := SetupRun(p, v0);
      SetupRunRecords(p, v0);
      assert SetupRun(ss, v0).calls == pre.calls + [s.Record(pre.created, pre.caches)];
      forall k | 0 <= k < |ss|
        ensures RecordOf(SetupRun(ss, v0).calls[|v0.calls| + k], ss[k])
      {
        if k < |p| {
          assert p[k] == ss[k];
          assert SetupRun(ss, v0).calls[|v0.calls| + k] == pre.calls[|v0.calls| + k];
        }
      }
    }
  }

  /** In `v`, the table of the tile map `t` is filled from its cache. */
  ghost predicate FilledIn(t: TilemapSystem, v: SetupView)
  {
    t in v.slots && t in v.caches && FilledFrom(v.slots[t], v.caches[t])
  }

  /** In `v`, every tile map among `ss` has its table filled from its cache. */
  ghost predicate TablesFilled(ss: seq<SetupSystem>, v: SetupView)
  {
    ss != [] ==>
      && (ss[|ss| - 1].TilemapSetup? ==> FilledIn(ss[|ss| - 1].tileSystem, v))
      && TablesFilled(ss[..|ss| - 1], v)
  }

  /** Tables stay filled when no filled table is disturbed. */
  lemma {:induction false} TablesFilledKept(ss: seq<SetupSystem>, pre: SetupView, post: SetupView)
    requires TablesFilled(ss, pre)
    requires forall t :: FilledIn(t, pre) ==> FilledIn(t, post)
    ensures TablesFilled(ss, post)
  {
    if ss != [] {
      TablesFilledKept(ss[..|ss| - 1], pre, post);
    }
  }

  /** A tile map listed in `ss` has its table filled. */
  lemma {:induction false} TablesFilledAt(ss: seq<SetupSystem>, v: SetupView, t: TilemapSystem)
    requires TablesFilled(ss, v) && TilemapSetup(t) in ss
    ensures FilledIn(t, v)
  {
    if ss[|ss| - 1] != TilemapSetup(t) {
      var p := ss[..|ss| - 1];
      assert ss == p + [ss[|ss| - 1]];
      assert TilemapSetup(t) in p;
      TablesFilledAt(p, v, t);
    }
  }

  /**
   * A run fills the table of its own tile map, which then covers the whole grid, and
   * leaves every other filled table filled.
   */
  lemma RanFills(s: SetupSystem, pre: SetupView)
    ensures s.TilemapSetup? ==> FilledIn(s.tileSystem, Ran(s, pre))
    ensures forall t | FilledIn(t, pre) :: FilledIn(t, Ran(s, pre))
  {
    if s.TilemapSetup? {
      WalkCachesGrid(s.Record(pre.created, pre.caches).before);
    }
  }

  /** After the phase, every tile map it ran has its table filled from its cache. */
  lemma {:induction false} SetupRunFills(ss: seq<SetupSystem>, v0: SetupView)
    ensures TablesFilled(ss, SetupRun(ss, v0))
  {
    if ss != [] {
      var p := ss[..|ss| - 1];
      var s := ss[|ss| - 1];
      SetupRunFills(p, v0);
      RanFills(s, SetupRun(p, v0));
      TablesFilledKept(p, SetupRun(p, v0), SetupRun(ss, v0));
    }
  }

  /** Whether a character setup is among `ss`. */
  predicate RunsCharacter(ss: seq<SetupSystem>)
  {
    ss != [] && (ss[|ss| - 1].CharacterSetup? || RunsCharacter(ss[..|ss| - 1]))
  }

  /** `RunsCharacter` holds exactly when some entry of `ss` is a character setup. */
  lemma {:induction false} RunsCharacterListed(ss: seq<SetupSystem>)
    ensures RunsCharacter(ss) <==> exists k | 0 <= k < |ss| :: ss[k].CharacterSetup?
  {
    if ss != [] {
      var p := ss[..|ss| - 1];
      RunsCharacterListed(p);
      assert forall k | 0 <= k < |p| :: p[k] == ss[k];
    }
  }

  /**
   * The registry after the phase: rows are only added, above the counter the phase found,
   * and every row stays below the counter. Once a character setup has run the player row
   * is ready; while none has, the counter and the tables are as they were.
   */
  lemma {:induction false} SetupRunRegistry(ss: seq<SetupSystem>, v0: SetupView)
    requires v0.tables.Below(v0.next)
    ensures var run := SetupRun(ss, v0);
      && run.tables.Below(run.next) && v0.next <= run.next && Grows(v0.tables, run.tables, v0.next)
      && (RunsCharacter(ss) ==> run.ready)
      && (!RunsCharacter(ss) ==> run.next == v0.next && run.tables == v0.tables && run.ready == v0.ready)
  {
    if ss != [] {
      var p := ss[..|ss| - 1];
      var pre := SetupRun(p, v0);
      SetupRunRegistry(p, v0);
      if ss[|ss| - 1].CharacterSetup? {
        var post := SetupRun(ss, v0);
        assert Grows(pre.tables, post.tables, pre.next);
        GrowsTransitive(v0.tables, pre.tables, post.tables, v0.next, pre.next);
      }
    }
  }

  /**
   * From `v0` to `v`, the systems `ss` ran in order: apart from the player object, `v`
   * is the view `SetupRun` gives, and the player is the one of `v0` until a character
   * setup has run.
   */
  ghost predicate SetupProgressed(ss: seq<SetupSystem>, v0: SetupView, v: SetupView)
  {
    && v.(player := v0.player) == SetupRun(ss, v0)
    && (RunsCharacter(ss) || v.player == v0.player)
  }

  /** From `pre` to `post`, `s` ran once: `Ran`, apart from the player a character setup makes. */
  ghost predicate RanFrom(s: SetupSystem, pre: SetupView, post: SetupView)
  {
    && post.(player := pre.player) == Ran(s, pre)
    && (s.TilemapSetup? ==> post.player == pre.player)
  }

  /** One more run carries the progress of the setup phase over one more system. */
  lemma SetupAdvance(ss: seq<SetupSystem>, s: SetupSystem, v0: SetupView, pre: SetupView, post: SetupView)
    requires SetupProgressed(ss, v0, pre) && RanFrom(s, pre, post)
    ensures SetupProgressed(ss + [s], v0, post)
  {
    assert (ss + [s])[..|ss|] == ss;
    assert Ran(s, pre).(player := v0.player) == Ran(s, pre.(player := v0.player));
  }

  /** One input record per system, in list order, all with the same event. */
  ghost function InputCalls(ss: seq<InputSystem>, ev: Event): (calls: seq<Call>)
    ensures |calls| == |ss|
    ensures forall k | 0 <= k < |ss| :: calls[k] == InputRan(ss[k].Object(), ev)
  {
    if ss == [] then [] else InputCalls(ss[..|ss| - 1], ev) + [InputRan(ss[|ss| - 1].Object(), ev)]
  }

  /** One update record per system, in list order, all with the same time step. */
  ghost function UpdateCalls(ss: seq<UpdateSystem>, dT: real): (calls: seq<Call>)
    ensures |calls| == |ss|
    ensures forall k | 0 <= k < |ss| :: calls[k] == UpdateRan(ss[k].Object(), dT)
  {
    if ss == [] then [] else UpdateCalls(ss[..|ss| - 1], dT) + [UpdateRan(ss[|ss| - 1].Object(), dT)]
  }

  /** The draws recorded by the render runs of `calls`, concatenated in order. */
  ghost function Drawn(calls: seq<Call>): seq<Draw>
  {
    if calls == [] then []
    else Drawn(calls[..|calls| - 1]) + (if calls[|calls| - 1].RenderRan? then calls[|calls| - 1].drawn else [])
  }

  class Scene {
    var setupSystems: seq<SetupSystem>
    var inputSystems: seq<InputSystem>
    var updateSystems: seq<UpdateSystem>
    var renderSystems: seq<RenderSystem>
    const r: Registry
    var player: Entity?
    const log: CallLog

    /**
     * Ghost bookkeeping of the registered system objects, by class, of the tile tables
     * (each with the tile map owning it) and of the renderers they use: what a phase may
     * read and change.
     */
    ghost var tileSet: set<TilemapSystem>
    ghost var characterSet: set<CharacterSetupSystem>
    ghost var inputSet: set<PlayerInputSystem>
    ghost var updateSet: set<MovementUpdateSystem>
    ghost var spriteSet: set<SpriteRenderSystem>
    ghost var tilemaps: map<array<TextureId>, TilemapSystem>
    ghost var renderers: set<Renderer>

    /** Every registered system points back at this scene; a tile map has its 20 x 20 table. */
    ghost predicate Wired()
      reads this`setupSystems, this`inputSystems, this`updateSystems, this`renderSystems
      reads this`tileSet, this`characterSet, this`inputSet, this`updateSet, this`spriteSet
      reads this`tilemaps, this`renderers
      reads tileSet`scene, characterSet`scene, inputSet`scene, updateSet`scene, spriteSet`scene
    {
      && (forall s | s in setupSystems :: s.In(tileSet, characterSet))
      && (forall s | s in inputSystems :: s.inputSystem in inputSet)
      && (forall s | s in updateSystems :: s.updateSystem in updateSet)
      && (forall s | s in renderSystems :: s.In(tileSet, spriteSet))
      && (forall t | t in tileSet ::
            && t.scene == this && t.tilemap.Length == CellCount && t.renderer in renderers
            && t.tilemap in tilemaps && tilemaps[t.tilemap] == t)
      && (forall c | c in characterSet :: c.scene == this && c.renderer in renderers)
      && (forall p | p in inputSet :: p.scene == this)
      && (forall m | m in updateSet :: m.scene == this)
      && (forall p | p in spriteSet :: p.scene == this)
    }

    /** The scene invariant: `Consistent` and `Wired`. */
    ghost predicate Valid()
      reads this, r, tileSet`scene, characterSet`scene, inputSet`scene, updateSet`scene, spriteSet`scene
    {
      Consistent() && Wired()
    }

    /** The registry is consistent and the player (once set) is a row of this scene. */
    ghost predicate Consistent()
      reads this`player, r
    {
      && r.Valid()
      && (player != null ==> player.scene == this && player.handle < r.next)
    }

    /** The player row carries what the character setup gives it. */
    ghost predicate PlayerReady()
      reads this, r
    {
      && player != null
      && player.handle in r.tables.tags && r.tables.tags[player.handle] == Tag(PlayerTag)
      && player.handle in r.tables.transforms && r.tables.transforms[player.handle] == PlayerStart
      && player.handle in r.tables.movements && r.tables.movements[player.handle] == PlayerSpeed
      && player.handle in r.tables.sprites
      && r.tables.sprites[player.handle] == DefaultSprite(r.tables.sprites[player.handle].texture)
    }

    /** The creations of each renderer the systems use. */
    ghost function CreatedMap(): map<Renderer, seq<Origin>>
      reads this`renderers, renderers`created
    {
      map g | g in renderers :: g.created
    }

    /** The tile cache of each registered tile map. */
    ghost function CacheMap(): map<TilemapSystem, map<int, TextureId>>
      reads this`tileSet, tileSet`tiles
    {
      map t | t in tileSet :: t.tiles
    }

    /** Render run `c` is what system `s` draws on `target` in the current state. */
    ghost predicate Rendered(s: RenderSystem, target: Renderer, c: Call)
      reads this, r, tilemaps.Keys
    {
      && c.RenderRan? && c.system == s.Object() && c.target == target
      && match s
         case TilemapRender(t) =>
           t.tilemap in tilemaps && t.tilemap.Length == CellCount && c.drawn == TileDraws(t.tilemap[..])
         case SpriteRender(_) =>
           && player != null && player.handle in r.tables.transforms
           && Enumerates(c.order, r.tables.transforms.Keys * r.tables.sprites.Keys)
           && c.drawn == SpriteDraws(c.order, r.tables.transforms, r.tables.sprites, r.tables.transforms[player.handle])
    }

    /** A scene named `name`: empty lists, an empty registry and no player yet. */
    constructor (name: string)
      ensures Valid() && fresh(r) && fresh(log)
      ensures setupSystems == [] && inputSystems == [] && updateSystems == [] && renderSystems == []
      ensures player == null && log.calls == [] && r.next == 0
      ensures r.tables == Empty
      ensures tileSet == {} && characterSet == {} && inputSet == {} && updateSet == {} && spriteSet == {}
      ensures tilemaps == map[] && renderers == {}
    {
      setupSystems := [];
      inputSystems := [];
      updateSystems := [];
      renderSystems := [];
      r := new Registry();
      player := null;
      log := new CallLog();
      tileSet, characterSet, inputSet, updateSet, spriteSet := {}, {}, {}, {}, {};
      tilemaps, renderers := map[], {};
    }

    /** A fresh row carrying exactly the Tag `name` and the Transform (x, y). */
    method CreateEntity(name: string := " ", x: int := 0, y: int := 0) returns (entity: Entity)
      requires Consistent()
      modifies r`next, r`tables
      ensures Consistent()
      ensures fresh(entity) && entity.scene == this && entity.handle == old(r.next)
      ensures r.next == old(r.next) + 1
      ensures r.tables.tags == old(r.tables.tags)[entity.handle := Tag(name)]
      ensures r.tables.transforms == old(r.tables.transforms)[entity.handle := Transform(x, y)]
      ensures r.tables.movements == old(r.tables.movements) && r.tables.sprites == old(r.tables.sprites)
      ensures entity.handle !in r.tables.movements && entity.handle !in r.tables.sprites
    {
      var e := r.Create();
      entity := new Entity(e, this);
      var _ := entity.AddComponent(TagPart(Tag(name)));
      var _ := entity.AddComponent(TransformPart(Transform(x, y)));
    }

    /** Appends `s` to the setup list and points it at this scene. */
    method AddSetupSystem(s: SetupSystem)
      requires Valid()
      requires s.TilemapSetup? ==> s.tileSystem.tilemap.Length == CellCount
      requires s.TilemapSetup? ==> s.tileSystem in tileSet || s.tileSystem.tilemap !in tilemaps
      modifies this`setupSystems, this`tileSet, this`characterSet, this`tilemaps, this`renderers, s.Object()
      ensures Valid() && s.Registered(this)
      ensures setupSystems == old(setupSystems) + [s]
      ensures tileSet == old(tileSet) + s.TileFrame()
      ensures s.TilemapSetup? ==> tilemaps == old(tilemaps)[s.tileSystem.tilemap := s.tileSystem]
      ensures s.TilemapSetup? ==> s.tileSystem.tiles == old(s.tileSystem.tiles)
      ensures s.CharacterSetup? ==> tilemaps == old(tilemaps)
      ensures renderers == old(renderers) + s.Renderers()
    {
      match s {
        case TilemapSetup(t) =>
          RegisterTilemap(t);
        case CharacterSetup(c) =>
          RegisterCharacter(c);
      }
      setupSystems := setupSystems + [s];
    }

    /** Points the tile map `t` at this scene and records it, its table and its renderer. */
    method RegisterTilemap(t: TilemapSystem)
      requires Valid() && t.tilemap.Length == CellCount
      requires t in tileSet || t.tilemap !in tilemaps
      modifies this`tileSet, this`tilemaps, this`renderers, t`scene
      ensures Valid() && t.scene == this
      ensures tileSet == old(tileSet) + {t} && tilemaps == old(tilemaps)[t.tilemap := t]
      ensures renderers == old(renderers) + {t.renderer}
    {
      t.SetScene(this);
      tileSet := tileSet + {t};
      tilemaps := tilemaps[t.tilemap := t];
      renderers := renderers + {t.renderer};
    }

    /** Points the character setup `c` at this scene and records it and its renderer. */
    method RegisterCharacter(c: CharacterSetupSystem)
      requires Valid()
      modifies this`characterSet, this`renderers, c`scene
      ensures Valid() && c.scene == this
      ensures characterSet == old(characterSet) + {c} && renderers == old(renderers) + {c.renderer}
    {
      c.SetScene(this);
      characterSet := characterSet + {c};
      renderers := renderers + {c.renderer};
    }

    /** Points the sprite render `p` at this scene and records it. */
    method RegisterSprites(p: SpriteRenderSystem)
      requires Valid()
      modifies this`spriteSet, p`scene
      ensures Valid() && p.scene == this && spriteSet == old(spriteSet) + {p}
    {
      p.SetScene(this);
      spriteSet := spriteSet + {p};
    }

    /** Appends `s` to the input list and points it at this scene. */
    method AddInputSystem(s: InputSystem)
      requires Valid()
      modifies this`inputSystems, this`inputSet, s.Object()
      ensures Valid() && s.Registered(this)
      ensures inputSystems == old(inputSystems) + [s]
    {
      s.inputSystem.SetScene(this);
      inputSet := inputSet + {s.inputSystem};
      inputSystems := inputSystems + [s];
    }

    /** Appends `s` to the update list and points it at this scene. */
    method AddUpdateSystem(s: UpdateSystem)
      requires Valid()
      modifies this`updateSystems, this`updateSet, s.Object()
      ensures Valid() && s.Registered(this)
      ensures updateSystems == old(updateSystems) + [s]
    {
      s.updateSystem.SetScene(this);
      updateSet := updateSet + {s.updateSystem};
      updateSystems := updateSystems + [s];
    }

    /** Appends `s` to the render list and points it at this scene. */
    method AddRenderSystem(s: RenderSystem)
      requires Valid()
      requires s.TilemapRender? ==> s.tileSystem.tilemap.Length == CellCount
      requires s.TilemapRender? ==> s.tileSystem in tileSet || s.tileSystem.tilemap !in tilemaps
      modifies this`renderSystems, this`tileSet, this`spriteSet, this`tilemaps, this`renderers, s.Object()
      ensures Valid() && s.Registered(this)
      ensures renderSystems == old(renderSystems) + [s]
      ensures tileSet == old(tileSet) + s.TileFrame()
      ensures s.TilemapRender? ==> tilemaps == old(tilemaps)[s.tileSystem.tilemap := s.tileSystem]
      ensures s.TilemapRender? ==> s.tileSystem.tiles == old(s.tileSystem.tiles)
      ensures s.SpriteRender? ==> tilemaps == old(tilemaps)
      ensures renderers == old(renderers) + s.Renderers()
    {
      match s {
        case TilemapRender(t) =>
          RegisterTilemap(t);
        case SpriteRender(p) =>
          RegisterSprites(p);
      }
      renderSystems := renderSystems + [s];
    }

    /**
     * Runs every setup system once, in list order. Each run is recorded, starting from the
     * state the earlier runs left; every renderer ends with the creations and every tile
     * map with the cache its last run left. Every listed tile map has its table filled.
     * Existing rows keep their components; if a character setup is listed the player is
     * ready afterwards, and if none is, the player and the registry are as they were.
     */
    method Setup()
      requires Valid()
      modifies this`player, r`next, r`tables, log`calls, tilemaps.Keys, renderers`created, tileSet`tiles
      ensures Valid()
      ensures SetupState().(player := old(player)) == SetupRun(setupSystems, old(SetupState()))
      ensures forall t | t in tileSet && TilemapSetup(t) in setupSystems :: t.Loaded()
      ensures old(r.next) <= r.next && Grows(old(r.tables), r.tables, old(r.next))
      ensures (exists k | 0 <= k < |setupSystems| :: setupSystems[k].CharacterSetup?) ==> PlayerReady()
      ensures (forall k | 0 <= k < |setupSystems| :: !setupSystems[k].CharacterSetup?) ==>
        player == old(player) && r.next == old(r.next) && r.tables == old(r.tables)
    {
      ghost var v0 := SetupState();
      assert v0.tables.Below(v0.next);
      RunSetupSystems(v0);
      ghost var run := SetupRun(setupSystems, v0);
      RunsCharacterListed(setupSystems);
      SetupRunRegistry(setupSystems, v0);
      SetupRunFills(setupSystems, v0);
      forall t | t in tileSet && TilemapSetup(t) in setupSystems
        ensures t.Loaded()
      {
        TablesFilledAt(setupSystems, run, t);
        assert FilledIn(t, SetupState());
        t.LoadedFromTable();
      }
    }

    /** The loop of `Setup`: the setup systems run one by one, from the state `v0`. */
    method RunSetupSystems(ghost v0: SetupView)
      requires Valid() && v0 == SetupState()
      modifies this`player, r`next, r`tables, log`calls, tilemaps.Keys, renderers`created, tileSet`tiles
      ensures Valid() && SetupProgressed(setupSystems, v0, SetupState())
    {
      var i := 0;
      ghost var v := v0;
      assert setupSystems[..0] == [];
      while i < |setupSystems|
        invariant 0 <= i <= |setupSystems|
        invariant Valid() && v == SetupState() && SetupProgressed(setupSystems[..i], v0, v)
      {
        v := SetupStep(i, v0, v);
        i := i + 1;
      }
      assert setupSystems[..i] == setupSystems;
    }

    /** The state the setup phase reads and changes, as a value. */
    ghost function SetupState(): SetupView
      reads this, r, log, renderers, tileSet, tilemaps.Keys
    {
      SetupView(log.calls, CreatedMap(), CacheMap(), SlotMap(), r.next, r.tables, player, PlayerReady())
    }

    /** The table contents of each registered tile map whose table is recorded. */
    ghost function SlotMap(): map<TilemapSystem, seq<TextureId>>
      reads this`tileSet, this`tilemaps, tilemaps.Keys
    {
      map t | t in tileSet && t.tilemap in tilemaps :: t.tilemap[..]
    }

    /** The `i`-th setup run, carrying the progress of the phase from `v0` one step further. */
    method SetupStep(i: nat, ghost v0: SetupView, ghost v: SetupView) returns (ghost v': SetupView)
      requires Valid() && i < |setupSystems| && v == SetupState() && SetupProgressed(setupSystems[..i], v0, v)
      modifies this`player, r`next, r`tables, log`calls, tilemaps.Keys, renderers`created, tileSet`tiles
      ensures Valid() && v' == SetupState() && SetupProgressed(setupSystems[..i + 1], v0, v')
    {
      assert setupSystems[i] in setupSystems;
      match setupSystems[i]
      case TilemapSetup(t) =>
        v' := TilemapStep(i, t, v0, v);
      case CharacterSetup(ch) =>
        v' := CharacterStep(i, ch, v0, v);
    }

    /** Setup run `i`, of the tile map `t`. */
    method TilemapStep(i: nat, t: TilemapSystem, ghost v0: SetupView, ghost v: SetupView) returns (ghost v': SetupView)
      requires Valid() && i < |setupSystems| && setupSystems[i] == TilemapSetup(t) && t in tileSet
      requires v == SetupState() && SetupProgressed(setupSystems[..i], v0, v)
      modifies log`calls, t.tilemap, t.renderer`created, t`tiles
      ensures Valid() && v' == SetupState() && SetupProgressed(setupSystems[..i + 1], v0, v')
    {
      assert setupSystems[..i + 1] == setupSystems[..i] + [TilemapSetup(t)];
      ghost var done := setupSystems[..i];
      ghost var _ := SetupTilemap(t);
      v' := SetupState();
      SetupAdvance(done, TilemapSetup(t), v0, v, v');
    }

    /** Setup run `i`, of the character setup `ch`. */
    method CharacterStep(i: nat, ch: CharacterSetupSystem, ghost v0: SetupView, ghost v: SetupView) returns (ghost v': SetupView)
      requires Valid() && i < |setupSystems| && setupSystems[i] == CharacterSetup(ch) && ch in characterSet
      requires v == SetupState() && SetupProgressed(setupSystems[..i], v0, v)
      modifies this`player, r`next, r`tables, log`calls, ch.renderer`created
      ensures Valid() && v' == SetupState() && SetupProgressed(setupSystems[..i + 1], v0, v')
    {
      assert setupSystems[..i + 1] == setupSystems[..i] + [CharacterSetup(ch)];
      ghost var done := setupSystems[..i];
      ghost var _ := SetupCharacter(ch);
      v' := SetupState();
      SetupAdvance(done, CharacterSetup(ch), v0, v, v');
    }

    /**
     * A tile-map setup run: the cache and the renderer's creations follow `Walk` over the
     * grid and the table is filled; no other renderer, cache or table changes, and the
     * registry and the player are left alone.
     */
    method SetupTilemap(t: TilemapSystem) returns (ghost c: Call)
      requires Valid() && t in tileSet
      modifies log`calls, t.tilemap, t.renderer`created, t`tiles
      ensures Valid()
      ensures CacheState(t.tiles, t.renderer.created) == Walk(CacheState(old(t.tiles), old(t.renderer.created)), GridCodes())
      ensures t.Loaded()
      ensures c == SetupRan(t, t.renderer, CacheState(old(t.tiles), old(t.renderer.created)), CacheState(t.tiles, t.renderer.created))
      ensures log.calls == old(log.calls) + [c]
      ensures RanFrom(TilemapSetup(t), old(SetupState()), SetupState())
    {
      RunTilemap(t);
      c := log.calls[|log.calls| - 1];
      TilemapRan(t);
    }

    /** `t.Setup()` on this scene: the walk over the grid fills the table; one record is logged. */
    method RunTilemap(t: TilemapSystem)
      requires Valid() && t in tileSet
      modifies log`calls, t.tilemap, t.renderer`created, t`tiles
      ensures Valid()
      ensures CacheState(t.tiles, t.renderer.created) == Walk(CacheState(old(t.tiles), old(t.renderer.created)), GridCodes())
      ensures t.Loaded() && t.tilemap[..] == FilledTable(t.tiles)
      ensures log.calls == old(log.calls) +
        [SetupRan(t, t.renderer, CacheState(old(t.tiles), old(t.renderer.created)), CacheState(t.tiles, t.renderer.created))]
    {
      t.Setup();
    }

    /**
     * A character setup run: one texture is created from the character image and the
     * player row is added; no tile cache or table changes.
     */
    method SetupCharacter(ch: CharacterSetupSystem) returns (ghost c: Call)
      requires Valid() && ch in characterSet
      modifies this`player, r`next, r`tables, log`calls, ch.renderer`created
      ensures Valid()
      ensures c == SetupRan(ch, ch.renderer, CacheState(map[], old(ch.renderer.created)), CacheState(map[], ch.renderer.created))
      ensures log.calls == old(log.calls) + [c]
      ensures RanFrom(CharacterSetup(ch), old(SetupState()), SetupState())
    {
      RunCharacter(ch);
      c := log.calls[|log.calls| - 1];
      CharacterRan(ch);
    }

    /** `ch.Setup()` on this scene: the player row is added and one record is logged. */
    method RunCharacter(ch: CharacterSetupSystem)
      requires Valid() && ch in characterSet
      modifies this`player, r`next, r`tables, log`calls, ch.renderer`created
      ensures Valid() && PlayerReady()
      ensures ch.renderer.created == old(ch.renderer.created) + [FromSurface(CharacterSpriteFile)]
      ensures r.next == old(r.next) + 1
      ensures r.tables.tags == old(r.tables.tags)[old(r.next) := Tag(PlayerTag)]
      ensures r.tables.transforms == old(r.tables.transforms)[old(r.next) := PlayerStart]
      ensures r.tables.movements == old(r.tables.movements)[old(r.next) := PlayerSpeed]
      ensures r.tables.sprites == old(r.tables.sprites)[old(r.next) := DefaultSprite(|ch.renderer.created|)]
      ensures log.calls == old(log.calls) +
        [SetupRan(ch, ch.renderer, CacheState(map[], old(ch.renderer.created)), CacheState(map[], ch.renderer.created))]
    {
      ch.Setup();
    }

    /** What a tile-map run of `t` does, as a change of the setup view. */
    twostate lemma TilemapRan(t: TilemapSystem)
      requires unchanged(this, r) && t in tileSet && t.renderer in renderers && t.tilemap in tilemaps
      requires forall g | g in renderers && g != t.renderer :: g.created == old(g.created)
      requires forall u | u in tileSet && u != t :: u.tiles == old(u.tiles) && u.tilemap[..] == old(u.tilemap[..])
      requires CacheState(t.tiles, t.renderer.created) == Walk(CacheState(old(t.tiles), old(t.renderer.created)), GridCodes())
      requires t.tilemap[..] == FilledTable(t.tiles)
      requires log.calls == old(log.calls) + [SetupRan(t, t.renderer, CacheState(old(t.tiles), old(t.renderer.created)), CacheState(t.tiles, t.renderer.created))]
      ensures RanFrom(TilemapSetup(t), old(SetupState()), SetupState())
    {
      CreatedMapAfter(t.renderer);
      CacheMapAfter(t);
      SlotMapAfter(t);
    }

    /** What a character setup run of `ch` does, as a change of the setup view. */
    twostate lemma CharacterRan(ch: CharacterSetupSystem)
      requires unchanged(this`tileSet, this`tilemaps, this`renderers) && ch.renderer in renderers
      requires forall g | g in renderers && g != ch.renderer :: g.created == old(g.created)
      requires forall u | u in tileSet :: u.tiles == old(u.tiles) && u.tilemap[..] == old(u.tilemap[..])
      requires ch.renderer.created == old(ch.renderer.created) + [FromSurface(CharacterSpriteFile)]
      requires log.calls == old(log.calls) + [SetupRan(ch, ch.renderer, CacheState(map[], old(ch.renderer.created)), CacheState(map[], ch.renderer.created))]
      requires r.next == old(r.next) + 1
      requires r.tables.tags == old(r.tables.tags)[old(r.next) := Tag(PlayerTag)]
      requires r.tables.transforms == old(r.tables.transforms)[old(r.next) := PlayerStart]
      requires r.tables.movements == old(r.tables.movements)[old(r.next) := PlayerSpeed]
      requires r.tables.sprites == old(r.tables.sprites)[old(r.next) := DefaultSprite(|ch.renderer.created|)]
      requires PlayerReady()
      ensures RanFrom(CharacterSetup(ch), old(SetupState()), SetupState())
    {
      assert r.tables == WithPlayer(old(r.tables), old(r.next), |ch.renderer.created|);
      CreatedMapAfter(ch.renderer);
    }

    /** Only the creations of `g0` changed: the creations map is updated at `g0` alone. */
    twostate lemma CreatedMapAfter(g0: Renderer)
      requires renderers == old(renderers) && g0 in renderers
      requires forall g | g in renderers && g in old(renderers) && g != g0 :: g.created == old(g.created)
      ensures CreatedMap() == old(CreatedMap())[g0 := g0.created]
    {
    }

    /** Only the cache of `t0` changed: the cache map is updated at `t0` alone. */
    twostate lemma CacheMapAfter(t0: TilemapSystem)
      requires tileSet == old(tileSet) && t0 in tileSet
      requires forall t | t in tileSet && t in old(tileSet) && t != t0 :: t.tiles == old(t.tiles)
      ensures CacheMap() == old(CacheMap())[t0 := t0.tiles]
    {
    }

    /** Only the table of `t0` changed: the table map is updated at `t0` alone. */
    twostate lemma SlotMapAfter(t0: TilemapSystem)
      requires tileSet == old(tileSet) && tilemaps == old(tilemaps) && t0 in tileSet && t0.tilemap in tilemaps
      requires forall t | t in tileSet && t in old(tileSet) && t != t0 :: t.tilemap[..] == old(t.tilemap[..])
      ensures SlotMap() == old(SlotMap())[t0 := t0.tilemap[..]]
    {
    }

    /**
     * Hands the same event to every input system once, in list order: only the player's
     * Movement changes, to `KeyEffectTimes` of the old one.
     */
    method Input(ev: Event)
      requires Valid()
      requires inputSystems != [] ==> player != null && player.handle in r.tables.movements
      modifies r`tables, log`calls
      ensures Valid()
      ensures log.calls == old(log.calls) + InputCalls(inputSystems, ev)
      ensures inputSystems == [] ==> r.tables == old(r.tables)
      ensures inputSystems != [] ==>
        r.tables == old(r.tables).(movements := old(r.tables.movements)[player.handle :=
          KeyEffectTimes(old(r.tables.movements)[player.handle], ev, |inputSystems|)])
    {
      var i := 0;
      while i < |inputSystems|
        invariant 0 <= i <= |inputSystems|
        invariant Valid() && InputProgress(ev, i, old(log.calls), old(r.tables))
      {
        InputStep(ev, i, old(log.calls), old(r.tables));
        i := i + 1;
      }
      assert inputSystems[..i] == inputSystems;
    }

    /**
     * After the first `i` input runs: their records follow `calls0`, and the tables are
     * `tables0` with the player's Movement stepped `i` times.
     */
    ghost predicate InputProgress(ev: Event, i: nat, calls0: seq<Call>, tables0: Tables)
      reads this, r, log
    {
      && i <= |inputSystems|
      && log.calls == calls0 + InputCalls(inputSystems[..i], ev)
      && (inputSystems == [] ==> r.tables == tables0)
      && (inputSystems != [] ==>
            && player != null && player.handle in tables0.movements
            && r.tables == tables0.(movements := tables0.movements[player.handle :=
                 KeyEffectTimes(tables0.movements[player.handle], ev, i)]))
    }

    /** The `i`-th input run, carrying `InputProgress` one step further. */
    method InputStep(ev: Event, i: nat, ghost calls0: seq<Call>, ghost tables0: Tables)
      requires Valid() && i < |inputSystems| && InputProgress(ev, i, calls0, tables0)
      modifies r`tables, log`calls
      ensures Valid() && InputProgress(ev, i + 1, calls0, tables0)
    {
      var s := inputSystems[i];
      assert s.inputSystem in inputSet;
      s.inputSystem.Input(ev);
      assert inputSystems[..i + 1][..i] == inputSystems[..i];
    }

    /**
     * Hands the same time step to every update system once, in list order: only the
     * transforms change, to `MoveTimes` of the old ones.
     */
    method Update(dT: real)
      requires Valid()
      modifies r`tables, log`calls
      ensures Valid()
      ensures log.calls == old(log.calls) + UpdateCalls(updateSystems, dT)
      ensures r.tables == old(r.tables).(transforms := MoveTimes(old(r.tables.transforms), r.tables.movements, dT, |updateSystems|))
    {
      var i := 0;
      while i < |updateSystems|
        invariant 0 <= i <= |updateSystems|
        invariant Valid() && UpdateProgress(dT, i, old(log.calls), old(r.tables))
      {
        UpdateStep(dT, i, old(log.calls), old(r.tables));
        i := i + 1;
      }
      assert updateSystems[..i] == updateSystems;
    }

    /**
     * After the first `i` update runs: their records follow `calls0`, and the tables are
     * `tables0` with the transforms moved `i` times.
     */
    ghost predicate UpdateProgress(dT: real, i: nat, calls0: seq<Call>, tables0: Tables)
      reads this, r, log
    {
      && i <= |updateSystems|
      && log.calls == calls0 + UpdateCalls(updateSystems[..i], dT)
      && r.tables == tables0.(transforms := MoveTimes(tables0.transforms, tables0.movements, dT, i))
    }

    /** The `i`-th update run, carrying `UpdateProgress` one step further. */
    method UpdateStep(dT: real, i: nat, ghost calls0: seq<Call>, ghost tables0: Tables)
      requires Valid() && i < |updateSystems| && UpdateProgress(dT, i, calls0, tables0)
      modifies r`tables, log`calls
      ensures Valid() && UpdateProgress(dT, i + 1, calls0, tables0)
    {
      var s := updateSystems[i];
      assert s.updateSystem in updateSet;
      s.updateSystem.Update(dT);
      assert updateSystems[..i + 1][..i] == updateSystems[..i];
    }

    /** A sprite render needs the player's position as its camera. */
    ghost predicate CanRender()
      reads this, r
    {
      forall s | s in renderSystems && s.SpriteRender? :: player != null && player.handle in r.tables.transforms
    }

    /**
     * Runs every render system once on `target`, in list order: the new log records are
     * the systems' own draws, and `target` receives exactly those draws, in that order.
     */
    method Render(target: Renderer)
      requires Valid() && CanRender()
      modifies target`draws, log`calls
      ensures Valid()
      ensures |log.calls| == |old(log.calls)| + |renderSystems|
      ensures log.calls[..|old(log.calls)|] == old(log.calls)
      ensures forall k | 0 <= k < |renderSystems| :: Rendered(renderSystems[k], target, log.calls[|old(log.calls)| + k])
      ensures target.draws == old(target.draws) + Drawn(log.calls[|old(log.calls)|..])
    {
      var i := 0;
      while i < |renderSystems|
        invariant 0 <= i <= |renderSystems|
        invariant Valid() && CanRender()
        invariant RenderProgress(target, i, old(log.calls), old(target.draws))
      {
        RenderStep(target, i, old(log.calls), old(target.draws));
        i := i + 1;
      }
    }

    /**
     * After the first `i` render runs: one record each after `calls0`, each what its
     * system draws, and `target` received their draws after `draws0`.
     */
    ghost predicate RenderProgress(target: Renderer, i: nat, calls0: seq<Call>, draws0: seq<Draw>)
      reads this, r, log, target, tilemaps.Keys
    {
      && i <= |renderSystems|
      && |log.calls| == |calls0| + i && log.calls[..|calls0|] == calls0
      && (forall k | 0 <= k < i :: Rendered(renderSystems[k], target, log.calls[|calls0| + k]))
      && target.draws == draws0 + Drawn(log.calls[|calls0|..])
    }

    /** The `i`-th render run, carrying `RenderProgress` one step further. */
    method RenderStep(target: Renderer, i: nat, ghost calls0: seq<Call>, ghost draws0: seq<Draw>)
      requires Valid() && CanRender() && i < |renderSystems| && RenderProgress(target, i, calls0, draws0)
      modifies target`draws, log`calls
      ensures RenderProgress(target, i + 1, calls0, draws0)
    {
      ghost var n0 := |calls0|;
      ghost var before := log.calls;
      RunRender(renderSystems[i], target);
      assert log.calls[n0..] == before[n0..] + [log.calls[n0 + i]];
      assert log.calls[n0..][..i] == before[n0..];
    }

    /** `sys->run(renderer)` on one render system. */
    method RunRender(s: RenderSystem, target: Renderer)
      requires Valid() && CanRender() && s in renderSystems
      modifies target`draws, log`calls
      ensures |log.calls| == |old(log.calls)| + 1 && log.calls[..|old(log.calls)|] == old(log.calls)
      ensures Rendered(s, target, log.calls[|old(log.calls)|])
      ensures target.draws == old(target.draws) + log.calls[|old(log.calls)|].drawn
    {
      match s
      case TilemapRender(t) => t.Render(target);
      case SpriteRender(p) => p.Render(target);
    }
  }

  class Entity {
    const handle: EntityId
    const scene: Scene

    constructor (handle: EntityId, scene: Scene)
      ensures this.handle == handle && this.scene == scene
    {
      this.handle := handle;
      this.scene := scene;
    }

    /** A second handle on the same row of the same scene. */
    constructor Copy(copy: Entity)
      ensures handle == copy.handle && scene == copy.scene
    {
      handle := copy.handle;
      scene := copy.scene;
    }

    /** Stores `c` as this row's component of its type, which the row must not hold yet. */
    method AddComponent(c: Component) returns (stored: Component)
      requires scene.r.Valid() && handle < scene.r.next && !scene.r.tables.Has(c.Kind(), handle)
      modifies scene.r`tables
      ensures scene.r.Valid()
      ensures scene.r.tables == old(scene.r.tables).Put(handle, c)
      ensures stored == c
    {
      stored := scene.r.Emplace(handle, c);
    }

    /** Drops this row's component of type `k`, if any; nothing else changes. */
    method RemoveComponent(k: Kind)
      requires scene.r.Valid()
      modifies scene.r`tables
      ensures scene.r.Valid()
      ensures scene.r.tables == old(scene.r.tables).Drop(k, handle)
    {
      scene.r.Remove(handle, k);
    }

    /** This row's component of type `k`, which it must hold. */
    method GetComponent(k: Kind) returns (c: Component)
      requires scene.r.tables.Has(k, handle)
      ensures c == scene.r.tables.Lookup(k, handle)
    {
      c := scene.r.Get(handle, k);
    }
  }

  /**
   * Loads the tile images and caches one texture per tile code (setup), and draws the
   * 20 x 20 grid of 32-pixel tiles (render).
   */
  class TilemapSystem {
    var scene: Scene?
    const renderer: Renderer
    /** Tile code to the texture created for it. */
    var tiles: map<int, TextureId>
    /** Slot `i * 20 + j` holds the texture of cell (i, j). */
    const tilemap: array<TextureId>

    constructor (renderer: Renderer)
      ensures scene == null && this.renderer == renderer && tiles == map[]
      ensures fresh(tilemap) && tilemap.Length == CellCount
      ensures forall k | 0 <= k < CellCount :: tilemap[k] == NullTexture
    {
      scene := null;
      this.renderer := renderer;
      tiles := map[];
      tilemap := new TextureId[CellCount](_ => NullTexture);
    }

    method SetScene(s: Scene)
      modifies this`scene
      ensures scene == s
    {
      scene := s;
    }

    /** Every slot holds the cached texture of its cell's code. */
    ghost predicate Loaded()
      reads this, tilemap
    {
      && tilemap.Length == CellCount
      && forall i, j | 0 <= i < TilesWidth && 0 <= j < TilesHeight ::
           Mmap(i, j) in tiles && tilemap[CellIndex(i, j)] == tiles[Mmap(i, j)]
    }

    /**
     * Walks the grid in row-major order; an uncached code gets a texture created from its
     * image file. The cache and the renderer's creations follow `Walk`, and every slot
     * holds the cached texture of its cell's code.
     */
    method Setup()
      requires scene != null && tilemap.Length == CellCount
      modifies this`tiles, tilemap, renderer`created, scene.log`calls
      ensures CacheState(tiles, renderer.created) == Walk(CacheState(old(tiles), old(renderer.created)), GridCodes())
      ensures Loaded() && tilemap[..] == FilledTable(tiles)
      ensures scene.log.calls == old(scene.log.calls) +
        [SetupRan(this, renderer, CacheState(old(tiles), old(renderer.created)), CacheState(tiles, renderer.created))]
    {
      ghost var st0 := CacheState(tiles, renderer.created);
      LoadGrid();
      FilledIsLoaded(GridCodes());
      scene.log.calls := scene.log.calls + [SetupRan(this, renderer, st0, CacheState(tiles, renderer.created))];
    }

    /** The two loops of the setup walk, row by row: every slot gets its code's cached texture. */
    method LoadGrid()
      requires tilemap.Length == CellCount
      modifies this`tiles, tilemap, renderer`created
      ensures CacheState(tiles, renderer.created) == Walk(CacheState(old(tiles), old(renderer.created)), GridCodes())
      ensures Filled(GridCodes(), CellCount)
    {
      ghost var st0 := CacheState(tiles, renderer.created);
      ghost var codes := GridCodes();
      assert codes[..0] == [];
      var i := 0;
      while i < TilesWidth
        invariant 0 <= i <= TilesWidth
        invariant InSlots(codes[..i * TilesWidth])
        invariant CacheState(tiles, renderer.created) == Walk(st0, codes[..i * TilesWidth])
        invariant Filled(codes, i * TilesWidth)
      {
        LoadRow(i, st0, codes);
        i := i + 1;
      }
      assert codes[..CellCount] == codes;
    }

    /** The first `n` slots hold the cached textures of their codes. */
    ghost predicate Filled(codes: seq<int>, n: nat)
      reads this, tilemap
    {
      && n <= |codes| && n <= tilemap.Length
      && forall k | 0 <= k < n :: codes[k] in tiles && tilemap[k] == tiles[codes[k]]
    }

    /** Filling every slot, in grid order, fills the table. */
    lemma FilledIsLoaded(codes: seq<int>)
      requires codes == GridCodes() && tilemap.Length == CellCount && Filled(codes, CellCount)
      ensures Loaded() && tilemap[..] == FilledTable(tiles)
    {
      forall i, j | 0 <= i < TilesWidth && 0 <= j < TilesHeight
        ensures Mmap(i, j) in tiles && tilemap[CellIndex(i, j)] == tiles[Mmap(i, j)]
      {
        assert codes[CellIndex(i, j)] == Mmap(i, j);
      }
      forall k | 0 <= k < CellCount
        ensures tilemap[k] == FilledTable(tiles)[k]
      {
        assert codes[k] == CellCode(k);
      }
    }

    /** A table holding the filled table of a cache with every grid code is filled. */
    lemma LoadedFromTable()
      requires tilemap.Length == CellCount && FilledFrom(tilemap[..], tiles)
      ensures Loaded()
    {
      forall i, j | 0 <= i < TilesWidth && 0 <= j < TilesHeight
        ensures Mmap(i, j) in tiles && tilemap[CellIndex(i, j)] == tiles[Mmap(i, j)]
      {
        assert CellCode(CellIndex(i, j)) == Mmap(i, j);
        assert tilemap[CellIndex(i, j)] == FilledTable(tiles)[CellIndex(i, j)];
      }
    }

    /** Row `i` of the setup walk. */
    method LoadRow(i: nat, ghost st0: CacheState, ghost codes: seq<int>)
      requires i < TilesWidth && codes == GridCodes() && tilemap.Length == CellCount
      requires InSlots(codes[..i * TilesWidth])
      requires CacheState(tiles, renderer.created) == Walk(st0, codes[..i * TilesWidth])
      requires Filled(codes, i * TilesWidth)
      modifies this`tiles, tilemap, renderer`created
      ensures InSlots(codes[..(i + 1) * TilesWidth])
      ensures CacheState(tiles, renderer.created) == Walk(st0, codes[..(i + 1) * TilesWidth])
      ensures Filled(codes, (i + 1) * TilesWidth)
    {
      ghost var base := i * TilesWidth;
      assert base + TilesHeight == (i + 1) * TilesWidth <= CellCount;
      var j := 0;
      while j < TilesHeight
        invariant 0 <= j <= TilesHeight
        invariant InSlots(codes[..base + j])
        invariant CacheState(tiles, renderer.created) == Walk(st0, codes[..base + j])
        invariant Filled(codes, base + j)
      {
        var k := CellIndex(i, j);
        assert k == base + j;
        var surfaceIndex := Mmap(i, j);
        assert surfaceIndex == codes[k];
        WalkSnoc(st0, codes, k);
        LoadCell(k, surfaceIndex, codes);
        j := j + 1;
      }
    }

    /**
     * One cell of the setup walk: slot `k` gets the cached texture of `code`, created from
     * its image file on a miss.
     */
    method LoadCell(k: nat, code: int, ghost codes: seq<int>)
      requires k < tilemap.Length && k < |codes| && codes[k] == code && 0 <= code < TilesCount
      requires Filled(codes, k)
      modifies this`tiles, tilemap, renderer`created
      ensures CacheState(tiles, renderer.created) == CacheStep(CacheState(old(tiles), old(renderer.created)), code)
      ensures Filled(codes, k + 1)
    {
      ghost var tiles0 := tiles;
      ghost var slots0 := tilemap[..];
      if code !in tiles {
        var texture := renderer.CreateTextureFromSurface(Files[code]);
        tiles := tiles[code := texture];
        tilemap[k] := texture;
      } else {
        tilemap[k] := tiles[code];
      }
      forall m | 0 <= m < k + 1
        ensures codes[m] in tiles && tilemap[m] == tiles[codes[m]]
      {
        if m < k {
          assert codes[m] in tiles0 && slots0[m] == tiles0[codes[m]];
        }
      }
    }

    /** Draws every slot once, row by row, on `target`. */
    method Render(target: Renderer)
      requires scene != null && tilemap.Length == CellCount
      modifies target`draws, scene.log`calls
      ensures target.draws == old(target.draws) + TileDraws(tilemap[..])
      ensures scene.log.calls == old(scene.log.calls) + [RenderRan(this, target, [], TileDraws(tilemap[..]))]
    {
      var rect := Rect(OriginX, OriginY, TileWidth, TileHeight);
      var i := 0;
      while i < TilesWidth
        invariant 0 <= i <= TilesWidth
        invariant rect == Rect(0, i * TileHeight, TileWidth, TileHeight)
        invariant target.draws == old(target.draws) + TileDrawsUpTo(tilemap[..], i * TilesWidth)
        invariant scene.log.calls == old(scene.log.calls)
      {
        rect := RenderRow(target, i, rect, old(target.draws));
        rect := rect.(x := 0, y := rect.y + TileHeight);
        i := i + 1;
      }
      scene.log.calls := scene.log.calls + [RenderRan(this, target, [], TileDraws(tilemap[..]))];
    }

    /**
     * Row `i` of a render: one draw per cell of the row, left to right, `rect` moving
     * one tile width each time.
     */
    method RenderRow(target: Renderer, i: nat, rect0: Rect, ghost draws0: seq<Draw>) returns (rect: Rect)
      requires i < TilesWidth && tilemap.Length == CellCount
      requires rect0 == Rect(0, i * TileHeight, TileWidth, TileHeight)
      requires target.draws == draws0 + TileDrawsUpTo(tilemap[..], i * TilesWidth)
      modifies target`draws
      ensures rect == Rect(TilesHeight * TileWidth, i * TileHeight, TileWidth, TileHeight)
      ensures target.draws == draws0 + TileDrawsUpTo(tilemap[..], (i + 1) * TilesWidth)
    {
      ghost var base := i * TilesWidth;
      assert base + TilesHeight == (i + 1) * TilesWidth <= CellCount;
      rect := rect0;
      var j := 0;
      while j < TilesHeight
        invariant 0 <= j <= TilesHeight
        invariant rect == Rect(j * TileWidth, i * TileHeight, TileWidth, TileHeight)
        invariant target.draws == draws0 + TileDrawsUpTo(tilemap[..], base + j)
      {
        var k := CellIndex(i, j);
        assert k == base + j;
        target.RenderCopy(tilemap[k], None, rect);
        rect := rect.(x := rect.x + TileWidth);
        j := j + 1;
      }
    }
  }

  /** Creates the player: a textured row tagged "PLAYER", stored as the scene's player. */
  class CharacterSetupSystem {
    var scene: Scene?
    const renderer: Renderer

    constructor (renderer: Renderer)
      ensures scene == null && this.renderer == renderer
    {
      scene := null;
      this.renderer := renderer;
    }

    method SetScene(s: Scene)
      modifies this`scene
      ensures scene == s
    {
      scene := s;
    }

    /**
     * One new row with Tag "PLAYER", Transform (100, 100), Movement (100, 100) and the
     * default Sprite of a texture newly created from the character image; nothing else
     * in the registry changes, and the scene's player becomes a copy of the new handle.
     */
    method Setup()
      requires scene != null && scene.Consistent()
      modifies renderer`created, scene`player, scene.r`next, scene.r`tables, scene.log`calls
      ensures scene.Consistent() && scene.PlayerReady()
      ensures renderer.created == old(renderer.created) + [FromSurface(CharacterSpriteFile)]
      ensures fresh(scene.player) && scene.player.handle == old(scene.r.next)
      ensures scene.r.next == old(scene.r.next) + 1
      ensures scene.r.tables.tags == old(scene.r.tables.tags)[scene.player.handle := Tag(PlayerTag)]
      ensures scene.r.tables.transforms == old(scene.r.tables.transforms)[scene.player.handle := PlayerStart]
      ensures scene.r.tables.movements == old(scene.r.tables.movements)[scene.player.handle := PlayerSpeed]
      ensures scene.r.tables.sprites == old(scene.r.tables.sprites)[scene.player.handle := DefaultSprite(|renderer.created|)]
      ensures scene.log.calls == old(scene.log.calls) +
        [SetupRan(this, renderer, CacheState(map[], old(renderer.created)), CacheState(map[], renderer.created))]
    {
      var sc := scene;
      ghost var created0 := renderer.created;
      var texture := renderer.CreateTextureFromSurface(CharacterSpriteFile);
      var player := CreatePlayer(texture);
      sc.player := new Entity.Copy(player);
      sc.log.calls := sc.log.calls + [SetupRan(this, renderer, CacheState(map[], created0), CacheState(map[], renderer.created))];
    }

    /** The registry part of the setup: the new player row and its four components. */
    method CreatePlayer(texture: TextureId) returns (player: Entity)
      requires scene != null && scene.Consistent()
      modifies scene.r`next, scene.r`tables
      ensures scene.Consistent()
      ensures fresh(player) && player.scene == scene && player.handle == old(scene.r.next)
      ensures scene.r.next == old(scene.r.next) + 1
      ensures scene.r.tables.tags == old(scene.r.tables.tags)[player.handle := Tag(PlayerTag)]
      ensures scene.r.tables.transforms == old(scene.r.tables.transforms)[player.handle := PlayerStart]
      ensures scene.r.tables.movements == old(scene.r.tables.movements)[player.handle := PlayerSpeed]
      ensures scene.r.tables.sprites == old(scene.r.tables.sprites)[player.handle := DefaultSprite(texture)]
    {
      var sc := scene;
      player := sc.CreateEntity(PlayerTag, PlayerStart.posX, PlayerStart.posY);
      var _ := player.AddComponent(MovementPart(Movement(PlayerSpeed.speedX, PlayerSpeed.speedY)));
      var _ := player.AddComponent(SpritePart(Sprite(0, 0, 32, texture)));
    }
  }

  /** Moves every row that has both a Transform and a Movement. */
  class MovementUpdateSystem {
    var scene: Scene?

    constructor ()
      ensures scene == null
    {
      scene := null;
    }

    method SetScene(s: Scene)
      modifies this`scene
      ensures scene == s
    {
      scene := s;
    }

    /** The transforms become `MoveAll` of the old ones; nothing else changes. */
    method Update(dT: real)
      requires scene != null && scene.Consistent()
      modifies scene.r`tables, scene.log`calls
      ensures scene.Consistent()
      ensures scene.r.tables == old(scene.r.tables).(transforms := MoveAll(old(scene.r.tables.transforms), scene.r.tables.movements, dT))
      ensures scene.log.calls == old(scene.log.calls) + [UpdateRan(this, dT)]
    {
      var r := scene.r;
      ghost var before := r.tables;
      ghost var view := before.transforms.Keys * before.movements.Keys;
      var remaining := r.tables.transforms.Keys * r.tables.movements.Keys;
      while remaining != {}
        invariant remaining <= view
        invariant r.Valid()
        invariant r.tables == before.(transforms := r.tables.transforms)
        invariant r.tables.transforms.Keys == before.transforms.Keys
        invariant forall e | e in before.transforms ::
          r.tables.transforms[e] == if e in view - remaining then Step(before.transforms[e], before.movements[e], dT) else before.transforms[e]
        invariant scene.log.calls == old(scene.log.calls)
        decreases remaining
      {
        var e :| e in remaining;
        var pos := r.Get(e, TransformKind);
        var vel := r.Get(e, MovementKind);
        var posX := Advance(pos.transform.posX, vel.movement.speedX, dT);
        var posY := Advance(pos.transform.posY, vel.movement.speedY, dT);
        r.Replace(e, TransformPart(Transform(posX, posY)));
        remaining := remaining - {e};
      }
      assert r.tables.transforms == MoveAll(before.transforms, before.movements, dT);
      scene.log.calls := scene.log.calls + [UpdateRan(this, dT)];
    }
  }

  /** Steers the player with the arrow keys. */
  class PlayerInputSystem {
    var scene: Scene?

    constructor ()
      ensures scene == null
    {
      scene := null;
    }

    method SetScene(s: Scene)
      modifies this`scene
      ensures scene == s
    {
      scene := s;
    }

    /** The player's Movement becomes `KeyEffect` of the old one; nothing else changes. */
    method Input(ev: Event)
      requires scene != null && scene.Consistent()
      requires scene.player != null && scene.player.handle in scene.r.tables.movements
      modifies scene.r`tables, scene.log`calls
      ensures scene.Consistent()
      ensures scene.r.tables == old(scene.r.tables).(movements :=
        old(scene.r.tables.movements)[scene.player.handle := KeyEffect(old(scene.r.tables.movements)[scene.player.handle], ev)])
      ensures scene.log.calls == old(scene.log.calls) + [InputRan(this, ev)]
    {
      var player := scene.player;
      var c := player.GetComponent(MovementKind);
      var playerMov := c.movement;
      var speed := Speed;
      if ev.KeyDown? {
        match ev.key
        case Left => playerMov := playerMov.(speedX := -speed);
        case Right => playerMov := playerMov.(speedX := speed);
        case Up => playerMov := playerMov.(speedY := -speed);
        case Down => playerMov := playerMov.(speedY := speed);
        case OtherKey(_) =>
      }
      if ev.KeyUp? {
        match ev.key
        case Left => playerMov := playerMov.(speedX := 0);
        case Right => playerMov := playerMov.(speedX := 0);
        case Up => playerMov := playerMov.(speedY := 0);
        case Down => playerMov := playerMov.(speedY := 0);
        case OtherKey(_) =>
      }
      scene.r.Replace(player.handle, MovementPart(playerMov));
      scene.log.calls := scene.log.calls + [InputRan(this, ev)];
    }
  }

  /** Draws every row that has both a Transform and a Sprite, relative to the player. */
  class SpriteRenderSystem {
    var scene: Scene?

    constructor ()
      ensures scene == null
    {
      scene := null;
    }

    method SetScene(s: Scene)
      modifies this`scene
      ensures scene == s
    {
      scene := s;
    }

    /**
     * One pass over the Transform+Sprite view, in some order visiting each row once;
     * `target` receives the `SpriteDraws` of that order with the player's position as
     * the camera.
     */
    method Render(target: Renderer)
      requires scene != null && scene.Consistent()
      requires scene.player != null && scene.player.handle in scene.r.tables.transforms
      modifies target`draws, scene.log`calls
      ensures |scene.log.calls| == |old(scene.log.calls)| + 1
      ensures scene.log.calls[..|old(scene.log.calls)|] == old(scene.log.calls)
      ensures scene.Rendered(SpriteRender(this), target, scene.log.calls[|old(scene.log.calls)|])
      ensures target.draws == old(target.draws) + scene.log.calls[|old(scene.log.calls)|].drawn
    {
      var cam := scene.player.GetComponent(TransformKind);
      var camera := cam.transform;
      var r := scene.r;
      ghost var view := r.tables.transforms.Keys * r.tables.sprites.Keys;
      ghost var order: seq<EntityId> := [];
      var remaining := r.tables.transforms.Keys * r.tables.sprites.Keys;
      while remaining != {}
        invariant remaining <= view
        invariant forall e | e in order :: e in view && e !in remaining
        invariant forall e | e in view && e !in remaining :: e in order
        invariant forall a, b | 0 <= a < b < |order| :: order[a] != order[b]
        invariant target.draws == old(target.draws) + SpriteDraws(order, r.tables.transforms, r.tables.sprites, camera)
        invariant scene.log.calls == old(scene.log.calls)
        decreases remaining
      {
        var e :| e in remaining;
        var pos := r.Get(e, TransformKind);
        var sprite := r.Get(e, SpriteKind);
        var dstTileSize := sprite.sprite.size;
        var src := Rect(sprite.sprite.x, sprite.sprite.y, sprite.sprite.size, sprite.sprite.size);
        var dst := Rect(pos.transform.posX - camera.posX, pos.transform.posY - camera.posY, dstTileSize, dstTileSize);
        target.RenderCopy(sprite.sprite.texture, Some(src), dst);
        SpriteDrawsSnoc(order, e, r.tables.transforms, r.tables.sprites, camera);
        order := order + [e];
        remaining := remaining - {e};
      }
      ghost var drawn := SpriteDraws(order, r.tables.transforms, r.tables.sprites, camera);
      scene.log.calls := scene.log.calls + [RenderRan(this, target, order, drawn)];
    }
  }
}
