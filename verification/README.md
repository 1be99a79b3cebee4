# A verified model of a small entity-component game scene

This project models, in Dafny, the core of a minimal 2D game engine written in C++ on
SDL and entt:

- **The scene** (`Scene`): four ordered lists of systems (setup, input, update, render);
  an entity registry; the player handle.
- **The entity handle** (`Entity`): a registry row plus a back-pointer to its scene.
- **The five systems**:
  - the tile map, which caches one texture per tile code and draws a 20 x 20 grid;
  - the character setup, which creates the player;
  - the player input, which steers with the arrow keys;
  - the movement update;
  - the camera-relative sprite render.
- **The `Textures` pixel-buffer wrapper**: a lock state over the streaming texture's
  memory, shaders applied in place or into a copy, pixel counting and indexing, and the
  size selection of a plain render.

## Modules

| file | module | what it holds |
|---|---|---|
| `wrappers.dfy` | `Wrappers` | `Option` |
| `components.dfy` | `Components` | the component records `Tag`, `Transform`, `Movement` and `Sprite` (defaults 0/0/32) |
| `backend.dfy` | `Backend` | the SDL renderer (see below); rectangles, keys and events |
| `registry.dfy` | `Registry` | the entt registry as one map per component type (`Tables`), plus the identifier counter |
| `system_rules.dfy` | `SystemRules` | the deterministic rules inside the systems, as functions with lemmas about them |
| `scene.dfy` | `Scene` | the scene, the entity handle and the five system classes |
| `textures.dfy` | `Textures` | the texture wrapper over a `StreamingTexture` |
| `game.dfy` | `Game` | the scene wiring of `Game::setup` and one render of the wired scene |

The rules in `SystemRules` are:

- the tile grid and its texture cache (`Walk`);
- tile draw placement;
- the per-axis key state machine;
- one movement step;
- the sprite draw.

In `backend.dfy`, the renderer is a class with two logs. `created` records each texture it
creates. `draws` records each `SDL_RenderCopy` call. Texture `k + 1` is the `k`-th
creation, and 0 stands for a null texture.

### How the scene is modelled

The scene and the systems refer to each other, and the source dispatches through virtual
`run` methods. So each phase list holds a closed variant naming the concrete system, for
example `TilemapSetup(t)` or `CharacterSetup(c)`.

Each system run appends a record of itself to a ghost call log. Each phase method
(`Setup`, `Input`, `Update`, `Render`) promises that the log grows by exactly its list, in
registration order. It also says what happens to the registry:

- `Setup` leaves the state exactly as `SetupRun` says: a fold of one step per setup
  system over a value view of the call log, each renderer's creations, each tile map's
  cache and table, and the registry. The player object is not part of that view. Every
  listed tile map ends with its table filled from its cache, and existing rows keep their
  components. With a character setup listed the player is ready; without one, the player
  and the registry are unchanged.
- `Input` changes only the player's Movement, to the key effect applied once per input
  system.
- `Update` changes only the transforms, to `MoveAll` applied once per update system.
- `Render` sends to the target exactly the draws of each render system, in order.

The registry's iteration order is not fixed. A view is the intersection of the key sets of
two tables, and a pass over it is any order that visits each member once (`Enumerates`).

### Behaviour worth knowing

- The player is created with Movement (100, 100) (src/Scene/Systems.hpp:117), so it is
  already moving diagonally before any key is pressed. A RIGHT key-down followed by a tenth
  of a second of movement takes it from (100, 100) to (110, 110)
  (`Scene.PlayerAfterRightForATenth`).
- Opposite arrow keys do not cancel. The later key-down overwrites the axis: LEFT then
  RIGHT moves right at full speed (`SystemRules.LeftThenRight`).
- `getPixel(x, y)` indexes `(y * pitch) / 4 + x`. This is the row-major index whenever the
  pitch is a multiple of 4. The pitch a locked streaming texture of 32-bit pixels reports
  always is one, padding included. For other pitches the two differ
  (`Textures.PixelIndexRowMajor`, `Textures.PixelIndexUnaligned`).
- A locked texture's rows may be padded: the pitch is a whole number of pixels, at least
  the width. `renderWithShader` copies the first `w * h` entries of the held texture's
  memory into the copy's memory, entry by entry. So the copy holds the shaded image only
  when neither texture pads its rows; otherwise its later rows are shifted.
- Each tile table belongs to one tile map. The scene records which tile map owns which
  table, so a setup run of one tile map never changes another's table.

## Model

| member | source | states |
|---|---|---|
| `Registry.Tables.Lookup` | src/Scene/Entity.hpp:39-42 | a get of type k returns a component of type k |
| `Registry.Tables.Put` | src/Scene/Entity.hpp:29-32 | after storing a component, the row holds its type and a later get of that type returns it |
| `Registry.Tables.Drop` | src/Scene/Entity.hpp:34-37 | after removing a type from a row, the row no longer holds that type |
| `Registry.PutKeepsOthers` | src/Scene/Entity.hpp:29-32 | adding a component changes no other type of that row and no other row |
| `Registry.DropOnlyThat` | src/Scene/Entity.hpp:34-37 | removing a component removes exactly that type on that row; every other type and row keeps its component |
| `Registry.Registry.constructor` | src/Scene/Scene.h:26 | a new registry has no rows and no components |
| `Registry.Registry.Create` | src/Scene/Scene.cpp:25 | a new identifier is one never handed out before and holds no component |
| `Registry.Registry.Emplace` | src/Scene/Entity.hpp:31 | stores the component on an existing row that lacks its type and returns it; nothing else changes |
| `Registry.Registry.Remove` | src/Scene/Entity.hpp:36 | the tables lose exactly that row's component of that type |
| `Registry.Registry.Get` | src/Scene/Entity.hpp:41 | returns the row's stored component of the requested type, which it must hold |
| `Registry.Registry.Replace` | src/Scene/Systems.hpp:131-132 | a write through the reference a get hands out: only that entry changes |
| `Registry.GrowsTransitive` | src/Scene/Scene.cpp:56-62 | a registry grown above a bound, then grown above a higher bound, has grown above the first |
| `Backend.Renderer.CreateTextureFromSurface` | src/Scene/Systems.hpp:65 | each creation yields a new non-null texture and is logged once |
| `Backend.Renderer.CreateTexture` | src/Scene/Textures.cpp:170 | a texture with a non-positive dimension is null and nothing is created; otherwise one blank texture is logged |
| `Backend.Renderer.RenderCopy` | src/Scene/Systems.hpp:89 | each copy appends exactly one draw to the renderer's log |
| `SystemRules.Mmap` | src/Scene/Systems.hpp:22-34 | every cell of the 20 x 20 grid holds code 0 or 1, and each such code has an image file |
| `SystemRules.MmapRowsAgree` | src/Scene/Systems.hpp:22-34 | the table's ten written rows of ten codes each are exactly `Mmap` on those cells |
| `SystemRules.CellIndex` | src/Scene/Systems.hpp:72-74 | slot `i * 20 + j` lies in [0, 400) and gives back row i and column j |
| `SystemRules.CellCode` | src/Scene/Systems.hpp:62 | the code of every slot is 0 or 1 |
| `SystemRules.GridCodes` | src/Scene/Systems.hpp:60-62 | the row-major walk visits 400 cells, each with a code naming one of the 4 image slots |
| `SystemRules.CacheStep` | src/Scene/Systems.hpp:62-75 | one cell: the code ends cached and every earlier entry is kept; a hit creates nothing; a miss creates one texture from the code's image file and caches it, or caches the null texture when the slot names no file |
| `SystemRules.Walk` | src/Scene/Systems.hpp:60-77 | a walk creates at most one texture per visited cell |
| `SystemRules.WalkCachesGrid` | src/Scene/Systems.hpp:60-77 | after the walk over the grid, every cell's code is cached |
| `SystemRules.WalkKeeps` | src/Scene/Systems.hpp:63-75 | the setup walk never replaces a cached texture |
| `SystemRules.WalkCaches` | src/Scene/Systems.hpp:63-71 | after the walk, the cache holds exactly the earlier codes plus every code visited |
| `SystemRules.WalkAppends` | src/Scene/Systems.hpp:65 | the walk only appends to the renderer's creations |
| `SystemRules.WalkCreatesOnMiss` | src/Scene/Systems.hpp:63-75 | the walk creates one texture per distinct visited code that was not cached before and whose slot names an image file |
| `SystemRules.CacheStepFromFiles` | src/Scene/Systems.hpp:62-71 | one more cell keeps every texture cached since the start tied to a creation, during the walk, from its code's image file |
| `SystemRules.WalkCreatesFromFile` | src/Scene/Systems.hpp:65-71 | every newly cached texture was created by the walk from its code's image file; a code without a file would cache the null texture |
| `SystemRules.FreshWalk` | src/Scene/Systems.hpp:60-77 | on an empty cache, a walk over codes 0 and 1 starting with 0 creates the floor, then the grass texture once a 1 appears, and caches them under 0 and 1 |
| `SystemRules.GridHoldsFloorAndGrass` | src/Scene/Systems.hpp:22-34 | the grid holds exactly the codes 0 and 1, and its first cell is 0 |
| `SystemRules.FreshSetupCreatesTwo` | src/Scene/Systems.hpp:35-75 | on an empty cache the setup creates exactly two textures, floor then grass, cached under 0 and 1 |
| `SystemRules.CellDraw` | src/Scene/Systems.hpp:85-93 | slot k is drawn with its own texture, unclipped, as a 32 x 32 tile on the 32-pixel grid inside the 640 x 640 field |
| `SystemRules.TileDraws` | src/Scene/Systems.hpp:84-95 | a tile render is 400 draws, the k-th being the draw of slot k |
| `SystemRules.TileDrawPlacement` | src/Scene/Systems.hpp:84-95 | a tile render makes 400 draws; cell (i, j) draws its table texture, unclipped, at (j * 32, i * 32) with size 32 x 32 |
| `SystemRules.TileDrawsRowMajor` | src/Scene/Systems.hpp:87-94 | tile draws come top row first and left to right within a row |
| `SystemRules.KeyEffect` | src/Scene/Systems.hpp:139-177 | an event writes the one axis its arrow key steers (-100, +100 on key-down; 0 on key-up) and keeps the other; other keys and events change nothing |
| `SystemRules.LastWriteWins` | src/Scene/Systems.hpp:144-177 | after any run of events, each axis's speed is the one written by the last event on that axis, or the starting speed if none |
| `SystemRules.LeftThenRight` | src/Scene/Systems.hpp:147-152 | LEFT then RIGHT key-down, with no release, moves right at full speed |
| `SystemRules.KeyEffectTimes` | src/Scene/Scene.cpp:72-78 | the player's Movement after the same event is handed to n input systems in turn; an event that steers no axis leaves it unchanged for every n |
| `SystemRules.KeyEffectTimesOnce` | src/Scene/Scene.cpp:72-78 | handing one event to several input systems in turn has the effect of handing it to one |
| `SystemRules.TruncateTowardZero` | src/Scene/Systems.hpp:131-132 | converting a real position to int truncates toward zero |
| `SystemRules.Advance` | src/Scene/Systems.hpp:131-132 | the new coordinate is `p + speed * dT` truncated toward zero; zero speed keeps it |
| `SystemRules.Step` | src/Scene/Systems.hpp:131-132 | an axis with zero speed keeps its position |
| `SystemRules.AdvanceWhole` | src/Scene/Systems.hpp:131 | a displacement that is a whole number of pixels is added exactly |
| `SystemRules.StepAxesIndependent` | src/Scene/Systems.hpp:131-132 | each axis of a step depends only on that axis's position and speed |
| `SystemRules.MoveAll` | src/Scene/Systems.hpp:125-134 | an update keeps the positioned rows and leaves those without Movement where they are |
| `SystemRules.MoveAllKeeps` | src/Scene/Systems.hpp:125-134 | an update keeps the set of positioned rows and leaves rows without Movement, or with zero Movement, in place |
| `SystemRules.MoveTimes` | src/Scene/Scene.cpp:64-70 | the transforms after the same dT is handed to n update systems in turn; the positioned rows are kept, and rows without Movement stay where they are |
| `SystemRules.MoveTimesKeeps` | src/Scene/Scene.cpp:64-70 | repeated updates never move a row without Movement or with zero Movement |
| `SystemRules.StepExample` | src/Scene/Systems.hpp:131-132 | (100, 100) at speed (100, 0) for 0.1 s becomes (110, 100) |
| `SystemRules.SpriteDraw` | src/Scene/Systems.hpp:197-200 | a sprite is drawn with its texture and source square, at its position minus the camera's, at its own size |
| `SystemRules.SpriteDraws` | src/Scene/Systems.hpp:188-206 | one draw per entity of the pass, in pass order; the k-th draws the k-th entity's sprite texture at its position relative to the camera |
| `SystemRules.CameraAtOrigin` | src/Scene/Systems.hpp:189-200 | the camera's own sprite is drawn at (0, 0) |
| `SystemRules.SpriteDrawFollowsCamera` | src/Scene/Systems.hpp:197-200 | moving a sprite and the camera by the same offset leaves its draw unchanged |
| `SystemRules.SpriteDrawExample` | src/Scene/Systems.hpp:197-200 | a sprite at (150, 120) seen from (100, 100) is drawn at (50, 20) with its own size |
| `SystemRules.EnumeratesSize` | src/Scene/Systems.hpp:193-194 | one pass over a view visits as many rows as the view holds |
| `Scene.PlayerAfterRightForATenth` | src/Scene/Systems.hpp:117 | the player's starting Movement (100, 100) with a RIGHT key-down moves it to (110, 110) in 0.1 s |
| `Scene.Scene.constructor` | src/Scene/Scene.cpp:13-16 | a new scene has four empty lists, an empty registry, no player and no runs |
| `Scene.Scene.CreateEntity` | src/Scene/Scene.cpp:23-30 | a new row, numbered after every earlier one, carrying exactly Tag = name and Transform = (x, y); the Movement and Sprite tables are unchanged |
| `Scene.Scene.AddSetupSystem` | src/Scene/Scene.cpp:32-36 | appends to the setup list only and points the system at this scene |
| `Scene.Scene.AddInputSystem` | src/Scene/Scene.cpp:38-42 | appends to the input list only and points the system at this scene |
| `Scene.Scene.AddUpdateSystem` | src/Scene/Scene.cpp:44-48 | appends to the update list only and points the system at this scene |
| `Scene.Scene.AddRenderSystem` | src/Scene/Scene.cpp:50-54 | appends to the render list only and points the system at this scene |
| `Scene.Scene.RegisterTilemap` | src/Scene/Scene.cpp:34 | the tile map points at this scene and is recorded with its table and renderer |
| `Scene.Scene.RegisterCharacter` | src/Scene/Scene.cpp:34 | the character setup points at this scene and is recorded with its renderer |
| `Scene.Scene.RegisterSprites` | src/Scene/Scene.cpp:52 | the sprite render points at this scene and is recorded |
| `Scene.SetupRunRecords` | src/Scene/Scene.cpp:56-62 | the setup phase appends one record per system, in list order, naming the system and its renderer, and keeps the earlier log |
| `Scene.TablesFilledKept` | src/Scene/Scene.cpp:56-62 | tables stay filled while no filled table is disturbed |
| `Scene.TablesFilledAt` | src/Scene/Scene.cpp:56-62 | every tile map in the setup list has its table filled |
| `Scene.RanFills` | src/Scene/Systems.hpp:53-82 | a tile-map run fills its own table from a cache that covers the grid, and leaves every other filled table filled |
| `Scene.SetupRunFills` | src/Scene/Scene.cpp:56-62 | after the phase, every tile map it ran has its table filled from its cache |
| `Scene.RunsCharacterListed` | src/Scene/Scene.cpp:56-62 | the phase runs a character setup exactly when one is listed |
| `Scene.SetupRunRegistry` | src/Scene/Scene.cpp:56-62 | rows are only added, above the counter the phase found; once a character setup ran the player row is ready; before that, counter and tables are as they were |
| `Scene.SetupAdvance` | src/Scene/Scene.cpp:58-61 | one more run carries the phase's progress over one more system |
| `Scene.Ran` | src/Scene/Scene.cpp:60 | reference definition of one setup run on the value view: one record logged; a tile map's cache and creations follow `Walk` and its table is filled; the character setup creates its texture and adds the player row as entity `next`; its properties are the lemmas `RanFills`, `SetupRunRecords` and `SetupRunRegistry` |
| `Scene.SetupRun` | src/Scene/Scene.cpp:56-62 | reference definition of the setup phase: `Ran` folded over the setup list in order; its properties are the lemmas `SetupRunRecords`, `SetupRunFills` and `SetupRunRegistry` |
| `Scene.InputCalls` | src/Scene/Scene.cpp:72-78 | the log of one input phase: one record per input system, in list order, each with the same event |
| `Scene.UpdateCalls` | src/Scene/Scene.cpp:64-70 | the log of one update phase: one record per update system, in list order, each with the same dT |
| `Scene.Scene.Setup` | src/Scene/Scene.cpp:56-62 | the new state is `SetupRun` of the setup list from the old one; every listed tile map is loaded; existing rows keep their components; a listed character setup leaves the player ready, and without one the player and registry are unchanged |
| `Scene.Scene.RunSetupSystems` | src/Scene/Scene.cpp:58-61 | the loop over the setup list leaves the state `SetupRun` gives |
| `Scene.Scene.SetupStep` | src/Scene/Scene.cpp:60 | the i-th run moves the state from `SetupRun` of the first i systems to that of the first i + 1 |
| `Scene.Scene.TilemapStep` | src/Scene/Scene.cpp:60 | the same, for a tile-map run |
| `Scene.Scene.CharacterStep` | src/Scene/Scene.cpp:60 | the same, for a character setup run |
| `Scene.Scene.SetupTilemap` | src/Scene/Systems.hpp:53-82 | a tile-map run: the cache and creations follow `Walk`, its table is loaded, one record is logged, and the view changes as `Ran` says: no other renderer, cache or table, and not the registry or the player |
| `Scene.Scene.SetupCharacter` | src/Scene/Systems.hpp:108-120 | a character run: one record is logged and the view changes as `Ran` says: one creation, the player row added, no cache or table changed |
| `Scene.Scene.RunTilemap` | src/Scene/Scene.cpp:60 | the tile map's setup run on this scene: cache and creations follow `Walk`, the table is loaded and one record is logged; only the tile map, its table, its renderer's creations and the log change |
| `Scene.Scene.RunCharacter` | src/Scene/Scene.cpp:60 | the character setup run on this scene: one creation from the character image, exactly the player row's four components added as row `next`, the player ready, one record logged |
| `Scene.Scene.TilemapRan` | src/Scene/Systems.hpp:53-82 | the heap effects of a tile-map run amount to `Ran` on the view |
| `Scene.Scene.CharacterRan` | src/Scene/Systems.hpp:108-120 | the heap effects of a character run amount to `Ran` on the view |
| `Scene.Scene.Input` | src/Scene/Scene.cpp:72-78 | hands the same event to every input system once, in list order; only the player's Movement changes |
| `Scene.Scene.InputStep` | src/Scene/Scene.cpp:76 | the i-th input run: one more record, and the player's Movement becomes `KeyEffectTimes` for i + 1 systems |
| `Scene.Scene.Update` | src/Scene/Scene.cpp:64-70 | hands the same dT to every update system once, in list order; only the transforms change |
| `Scene.Scene.UpdateStep` | src/Scene/Scene.cpp:68 | the i-th update run: one more record, and the transforms become `MoveTimes` for i + 1 systems |
| `Scene.Scene.Render` | src/Scene/Scene.cpp:80-86 | runs every render system once, in list order; the target receives exactly their draws, in that order |
| `Scene.Scene.RenderStep` | src/Scene/Scene.cpp:84 | the i-th render run: one more record, and the target holds the draws of the first i + 1 render systems, in order |
| `Scene.Scene.RunRender` | src/Scene/Scene.cpp:84 | one render run is recorded once, and its draws are what the system draws |
| `Scene.Entity.constructor` | src/Scene/Entity.hpp:11-16 | stores the given handle and scene |
| `Scene.Entity.Copy` | src/Scene/Entity.hpp:18-23 | a copy has the same handle and scene, so it addresses the same row |
| `Scene.Entity.AddComponent` | src/Scene/Entity.hpp:29-32 | stores the component on this row, which must lack its type, and returns it; nothing else changes |
| `Scene.Entity.RemoveComponent` | src/Scene/Entity.hpp:34-37 | removes only this row's component of that type |
| `Scene.Entity.GetComponent` | src/Scene/Entity.hpp:39-42 | returns this row's component of the type, which the row must hold |
| `Scene.TilemapSystem.constructor` | src/Scene/Systems.hpp:44-47 | a 400-slot table and an empty cache |
| `Scene.TilemapSystem.SetScene` | src/Scene/Scene.cpp:34 | the tile map points at the scene it is added to |
| `Scene.TilemapSystem.Setup` | src/Scene/Systems.hpp:53-82 | the cache and the renderer's creations follow `Walk` over the grid; every slot `i * 20 + j` holds the cached texture of code `mmap[i][j]`, so the table is the filled table of the cache; the run is logged once |
| `Scene.TilemapSystem.FilledIsLoaded` | src/Scene/Systems.hpp:60-77 | once every slot holds its code's cached texture, the table is loaded and equals the filled table of the cache |
| `Scene.TilemapSystem.LoadedFromTable` | src/Scene/Systems.hpp:60-77 | a table equal to the filled table of a cache covering the grid is loaded |
| `Scene.TilemapSystem.LoadGrid` | src/Scene/Systems.hpp:60-77 | the two loops: the cache and the creations follow `Walk` over the grid, and every slot holds its code's cached texture |
| `Scene.TilemapSystem.LoadRow` | src/Scene/Systems.hpp:61-76 | one row of the walk: the cache takes 20 more steps, and 20 more slots are filled |
| `Scene.TilemapSystem.LoadCell` | src/Scene/Systems.hpp:62-75 | one cell: a miss creates a texture from the code's file and caches it; the slot gets the cached texture |
| `Scene.TilemapSystem.Render` | src/Scene/Systems.hpp:84-95 | the target receives exactly the 400 row-major tile draws |
| `Scene.TilemapSystem.RenderRow` | src/Scene/Systems.hpp:88-91 | one row of the render: 20 more tile draws in slot order, and the destination rectangle ends 20 tile widths to the right on the same row |
| `Scene.CharacterSetupSystem.SetScene` | src/Scene/Scene.cpp:34 | the character setup points at the scene it is added to |
| `Scene.CharacterSetupSystem.Setup` | src/Scene/Systems.hpp:108-120 | one new row with Tag "PLAYER", Transform (100, 100), Movement (100, 100) and the default Sprite of a newly created character texture; other rows are unchanged; the scene's player is a copy of its handle |
| `Scene.CharacterSetupSystem.CreatePlayer` | src/Scene/Systems.hpp:113-118 | the registry part of that setup: exactly the new row's four components |
| `Scene.MovementUpdateSystem.SetScene` | src/Scene/Scene.cpp:46 | the movement update points at the scene it is added to |
| `Scene.MovementUpdateSystem.Update` | src/Scene/Systems.hpp:125-134 | every row with Transform and Movement takes one step; every other table and row is unchanged |
| `Scene.PlayerInputSystem.SetScene` | src/Scene/Scene.cpp:40 | the player input points at the scene it is added to |
| `Scene.PlayerInputSystem.Input` | src/Scene/Systems.hpp:139-178 | the player's Movement becomes its key effect; nothing else changes |
| `Scene.SpriteRenderSystem.SetScene` | src/Scene/Scene.cpp:52 | the sprite render points at the scene it is added to |
| `Scene.SpriteRenderSystem.Render` | src/Scene/Systems.hpp:188-206 | one pass over the Transform+Sprite view, each row once, draws each sprite relative to the player's position |
| `Textures.Quarter` | src/Scene/Textures.cpp:234 | C's `/ 4`: the quotient truncated toward zero |
| `Textures.CreateStreamingTexture` | src/Scene/Textures.cpp:114 | a texture of positive size is fresh, with the backend's pitch (whole pixels, at least w of them) and `(pitch / 4) * h` entries of memory; any other size gives null and creates nothing |
| `Textures.Apply` | src/Scene/Textures.cpp:100-103 | every pixel becomes the shader of itself, and the length is kept |
| `Textures.ApplyCompose` | src/Scene/Textures.cpp:92-106 | two shader runs equal one run of their composition |
| `Textures.ApplyIdentity` | src/Scene/Textures.cpp:92-106 | the identity shader changes no pixel |
| `Textures.PixelIndex` | src/Scene/Textures.cpp:240 | the index is `x` past the whole pixels in `y * pitch` bytes, counted toward zero |
| `Textures.PixelIndexRowMajor` | src/Scene/Textures.cpp:240 | with a pitch that is a multiple of 4, `(y * pitch) / 4 + x` is `y * (pitch / 4) + x` |
| `Textures.PixelIndexUnaligned` | src/Scene/Textures.cpp:240 | with pitch 6, (0, 2) reads index 3 where the row-major reading is 2 |
| `Textures.PixelIndexInImage` | src/Scene/Textures.cpp:237-243 | inside a w x h image whose rows take `pitch` bytes, pixel (x, y) is entry `y * (pitch / 4) + x`, within the `(pitch / 4) * h` entries of the image |
| `Textures.AfterLock` | src/Scene/Textures.cpp:197-206 | a lock ends locked unless there is no texture; a lock already held is kept; a new one exposes the texture's memory and pitch |
| `Textures.AfterUnlock` | src/Scene/Textures.cpp:208-220 | an unlock always ends unlocked; the pitch drops to 0 only when a lock was released |
| `Textures.UnlockIdempotent` | src/Scene/Textures.cpp:208-220 | unlocking twice has the effect of unlocking once |
| `Textures.LockIdempotent` | src/Scene/Textures.cpp:197-206 | locking twice has the effect of locking once |
| `Textures.LockThenUnlock` | src/Scene/Textures.cpp:197-220 | lock then unlock ends with null pixels and pitch 0 |
| `Textures.RenderQuad` | src/Scene/Textures.cpp:139-156 | the draw sits at (x, y); a clip sets its size, otherwise each non-zero requested dimension does, otherwise the texture's |
| `Textures.RenderQuadDefault` | src/Scene/Textures.cpp:137-159 | the default arguments draw at the texture's own size |
| `Textures.RenderQuadClipWins` | src/Scene/Textures.cpp:152-156 | once a clip is given, the requested size never matters |
| `Textures.Textures.constructor` | src/Scene/Textures.cpp:66-78 | RGBA8888, no texture, size 0 x 0, unlocked with pitch 0 |
| `Textures.Textures.ForWindow` | src/Scene/Textures.cpp:52-64 | the window's format, no texture, size 0 x 0, unlocked with pitch 0 |
| `Textures.Textures.Load` | src/Scene/Textures.cpp:108-130 | a new texture of the surface's size whose memory is the surface's first `(lockPitch / 4) * h` entries, copied flat; unlocked, with the lock's pitch kept |
| `Textures.Textures.Lock` | src/Scene/Textures.cpp:197-206 | false and no change when already locked; otherwise true, and the texture's memory and pitch are exposed |
| `Textures.Textures.Unlock` | src/Scene/Textures.cpp:208-220 | always true; afterwards the pixels are null, and a locked state also drops its pitch to 0 |
| `Textures.Textures.PixelCount` | src/Scene/Textures.cpp:232-235 | `(pitch / 4) * height`: the whole memory while locked, 0 without a texture |
| `Textures.Textures.ExecuteShader` | src/Scene/Textures.cpp:92-106 | every entry of the texture's memory, padding included, becomes the shader of itself, and the state ends unlocked |
| `Textures.Textures.RenderWithShader` | src/Scene/Textures.cpp:161-184 | a fresh copy of the same size holds the shader of the first `width * height` entries of the original's memory, which is the shaded image when neither pads its rows; the original is unchanged and ends unlocked, with pitch 0 when it holds a texture and its old pitch otherwise; the copy is drawn into (x, y, w, h) |
| `Textures.Textures.GetPixelAt` | src/Scene/Textures.cpp:237-243 | reads index `(y * pitch) / 4 + x` of the locked pixels: for a pixel inside the image, entry `y * (pitch / 4) + x`, its row-major place in the padded rows |
| `Textures.Textures.GetPixel` | src/Scene/Textures.cpp:245-253 | returns entry xy of the texture's memory and leaves it unlocked, whatever its prior state |
| `Textures.Textures.Render` | src/Scene/Textures.cpp:137-159 | one draw of the texture, or of its clip, into the selected rectangle |
| `Game.SetupScene` | src/Game/Game.cpp:54-67 | the wired scene has the character setup then the tile map for setup, the tile map then the sprites for render, one input and one update system; setup ran them in that order, the renderer created the character, floor and grass textures in that order, the tile map caches floor and grass under 0 and 1 and is loaded, and the player is ready |
| `Game.SetupWired` | src/Game/Game.cpp:66 | the setup phase of the wired scene, with the same outcome |
| `Game.WiredView` | src/Game/Game.cpp:54-65 | before setup, the view holds one renderer, one empty cache and no call |
| `Game.WiredSetupOutcome` | src/Game/Game.cpp:66 | the view equation of the setup phase, read back into the renderer, the tile map and the log |
| `Game.GameSetupRun` | src/Game/Game.cpp:58-66 | `SetupRun` of the game's setup list creates the character, floor and grass textures, caches the tiles under 0 and 1, and logs the character then the tile map |
| `Game.GameCharacterStep` | src/Game/Game.cpp:58 | the first step creates the character texture and leaves the caches alone |
| `Game.Wire` | src/Game/Game.cpp:54-66 | the registrations alone, in source order, before any system has run |
| `Game.WireCharacter` | src/Game/Game.cpp:58 | the character setup is the first setup system |
| `Game.WireMotion` | src/Game/Game.cpp:59-60 | exactly one input system and one update system |
| `Game.WireTilesAndSprites` | src/Game/Game.cpp:62-65 | the tile map is appended to the setup list; the render list is the tile map then the sprites |
| `Game.WireTiles` | src/Game/Game.cpp:62-64 | a fresh tile map with an empty cache is appended to the setup list and is the first render system |
| `Game.RenderFrame` | src/Game/Game.cpp:119-130 | one render of the wired scene draws the 400 tiles first, then one pass of player-relative sprites |

## Left out

- Image loading and decoding (`IMG_Load`) are not modelled. A surface is identified by its
  file path; in `Textures.Textures.Load` it is a parameter already holding its pixels.
- The SDL pixel formats are not modelled: `SDL_ConvertSurfaceFormat`, `SDL_AllocFormat`,
  and `color` through `SDL_MapRGB`. The format is kept as a number and never interpreted.
- `SDL_SetRenderDrawColor` is not modelled. It is called in the sprite render and the game
  render, and it does not affect a texture copy.
- The `SDL_RenderClear` and `SDL_RenderPresent` around a game render are not modelled.
- Console output (`std::cout`) is not modelled.
- Destructors and resource release are not modelled: `SDL_FreeSurface`, `SDL_DestroyTexture`
  and `SDL_FreeFormat`. A texture replaced by a second `load` is simply dropped.
- `Textures::free` is declared but never defined.
- The `angle`, `center` and `flip` parameters of `Textures::render` are never used by it.
- The one-line accessors `getWidth`, `getHeight`, `getPixels` and `getPitch` are read as
  fields.
- The initial contents of a new streaming texture's memory are not modelled.
- SDL's own lock bookkeeping inside a texture is not modelled; the wrapper's state is
  `mPixels` and `mPitch` only.
- Game loop timing (`frameStart`, `frameEnd`, `SDL_GetTicks`, `SDL_Delay`), window
  creation and SDL teardown are not modelled.
- `handleEvents` never calls the scene's `input`, so no such wiring is modelled.
  `Scene.Scene.Input` is proved on its own.
- `src/Scene/System.h` is not part of this model. The systems' scene back-pointer and
  `setScene` are modelled from their uses in `Scene.cpp`.
- Uninitialised C++ state is given a fixed value:
  - the player pointer before setup is null;
  - the tile table's slots are `NullTexture` until setup fills them.
- A system registered in two scenes is not modelled: the scene invariant requires every
  registered system to point back at it.
- The registry's iteration order is not modelled. The update and the sprite render pass
  over their view in an order left open, each row once.
- `SystemRules.TruncateTowardZero`: positions and speeds are unbounded integers and dT is
  an exact real, so 32-bit overflow and double rounding of `speed * dT` are not modelled.
  The assignment's conversion back to `int` is modelled as truncation toward zero.
- `Scene.MovementUpdateSystem.Update`: states its result through `Step`, with the same
  exact-real arithmetic as above.
- `Textures.Textures.RenderWithShader`: the copy is created in RGBA8888 whatever the held
  texture's format. Formats are not modelled, so the copy's format is not stated.
