/**
 * The graphics backend the scene talks to, reduced to what the model needs: textures are
 * opaque identifiers handed out in creation order, and every `SDL_RenderCopy` call is
 * appended to a log of draws. A surface is identified by the image file it was loaded
 * from; decoding is not modelled.
 */
module Backend {
  import opened Wrappers
  import opened Components

  /** `SDL_Rect`. */
  datatype Rect = Rect(x: int, y: int, w: int, h: int)

  /** One `SDL_RenderCopy(renderer, texture, src, dst)` call; `None` is a null source rectangle. */
  datatype Draw = Draw(texture: TextureId, src: Option<Rect>, dst: Rect)

  /** What a texture was created from. */
  datatype Origin = FromSurface(path: string) | Blank(w: int, h: int)

  /** The keys the player input distinguishes (`SDL_Keycode`). */
  datatype Key = Left | Right | Up | Down | OtherKey(sym: int)

  /** An `SDL_Event`, reduced to its type and, for keyboard events, its key. */
  datatype Event = KeyDown(key: Key) | KeyUp(key: Key) | OtherEvent

  /** `SDL_Renderer`: the textures it created and the draws it received, in order. */
  class Renderer {
    /** Texture `k + 1` was created from `created[k]`. */
    var created: seq<Origin>
    var draws: seq<Draw>

    constructor ()
      ensures created == [] && draws == []
    {
      created := [];
      draws := [];
    }

    /**
     * `SDL_CreateTextureFromSurface` on the surface `IMG_Load` gives for `path`. An empty
     * path names no file: the load yields a null surface and the creation a null texture.
     */
    method CreateTextureFromSurface(path: string) returns (t: TextureId)
      modifies this`created
      ensures path != "" ==> created == old(created) + [FromSurface(path)] && t == |created|
      ensures path == "" ==> created == old(created) && t == NullTexture
    {
      if path != "" {
        created := created + [FromSurface(path)];
        t := |created|;
      } else {
        t := NullTexture;
      }
    }

    /** `SDL_CreateTexture`: fails with a null texture when a dimension is not positive. */
    method CreateTexture(w: int, h: int) returns (t: TextureId)
      modifies this`created
      ensures w > 0 && h > 0 ==> created == old(created) + [Blank(w, h)] && t == |created|
      ensures !(w > 0 && h > 0) ==> created == old(created) && t == NullTexture
    {
      if w > 0 && h > 0 {
        created := created + [Blank(w, h)];
        t := |created|;
      } else {
        t := NullTexture;
      }
    }

    /** `SDL_RenderCopy`. */
    method RenderCopy(t: TextureId, src: Option<Rect>, dst: Rect)
      modifies this`draws
      ensures draws == old(draws) + [Draw(t, src, dst)]
    {
      draws := draws + [Draw(t, src, dst)];
    }
  }
}
