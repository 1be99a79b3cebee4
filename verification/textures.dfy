/**
 * The pixel-level texture wrapper of src/Scene/Textures.cpp: a streaming texture whose
 * pixel memory is exposed by a lock, a lock state kept in `mPixels`/`mPitch`, shaders
 * applied in place or into a fresh copy, pixel counting and indexing, and the size
 * selection of a plain render.
 *
 * The SDL side is reduced to `StreamingTexture`: a texture identifier for draws, its size,
 * the row pitch in bytes SDL reports when it is locked, and its pixel memory as an array of
 * 32-bit values. The pitch is the backend's choice: a whole number of pixels, at least one
 * row of them, so rows may end in padding.
 */
module Textures {
  import opened Wrappers
  import opened Components
  import opened Backend

  /** `Uint32`. */
  newtype u32 = x: int | 0 <= x < 0x1_0000_0000

  /** The bytes of one 32-bit pixel. */
  const BytesPerPixel := 4

  /** `SDL_PIXELFORMAT_RGBA8888`. */
  const RGBA8888: nat := 0x1646_2004

  /** C's `a / 4` on `int`: the quotient truncated toward zero. */
  function Quarter(a: int): (q: int)
    ensures a >= 0 ==> 0 <= q && 4 * q <= a < 4 * q + 4
    ensures a < 0 ==> q <= 0 && 4 * q - 4 < a <= 4 * q
  {
    if a >= 0 then a / 4 else -((-a) / 4)
  }

  lemma QuarterExact(m: int)
    ensures Quarter(4 * m) == m
  {
  }

  /** Multiplying by a non-negative factor keeps the order. */
  lemma {:induction false} MulMono(a: int, b: int, h: int)
    requires a <= b && h >= 0
    ensures a * h <= b * h
  {
    assert b * h - a * h == (b - a) * h;
  }

  /**
   * A row pitch in bytes that holds a row of `w` pixels: whole pixels, at least `w` of
   * them.
   */
  predicate PitchFits(pitch: int, w: int)
  {
    pitch % BytesPerPixel == 0 && pitch >= BytesPerPixel * w
  }

  /**
   * A streaming `SDL_Texture` of `w` x `h` pixels: every row takes `pitch` bytes, so
   * `pitch / 4` entries of `memory`, of which the first `w` are the row's pixels.
   */
  class StreamingTexture {
    const id: TextureId
    const w: int
    const h: int
    const pitch: int
    const memory: array<u32>

    predicate Valid()
    {
      && w > 0 && h > 0 && id != NullTexture && PitchFits(pitch, w)
      && memory.Length == (pitch / BytesPerPixel) * h
    }

    constructor (id: TextureId, w: int, h: int, pitch: int)
      requires id != NullTexture && w > 0 && h > 0 && PitchFits(pitch, w)
      ensures Valid() && this.id == id && this.w == w && this.h == h && this.pitch == pitch && fresh(memory)
    {
      this.id := id;
      this.w := w;
      this.h := h;
      this.pitch := pitch;
      memory := new u32[(pitch / BytesPerPixel) * h];
    }
  }

  /**
   * `SDL_CreateTexture(renderer, format, SDL_TEXTUREACCESS_STREAMING, w, h)`: a null
   * texture unless both dimensions are positive. `pitch` is the row pitch the backend
   * will report when the new texture is locked.
   */
  method CreateStreamingTexture(renderer: Renderer, w: int, h: int, pitch: int) returns (t: StreamingTexture?)
    requires PitchFits(pitch, w)
    modifies renderer`created
    ensures w > 0 && h > 0 ==>
      && t != null && fresh(t) && fresh(t.memory) && t.Valid()
      && t.w == w && t.h == h && t.pitch == pitch && t.id == |renderer.created|
      && renderer.created == old(renderer.created) + [Blank(w, h)]
    ensures !(w > 0 && h > 0) ==> t == null && renderer.created == old(renderer.created)
  {
    var id := renderer.CreateTexture(w, h);
    if id == NullTexture {
      t := null;
    } else {
      t := new StreamingTexture(id, w, h, pitch);
    }
  }

  /**
   * A decoded image already in the texture's format: `w` x `h` pixels, every row taking
   * `pitch` bytes of `pixels`.
   */
  datatype Surface = Surface(w: int, h: int, pitch: int, pixels: seq<u32>)
  {
    predicate Valid()
    {
      w > 0 && h > 0 && PitchFits(pitch, w) && |pixels| == (pitch / BytesPerPixel) * h
    }
  }

  /** The pixels of `s` with the shader `f` applied to each. */
  function Apply(f: u32 -> u32, s: seq<u32>): (r: seq<u32>)
    ensures |r| == |s|
    ensures forall i | 0 <= i < |s| :: r[i] == f(s[i])
  {
    seq(|s|, i requires 0 <= i < |s| => f(s[i]))
  }

  /** Running `f` and then `g` over the pixels is running their composition once. */
  lemma ApplyCompose(f: u32 -> u32, g: u32 -> u32, s: seq<u32>)
    ensures Apply(g, Apply(f, s)) == Apply(x => g(f(x)), s)
  {
  }

  /** The identity shader leaves the pixels as they were. */
  lemma ApplyIdentity(s: seq<u32>)
    ensures Apply(x => x, s) == s
  {
  }

  /**
   * `(y * pitch) / 4 + x`, the index `getPixel(x, y)` reads: `x` entries past the whole
   * pixels in `y` rows' bytes, counted toward zero.
   */
  function PixelIndex(x: int, y: int, pitch: int): (i: int)
    ensures y * pitch >= 0 ==> BytesPerPixel * (i - x) <= y * pitch < BytesPerPixel * (i - x) + BytesPerPixel
    ensures y * pitch < 0 ==> BytesPerPixel * (i - x) - BytesPerPixel < y * pitch <= BytesPerPixel * (i - x)
  {
    Quarter(y * pitch) + x
  }

  /** With a pitch of whole pixels the index is the row-major one, `y * (pitch / 4) + x`. */
  lemma {:induction false} PixelIndexRowMajor(x: int, y: int, pitch: int)
    requires pitch % 4 == 0
    ensures PixelIndex(x, y, pitch) == y * (pitch / 4) + x
  {
    var k := pitch / 4;
    assert y * pitch == 4 * (y * k);
    QuarterExact(y * k);
  }

  /** A pitch that is not whole pixels makes the two readings part. */
  lemma PixelIndexUnaligned()
    ensures PixelIndex(0, 2, 6) == 3 && 2 * (6 / 4) + 0 == 2
  {
  }

  /**
   * In a `w` x `h` image whose rows take `pitch` bytes, pixel (x, y) is entry
   * `y * (pitch / 4) + x`, inside the `(pitch / 4) * h` entries of the image.
   */
  lemma {:induction false} PixelIndexInImage(x: int, y: int, w: int, h: int, pitch: int)
    requires 0 <= x < w && 0 <= y < h && PitchFits(pitch, w)
    ensures PixelIndex(x, y, pitch) == y * (pitch / BytesPerPixel) + x
    ensures 0 <= y * (pitch / BytesPerPixel) + x < (pitch / BytesPerPixel) * h
  {
    PixelIndexRowMajor(x, y, pitch);
    RowMajorBound(x, y, pitch / BytesPerPixel, h);
  }

  lemma {:induction false} RowMajorBound(x: int, y: int, stride: int, h: int)
    requires 0 <= x < stride && 0 <= y < h
    ensures 0 <= y * stride + x < stride * h
  {
    var d := h - 1 - y;
    assert d >= 0;
    assert d * stride >= 0;
    assert stride * h == (y + 1 + d) * stride;
    assert (y + 1 + d) * stride == y * stride + stride + d * stride;
  }

  /**
   * `lockTexture` on the lock state (`mPixels`, `mPitch`) of a wrapper holding `t`: it
   * ends locked unless it holds no texture; a lock already taken is kept as it was, and a
   * new one exposes the texture's memory and pitch.
   */
  function AfterLock(pixels: array?<u32>, pitch: int, t: StreamingTexture?): (r: (array?<u32>, int))
    ensures r.0 == null <==> pixels == null && t == null
    ensures pixels != null ==> r == (pixels, pitch)
    ensures pixels == null && t != null ==> r.0 == t.memory && r.1 == t.pitch
  {
    if pixels != null || t == null then (pixels, pitch) else (t.memory, t.pitch)
  }

  /**
   * `unlockTexture` on the lock state (`mPixels`, `mPitch`): it always ends unlocked; the
   * pitch drops to 0 only when a lock was released.
   */
  function AfterUnlock(pixels: array?<u32>, pitch: int): (r: (array?<u32>, int))
    ensures r.0 == null
    ensures pixels != null ==> r.1 == 0
    ensures pixels == null ==> r.1 == pitch
  {
    if pixels == null then (pixels, pitch) else (null, 0)
  }

  /** A second unlock changes nothing. */
  lemma UnlockIdempotent(pixels: array?<u32>, pitch: int)
    ensures AfterUnlock(AfterUnlock(pixels, pitch).0, AfterUnlock(pixels, pitch).1) == AfterUnlock(pixels, pitch)
  {
  }

  /** A second lock changes nothing. */
  lemma LockIdempotent(pixels: array?<u32>, pitch: int, t: StreamingTexture?)
    ensures AfterLock(AfterLock(pixels, pitch, t).0, AfterLock(pixels, pitch, t).1, t) == AfterLock(pixels, pitch, t)
  {
  }

  /** Lock then unlock ends unlocked with pitch 0 whenever a texture is held. */
  lemma LockThenUnlock(pixels: array?<u32>, pitch: int, t: StreamingTexture?)
    requires t != null
    ensures AfterUnlock(AfterLock(pixels, pitch, t).0, AfterLock(pixels, pitch, t).1) == (null, 0)
  {
  }

  /**
   * The rectangle `render` draws into: at (x, y), sized by the clip if there is one,
   * otherwise by each non-zero requested dimension, otherwise by the texture.
   */
  function RenderQuad(x: int, y: int, w: int, h: int, clip: Option<Rect>, width: int, height: int): (q: Rect)
    ensures q.x == x && q.y == y
    ensures clip.Some? ==> q.w == clip.value.w && q.h == clip.value.h
    ensures clip.None? ==> q.w == (if w != 0 then w else width)
    ensures clip.None? ==> q.h == (if h != 0 then h else height)
  {
    var quad := Rect(x, y, if w != 0 then w else width, if h != 0 then h else height);
    if clip.Some? then quad.(w := clip.value.w, h := clip.value.h) else quad
  }

  /** A render with the default arguments draws at the texture's own size. */
  lemma RenderQuadDefault(x: int, y: int, width: int, height: int)
    ensures RenderQuad(x, y, 0, 0, None, width, height) == Rect(x, y, width, height)
  {
  }

  /** The requested size never matters once a clip is given. */
  lemma RenderQuadClipWins(x: int, y: int, w: int, h: int, w': int, h': int, clip: Rect, width: int, height: int)
    ensures RenderQuad(x, y, w, h, Some(clip), width, height) == RenderQuad(x, y, w', h', Some(clip), width, height)
  {
  }

  /** `Textures`: one loaded texture, its size, and its lock state. */
  class Textures {
    const renderer: Renderer
    /** The pixel format textures are created in. */
    const format: nat
    /** `mTexture`; null until a load. */
    var texture: StreamingTexture?
    /** `mPixels`: the texture's memory while locked, null otherwise. */
    var pixels: array?<u32>
    /** `mPitch`. */
    var pitch: int
    var width: int
    var height: int

    /**
     * The lock state agrees with the texture: locked means `pixels` is its memory with its
     * pitch; unlocked leaves the pitch at 0 or at the texture's pitch (a load keeps it).
     */
    ghost predicate Valid()
      reads this
    {
      && (texture == null ==> width == 0 && height == 0 && pixels == null && pitch == 0)
      && (texture != null ==> texture.Valid() && width == texture.w && height == texture.h)
      && (pixels != null ==> texture != null && pixels == texture.memory && pitch == texture.pitch)
      && (pixels == null && pitch != 0 ==> texture != null && pitch == texture.pitch)
    }

    /** The texture's memory, if a texture is held. */
    ghost function Memory(): set<array<u32>>
      reads this
    {
      if texture == null then {} else {texture.memory}
    }

    /** `Textures(gRenderer)`: RGBA8888, no texture, unlocked. */
    constructor (renderer: Renderer)
      ensures Valid() && this.renderer == renderer && format == RGBA8888
      ensures texture == null && pixels == null && pitch == 0 && width == 0 && height == 0
    {
      this.renderer := renderer;
      format := RGBA8888;
      texture := null;
      pixels := null;
      pitch := 0;
      width := 0;
      height := 0;
    }

    /** `Textures(gRenderer, gWindow)`: the window's pixel format, no texture, unlocked. */
    constructor ForWindow(renderer: Renderer, windowFormat: nat)
      ensures Valid() && this.renderer == renderer && format == windowFormat
      ensures texture == null && pixels == null && pitch == 0 && width == 0 && height == 0
    {
      this.renderer := renderer;
      format := windowFormat;
      texture := null;
      pixels := null;
      pitch := 0;
      width := 0;
      height := 0;
    }

    /**
     * `load`: a fresh streaming texture of the surface's size, locked with the pitch
     * `lockPitch` the backend reports for it, receives `lockPitch * h` bytes of the
     * surface's pixels, copied flat from the start. The surface must hold that many bytes,
     * so its own pitch is at least `lockPitch`. The state ends unlocked but keeps the
     * pitch of the lock used for the copy.
     */
    method Load(surface: Surface, lockPitch: int)
      requires Valid() && surface.Valid()
      requires PitchFits(lockPitch, surface.w) && lockPitch <= surface.pitch
      modifies this`texture, this`pixels, this`pitch, this`width, this`height, renderer`created
      ensures Valid() && texture != null && fresh(texture) && fresh(texture.memory)
      ensures texture.memory.Length <= |surface.pixels|
      ensures texture.memory[..] == surface.pixels[..texture.memory.Length]
      ensures width == surface.w && height == surface.h
      ensures pixels == null && pitch == texture.pitch == lockPitch
      ensures renderer.created == old(renderer.created) + [Blank(surface.w, surface.h)]
    {
      var newTexture := CreateStreamingTexture(renderer, surface.w, surface.h, lockPitch);
      pixels, pitch := newTexture.memory, newTexture.pitch;
      var n := Quarter(pitch) * surface.h;
      assert n <= |surface.pixels| by {
        MulMono(lockPitch / BytesPerPixel, surface.pitch / BytesPerPixel, surface.h);
      }
      forall i | 0 <= i < n {
        newTexture.memory[i] := surface.pixels[i];
      }
      pixels := null;
      width := surface.w;
      height := surface.h;
      texture := newTexture;
    }

    /** `lockTexture`: false and no change when already locked; otherwise true. */
    method Lock() returns (ok: bool)
      requires Valid()
      modifies this`pixels, this`pitch
      ensures Valid() && ok == (old(pixels) == null)
      ensures (pixels, pitch) == AfterLock(old(pixels), old(pitch), texture)
    {
      if pixels != null {
        return false;
      }
      if texture != null {
        pixels, pitch := texture.memory, texture.pitch;
      }
      return true;
    }

    /** `unlockTexture`: always true; a locked state drops its pixels and pitch. */
    method Unlock() returns (ok: bool)
      requires Valid()
      modifies this`pixels, this`pitch
      ensures Valid() && ok
      ensures (pixels, pitch) == AfterUnlock(old(pixels), old(pitch))
    {
      if pixels == null {
        return true;
      }
      pixels := null;
      pitch := 0;
      return true;
    }

    /**
     * `getPixelCount`: whole pixels per row, padding included, times rows. While locked
     * it is the number of entries of the locked memory; after an unlock it is 0.
     */
    function PixelCount(): (n: int)
      reads this
      requires Valid()
      ensures pixels != null ==> n == pixels.Length
      ensures texture == null || (pixels == null && pitch == 0) ==> n == 0
    {
      Quarter(pitch) * height
    }

    /**
     * `executeShader`: every pixel of the held texture becomes `f` of itself, and the
     * state ends unlocked.
     */
    method ExecuteShader(f: u32 -> u32)
      requires Valid()
      modifies this`pixels, this`pitch, Memory()
      ensures Valid() && pixels == null
      ensures texture != null ==> texture.memory[..] == Apply(f, old(texture.memory[..])) && pitch == 0
      ensures texture == null ==> pitch == old(pitch)
    {
      var _ := Lock();
      var count := PixelCount();
      var px := pixels;
      assert px == null ==> count == 0;
      ghost var before := if px == null then [] else px[..];
      var i := 0;
      while i < count
        invariant 0 <= i <= count
        invariant Valid() && pixels == px
        invariant px != null ==> px == texture.memory && px.Length == count == |before|
        invariant px != null ==> forall k | 0 <= k < i :: px[k] == f(before[k])
        invariant px != null ==> forall k | i <= k < px.Length :: px[k] == before[k]
      {
        px[i] := f(px[i]);
        i := i + 1;
      }
      var _ := Unlock();
    }

    /**
     * `renderWithShader`: a fresh RGBA8888 texture of the same size, locked with the pitch
     * `copyPitch` the backend reports for it, receives `f` of each of the first
     * `width * height` entries of the held texture's memory, entry by entry; the held
     * texture is left as it was and unlocked, and the copy is drawn into (x, y, w, h).
     * When neither texture pads its rows, the copy is `f` of every pixel.
     */
    method RenderWithShader(x: int, y: int, w: int, h: int, f: u32 -> u32, copyPitch: int)
      returns (copy: StreamingTexture?)
      requires Valid() && PitchFits(copyPitch, width)
      modifies this`pixels, this`pitch, renderer`created, renderer`draws
      ensures Valid() && pixels == null
      ensures pitch == if texture != null then 0 else old(pitch)
      ensures (copy == null) == (texture == null)
      ensures texture != null ==>
        && fresh(copy) && copy.w == width && copy.h == height && copy.pitch == copyPitch
        && width * height <= copy.memory.Length && width * height <= texture.memory.Length
        && (forall i | 0 <= i < width * height :: copy.memory[i] == f(texture.memory[i]))
        && renderer.created == old(renderer.created) + [Blank(width, height)]
      ensures texture != null && texture.pitch == BytesPerPixel * width && copyPitch == BytesPerPixel * width ==>
        copy.memory[..] == Apply(f, texture.memory[..])
      ensures texture == null ==> renderer.created == old(renderer.created)
      ensures renderer.draws == old(renderer.draws) + [Draw(if copy == null then NullTexture else copy.id, None, Rect(x, y, w, h))]
    {
      var quad := Rect(x, y, w, h);
      var _ := Lock();
      var px := pixels;
      ghost var lockedPitch := pitch;
      copy := CreateStreamingTexture(renderer, width, height, copyPitch);
      ghost var created := renderer.created;
      var n := width * height;
      if copy != null {
        assert n <= copy.memory.Length && n <= px.Length by {
          MulMono(width, copyPitch / BytesPerPixel, height);
          MulMono(width, texture.pitch / BytesPerPixel, height);
        }
        var i := 0;
        while i < n
          invariant 0 <= i <= n <= copy.memory.Length
          invariant px == texture.memory && n <= px.Length
          invariant pixels == px && pitch == lockedPitch
          invariant renderer.created == created && renderer.draws == old(renderer.draws)
          invariant forall k | 0 <= k < i :: copy.memory[k] == f(px[k])
        {
          copy.memory[i] := f(px[i]);
          i := i + 1;
        }
      }
      var _ := Unlock();
      renderer.RenderCopy(if copy == null then NullTexture else copy.id, None, quad);
    }

    /**
     * `getPixel(x, y)`: reads index `(y * pitch) / 4 + x` of the locked pixels, which for
     * a pixel of the image is its row-major place: row `y` starts `pitch / 4` entries
     * after row `y - 1`.
     */
    method GetPixelAt(x: int, y: int) returns (p: u32)
      requires Valid() && pixels != null && 0 <= PixelIndex(x, y, pitch) < pixels.Length
      ensures p == pixels[PixelIndex(x, y, pitch)]
      ensures 0 <= x < width && 0 <= y < height ==> p == texture.memory[y * (texture.pitch / BytesPerPixel) + x]
    {
      p := pixels[PixelIndex(x, y, pitch)];
      if 0 <= x < width && 0 <= y < height {
        PixelIndexInImage(x, y, width, height, pitch);
      }
    }

    /** `getPixel(xy)`: entry `xy` of the texture, read under a lock; ends unlocked. */
    method GetPixel(xy: int) returns (p: u32)
      requires Valid() && texture != null && 0 <= xy < texture.memory.Length
      modifies this`pixels, this`pitch
      ensures Valid() && p == texture.memory[xy] && pixels == null && pitch == 0
    {
      var _ := Lock();
      p := pixels[xy];
      var _ := Unlock();
    }

    /** `render`: draws the texture, or the clip of it, into the selected rectangle. */
    method Render(x: int, y: int, w: int := 0, h: int := 0, clip: Option<Rect> := None)
      modifies renderer`draws
      ensures renderer.draws == old(renderer.draws) +
        [Draw(if texture == null then NullTexture else texture.id, clip, RenderQuad(x, y, w, h, clip, width, height))]
    {
      var rWidth := width;
      var rHeight := height;
      if w != 0 {
        rWidth := w;
      }
      if h != 0 {
        rHeight := h;
      }
      var renderQuad := Rect(x, y, rWidth, rHeight);
      if clip.Some? {
        renderQuad := renderQuad.(w := clip.value.w, h := clip.value.h);
      }
      renderer.RenderCopy(if texture == null then NullTexture else texture.id, clip, renderQuad);
    }
  }
}
