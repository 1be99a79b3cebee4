/**
 * The plain component data of the scene (src/Scene/Components.hpp): every entity may
 * carry at most one of each.
 */
module Components {
  /** An entity identifier handed out by the registry. */
  type EntityId = nat

  /** An opaque texture handle; `NullTexture` stands for a null `SDL_Texture*`. */
  type TextureId = nat

  const NullTexture: TextureId := 0

  /** The entity's name. */
  datatype Tag = Tag(tag: string)

  /** The entity's position in world pixels. */
  datatype Transform = Transform(posX: int, posY: int)

  /** The entity's speed in pixels per second, per axis. */
  datatype Movement = Movement(speedX: int, speedY: int)

  /** The source square `(x, y, size, size)` of a texture drawn for the entity. */
  datatype Sprite = Sprite(x: int, y: int, size: int, texture: TextureId)

  /** The default member initialisers of `SpriteComponent`. */
  const DefaultSpriteX := 0
  const DefaultSpriteY := 0
  const DefaultSpriteSize := 32

  /** A sprite of `texture` with every other member at its default. */
  function DefaultSprite(texture: TextureId): Sprite
  {
    Sprite(DefaultSpriteX, DefaultSpriteY, DefaultSpriteSize, texture)
  }
}
