/**
 * The entity registry the scene owns (the `entt::registry` of src/Scene/Scene.h:26): one
 * table per component type, each a map from entity to component, and a counter of the
 * identifiers handed out so far. Iteration order of a table is not modelled: views are
 * the key sets of these maps.
 */
module Registry {
  import opened Components

  /** The component types a row can carry. */
  datatype Kind = TagKind | TransformKind | MovementKind | SpriteKind

  /** One component, tagged with its type. */
  datatype Component =
    | TagPart(tag: Tag)
    | TransformPart(transform: Transform)
    | MovementPart(movement: Movement)
    | SpritePart(sprite: Sprite)
  {
    function Kind(): Kind
    {
      match this
      case TagPart(_) => TagKind
      case TransformPart(_) => TransformKind
      case MovementPart(_) => MovementKind
      case SpritePart(_) => SpriteKind
    }
  }

  /** The four component tables: at most one component of each type per entity. */
  datatype Tables = Tables(
    tags: map<EntityId, Tag>,
    transforms: map<EntityId, Transform>,
    movements: map<EntityId, Movement>,
    sprites: map<EntityId, Sprite>)
  {
    /** Entity `e` holds a component of type `k`. */
    predicate Has(k: Kind, e: EntityId)
    {
      match k
      case TagKind => e in tags
      case TransformKind => e in transforms
      case MovementKind => e in movements
      case SpriteKind => e in sprites
    }

    /** The component of type `k` of `e`. */
    function Lookup(k: Kind, e: EntityId): (c: Component)
      requires Has(k, e)
      ensures c.Kind() == k
    {
      match k
      case TagKind => TagPart(tags[e])
      case TransformKind => TransformPart(transforms[e])
      case MovementKind => MovementPart(movements[e])
      case SpriteKind => SpritePart(sprites[e])
    }

    /**
     * The tables with `c` stored as `e`'s component of its type: a later lookup of that
     * type on `e` finds `c`.
     */
    function Put(e: EntityId, c: Component): (r: Tables)
      ensures r.Has(c.Kind(), e) && r.Lookup(c.Kind(), e) == c
    {
      match c
      case TagPart(t) => this.(tags := tags[e := t])
      case TransformPart(t) => this.(transforms := transforms[e := t])
      case MovementPart(m) => this.(movements := movements[e := m])
      case SpritePart(s) => this.(sprites := sprites[e := s])
    }

    /** The tables without `e`'s component of type `k`. */
    function Drop(k: Kind, e: EntityId): (r: Tables)
      ensures !r.Has(k, e)
    {
      match k
      case TagKind => this.(tags := tags - {e})
      case TransformKind => this.(transforms := transforms - {e})
      case MovementKind => this.(movements := movements - {e})
      case SpriteKind => this.(sprites := sprites - {e})
    }

    /** Every stored component belongs to an entity numbered below `n`. */
    predicate Below(n: nat)
    {
      && (forall e | e in tags :: e < n)
      && (forall e | e in transforms :: e < n)
      && (forall e | e in movements :: e < n)
      && (forall e | e in sprites :: e < n)
    }
  }

  const Empty := Tables(map[], map[], map[], map[])

  /** Storing a component changes no other type of `e` and no other entity. */
  lemma PutKeepsOthers(t: Tables, e: EntityId, c: Component, k: Kind, x: EntityId)
    requires k != c.Kind() || x != e
    ensures t.Put(e, c).Has(k, x) == t.Has(k, x)
    ensures t.Has(k, x) ==> t.Put(e, c).Lookup(k, x) == t.Lookup(k, x)
  {
  }

  /** Dropping changes no other type of `e` and no other entity. */
  lemma DropOnlyThat(t: Tables, k: Kind, e: EntityId, k': Kind, x: EntityId)
    ensures k' != k || x != e ==> t.Drop(k, e).Has(k', x) == t.Has(k', x)
    ensures (k' != k || x != e) && t.Has(k', x) ==> t.Drop(k, e).Lookup(k', x) == t.Lookup(k', x)
  {
  }

  class Registry {
    /** The number of identifiers created so far; they are 0 .. next-1. */
    var next: nat
    var tables: Tables

    /** Every stored component belongs to an entity the registry created. */
    ghost predicate Valid()
      reads this
    {
      tables.Below(next)
    }

    constructor ()
      ensures Valid() && next == 0 && tables == Empty
    {
      next := 0;
      tables := Empty;
    }

    /** A fresh identifier, holding no component yet. */
    method Create() returns (e: EntityId)
      requires Valid()
      modifies this`next
      ensures Valid()
      ensures e == old(next) && next == old(next) + 1
      ensures forall k :: !tables.Has(k, e)
    {
      e := next;
      next := next + 1;
    }

    /** Attaches `c` to `e`, which must exist and not hold one of its type yet. */
    method Emplace(e: EntityId, c: Component) returns (stored: Component)
      requires Valid() && e < next && !tables.Has(c.Kind(), e)
      modifies this`tables
      ensures Valid() && tables == old(tables).Put(e, c) && stored == c
    {
      tables := tables.Put(e, c);
      stored := c;
    }

    /** Detaches `e`'s component of type `k`, if it has one. */
    method Remove(e: EntityId, k: Kind)
      requires Valid()
      modifies this`tables
      ensures Valid() && tables == old(tables).Drop(k, e)
    {
      tables := tables.Drop(k, e);
    }

    /** `e`'s component of type `k`, which it must hold. */
    method Get(e: EntityId, k: Kind) returns (c: Component)
      requires tables.Has(k, e)
      ensures c == tables.Lookup(k, e)
    {
      c := tables.Lookup(k, e);
    }

    /** A write through the reference `Get` hands out in the source. */
    method Replace(e: EntityId, c: Component)
      requires Valid() && tables.Has(c.Kind(), e)
      modifies this`tables
      ensures Valid() && tables == old(tables).Put(e, c)
    {
      tables := tables.Put(e, c);
    }
  }

  /**
   * `after` keeps every entry of `before` and only adds entries of entities numbered
   * `bound` or above.
   */
  predicate Extends<C(==)>(before: map<EntityId, C>, after: map<EntityId, C>, bound: nat)
  {
    && (forall e | e in before :: e in after && after[e] == before[e])
    && (forall e | e in after && e !in before :: e >= bound)
  }

  /** Growing above `bound`, then above a higher bound, is growing above `bound`. */
  lemma ExtendsTransitive<C>(a: map<EntityId, C>, b: map<EntityId, C>, c: map<EntityId, C>, n0: nat, n1: nat)
    requires Extends(a, b, n0) && Extends(b, c, n1) && n0 <= n1
    ensures Extends(a, c, n0)
  {
  }

  /** Every table of `after` extends the same table of `before` above `bound`. */
  predicate Grows(before: Tables, after: Tables, bound: nat)
  {
    && Extends(before.tags, after.tags, bound)
    && Extends(before.transforms, after.transforms, bound)
    && Extends(before.movements, after.movements, bound)
    && Extends(before.sprites, after.sprites, bound)
  }

  /** The registry grown above `n0`, then above `n1 >= n0`, has grown above `n0`. */
  lemma GrowsTransitive(a: Tables, b: Tables, c: Tables, n0: nat, n1: nat)
    requires Grows(a, b, n0) && Grows(b, c, n1) && n0 <= n1
    ensures Grows(a, c, n0)
  {
    ExtendsTransitive(a.tags, b.tags, c.tags, n0, n1);
    ExtendsTransitive(a.transforms, b.transforms, c.transforms, n0, n1);
    ExtendsTransitive(a.movements, b.movements, c.movements, n0, n1);
    ExtendsTransitive(a.sprites, b.sprites, c.sprites, n0, n1);
  }
}
