/** Debug meshes for physics objects
    (packages/core/src/modules/integrations/physics-graphics.ts): a collider's shape is
    turned into a wireframe geometry of the same size, wrapped in the `Mesh` trait. The
    physics engine's colliders and the three.js objects are replaced by plain values. */
module PhysicsGraphics {
  import opened Errors
  import opened Core

  /** The shape of a collider: the two kinds a debug mesh exists for, and any other
      shape type of the engine (capsule, cylinder, heightfield, ...) by its type code. */
  datatype Shape = Ball(radius: real) | Cuboid(halfExtents: Vec3) | OtherShape(typeCode: nat)

  /** The geometries built: a sphere by radius, a box by full width, height, depth. */
  datatype Geometry = SphereGeometry(radius: real) | BoxGeometry(width: real, height: real, depth: real)

  datatype Material = Material(color: int, wireframe: bool)

  datatype Mesh = Mesh(geometry: Geometry, material: Material)

  /** The `Mesh` trait value attached to an entity. */
  datatype MeshTrait = MeshTrait(mesh: Mesh)

  const White: int := 0xffffff
  const Yellow: int := 0xffff00

  const UnsupportedShape: string := "Collider shape type not supported for debug mesh"

  /** The colour option with its default applied. */
  function ColorOr(color: Option<int>, default: int): int {
    if color.Some? then color.value else default
  }

  /** The half-extents of a shape along x, y and z. */
  function ShapeHalfExtents(s: Shape): Vec3
    requires !s.OtherShape?
  {
    match s
    case Ball(r) => Vec3(r, r, r)
    case Cuboid(h) => h
  }

  /** The half-extents of a geometry along x, y and z. */
  function GeometryHalfExtents(g: Geometry): Vec3 {
    match g
    case SphereGeometry(r) => Vec3(r, r, r)
    case BoxGeometry(w, h, d) => Vec3(w / 2.0, h / 2.0, d / 2.0)
  }

  /** `createMeshFromCollider`: a wireframe mesh of the collider's shape in the given
      colour (white by default); a shape other than a ball or cuboid throws. */
  function CreateMeshFromCollider(shape: Shape, color: Option<int>): (r: Result<Mesh>)
    ensures r.Ok? <==> shape.Ball? || shape.Cuboid?
    ensures r.Err? ==> r.error == Plain(UnsupportedShape)
    ensures r.Ok? ==> r.value.material == Material(ColorOr(color, White), true)
    ensures shape.Ball? ==> r.Ok? && r.value.geometry.SphereGeometry?
    ensures shape.Cuboid? ==> r.Ok? && r.value.geometry.BoxGeometry?
    // the mesh has exactly the extents of the collider it draws
    ensures r.Ok? ==> GeometryHalfExtents(r.value.geometry) == ShapeHalfExtents(shape)
  {
    var material := Material(ColorOr(color, White), true);
    match shape
    case Ball(radius) => Ok(Mesh(SphereGeometry(radius), material))
    case Cuboid(h) => Ok(Mesh(BoxGeometry(h.x * 2.0, h.y * 2.0, h.z * 2.0), material))
    case OtherShape(_) => Err(Plain(UnsupportedShape))
  }

  /** Wraps a mesh result in the `Mesh` trait, passing an error through. */
  function AsTrait(m: Result<Mesh>): Result<MeshTrait> {
    match m
    case Ok(mesh) => Ok(MeshTrait(mesh))
    case Err(e) => Err(e)
  }

  /** `createRigidBodyDebugMesh`: the mesh of the body's first collider only, white by
      default. `colliders` are the shapes of the body's colliders in index order; a body
      with none fails inside the engine when collider 0 is asked for. */
  function CreateRigidBodyDebugMesh(colliders: seq<Shape>, color: Option<int>): (r: Result<MeshTrait>)
    ensures colliders == [] ==> r == Err(EngineFailure)
    ensures colliders != [] ==> (r.Ok? <==> colliders[0].Ball? || colliders[0].Cuboid?)
    ensures colliders != [] && r.Err? ==> r.error == Plain(UnsupportedShape)
    ensures r.Ok? ==> r.value.mesh.material == Material(ColorOr(color, White), true)
    ensures r.Ok? ==> GeometryHalfExtents(r.value.mesh.geometry) == ShapeHalfExtents(colliders[0])
  {
    if colliders == [] then Err(EngineFailure)
    else AsTrait(CreateMeshFromCollider(colliders[0], Some(ColorOr(color, White))))
  }

  /** `createAreaDebugMesh`: the mesh of the area's collider, yellow by default. */
  function CreateAreaDebugMesh(shape: Shape, color: Option<int>): (r: Result<MeshTrait>)
    ensures r.Ok? <==> shape.Ball? || shape.Cuboid?
    ensures r.Ok? ==> r.value.mesh.material == Material(ColorOr(color, Yellow), true)
    ensures r.Ok? ==> GeometryHalfExtents(r.value.mesh.geometry) == ShapeHalfExtents(shape)
    ensures r.Err? ==> r.error == Plain(UnsupportedShape)
  {
    AsTrait(CreateMeshFromCollider(shape, Some(ColorOr(color, Yellow))))
  }

  /** Only the first collider of a body is drawn: colliders after it never change the
      result. */
  lemma OnlyFirstColliderDrawn(first: Shape, rest1: seq<Shape>, rest2: seq<Shape>, color: Option<int>)
    ensures CreateRigidBodyDebugMesh([first] + rest1, color) == CreateRigidBodyDebugMesh([first] + rest2, color)
  {
  }

  /** Without a colour, a body and an area of the same shape get the same geometry and
      differ only in colour: white for bodies, yellow for areas. */
  lemma DefaultColours(shape: Shape)
    requires shape.Ball? || shape.Cuboid?
    ensures var b, a := CreateRigidBodyDebugMesh([shape], None), CreateAreaDebugMesh(shape, None);
            && b.Ok? && a.Ok?
            && b.value.mesh.geometry == a.value.mesh.geometry
            && b.value.mesh.material == Material(White, true)
            && a.value.mesh.material == Material(Yellow, true)
  {
  }
}
