/** Value types of the scene: vertices, materials and their fields.
    Floating-point numbers are carried as their IEEE-754 single-precision bit
    patterns; the scene never computes with them, it only stores and forwards. */
module SceneValues {

  /** An `f32`, as its 32-bit pattern. */
  type F32 = bv32

  const ZERO: F32 := 0x0000_0000       // 0.0
  const ONE: F32 := 0x3F80_0000        // 1.0
  const HALF: F32 := 0x3F00_0000       // 0.5
  const MINUS_HALF: F32 := 0xBF00_0000 // -0.5

  /** Rust's `u8` and `u32`. */
  type U8 = x: int | 0 <= x < 0x100
  type U32 = x: int | 0 <= x < 0x1_0000_0000

  datatype Option<T> = None | Some(value: T)

  /** A GPU texture object, known only by its handle. */
  datatype Texture = Texture(handle: nat)

  /** `[f32; 3]` and `[f32; 2]`. */
  type Vec3 = (F32, F32, F32)
  type Vec2 = (F32, F32)

  /** A vertex as uploaded to the vertex shader: position, texture coordinate
      and the key of its material (0 stands for "no material"). */
  datatype Vertex = Vertex(pos: Vec3, uv: Vec2, materialId: U8)

  /** `Vertex::new`: a vertex at (x, y, z) with texture coordinate (0, 1) and
      no material. */
  function NewVertex(x: F32, y: F32, z: F32): (v: Vertex)
    ensures v.pos.0 == x && v.pos.1 == y && v.pos.2 == z
    ensures v.uv == (ZERO, ONE)
    ensures v.materialId == 0
  {
    Vertex((x, y, z), (ZERO, ONE), 0)
  }

  /** One shading parameter of a material: an optional value, optionally
      accompanied by a texture. The `&mut self` setters of the source are
      the member functions below, each returning the updated field. */
  datatype MaterialField<T> = MaterialField(value: Option<T>, texture: Option<Texture>)
  {
    /** `set_value`: the value becomes `v`; the texture is kept. */
    function SetValue(v: T): (r: MaterialField<T>)
      ensures r.value == Some(v)
      ensures r.texture == texture
    {
      this.(value := Some(v))
    }

    /** `set_texture`: the texture becomes `t`; the value is kept. */
    function SetTexture(t: Texture): (r: MaterialField<T>)
      ensures r.texture == Some(t)
      ensures r.value == value
    {
      this.(texture := Some(t))
    }

    /** `clear_texture`: no texture any more; the value is kept. */
    function ClearTexture(): (r: MaterialField<T>)
      ensures r.texture == None
      ensures r.value == value
    {
      this.(texture := None)
    }
  }

  /** `MaterialField::new`: a value and no texture. */
  function NewMaterialField<T>(v: T): (f: MaterialField<T>)
    ensures f.value == Some(v)
    ensures f.texture == None
  {
    MaterialField(Some(v), None)
  }

  /** The value setter and the texture setters touch disjoint parts of a
      field, so they commute; clearing undoes setting a texture on a field
      built by `NewMaterialField`. */
  lemma MaterialFieldSettersCommute<T>(f: MaterialField<T>, v: T, t: Texture)
    ensures f.SetValue(v).SetTexture(t) == f.SetTexture(t).SetValue(v)
    ensures f.SetValue(v).ClearTexture() == f.ClearTexture().SetValue(v)
    ensures NewMaterialField(v).SetTexture(t).ClearTexture() == NewMaterialField(v)
    ensures f.SetValue(v).SetValue(v) == f.SetValue(v)
  {
  }

  type Color = Vec3

  /** A material: a diffuse colour and a specularity. */
  datatype Material = Material(diffuse: MaterialField<Color>, specularity: MaterialField<F32>)

  /** `Material::new`: the two fields as given. */
  function NewMaterial(diffuse: MaterialField<Color>, specularity: MaterialField<F32>): (m: Material)
    ensures m.diffuse == diffuse && m.specularity == specularity
  {
    Material(diffuse, specularity)
  }
}
