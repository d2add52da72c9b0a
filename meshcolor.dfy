/** `MeshColor`: a lazily (re)allocated buffer of per-vertex colours that
    follows the vertex count of the mesh it refers to. */
module MeshColors {

  /** The vertex count of a mesh, the only thing the colour buffer reads of
      it. */
  class Mesh {
    var vertexCount: nat

    constructor (n: nat)
      ensures vertexCount == n
    {
      vertexCount := n;
    }
  }

  datatype Rgb = Rgb(r: bv8, g: bv8, b: bv8)

  /** The colour buffer: absent until first allocated, then one colour per
      vertex. `ColorArray::RGBArray::reset(n, r, g, b)` is not part of this
      model; it is taken to fill a buffer of n entries with that colour. */
  datatype Buffer = Absent | Colors(entries: seq<Rgb>)

  /** The default colour `vertex_colors` would fill with: entry
      r mod |palette| of the default palette, r being the value `rand()`
      returned. */
  function DefaultColorIndex(r: nat, palette: seq<Rgb>): (i: nat)
    requires |palette| > 0
    ensures i < |palette|
  {
    r % |palette|
  }

  /** Whether `vertex_colors` has to reset the buffer: when there is none,
      or when its size is not the mesh's vertex count. */
  predicate NeedsReset(b: Buffer, n: nat)
  {
    b.Absent? || |b.entries| != n
  }

  /** The buffer after a reset to n vertices of colour c. */
  function Filled(n: nat, c: Rgb): (b: Buffer)
    ensures b.Colors? && |b.entries| == n
  {
    Colors(seq(n, _ => c))
  }

  class MeshColor {
    const mesh: Mesh
    var colors: Buffer

    /** Construction from a mesh: no buffer yet. */
    constructor (m: Mesh)
      ensures mesh == m && colors == Absent
    {
      mesh := m;
      colors := Absent;
    }

    /** The copy constructor: the copy refers to the same mesh and holds the
        same colours. */
    constructor Copy(c: MeshColor)
      ensures mesh == c.mesh && colors == c.colors
    {
      mesh := c.mesh;
      colors := c.colors;
    }

    /** `vertex_colors`: draws a default colour from the palette, resets the
        buffer to one entry of that colour per vertex when the buffer is
        absent or has the wrong size, and returns the buffer. */
    method VertexColors(r: nat, palette: seq<Rgb>) returns (result: seq<Rgb>)
      requires |palette| > 0
      modifies this
      ensures colors.Colors? && |colors.entries| == mesh.vertexCount && result == colors.entries
      ensures NeedsReset(old(colors), mesh.vertexCount) ==>
                colors == Filled(mesh.vertexCount, palette[DefaultColorIndex(r, palette)])
      ensures !NeedsReset(old(colors), mesh.vertexCount) ==> colors == old(colors)
    {
      var c := palette[r % |palette|];
      if colors.Absent? {
        colors := Colors(seq(mesh.vertexCount, _ => c));
      } else if mesh.vertexCount != |colors.entries| {
        colors := Colors(seq(mesh.vertexCount, _ => c));
      }
      result := colors.entries;
    }
  }

  /** A buffer of the right size needs no reset, so a second call right
      after the first keeps the colours it returned. */
  lemma ResetSettles(n: nat, c: Rgb)
    ensures !NeedsReset(Filled(n, c), n)
  {
  }
}
