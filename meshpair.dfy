/** `MeshPairViewerWidgetT`: a viewer that shows two meshes together. The
    model keeps the state its key handler, texture sizing and strip switches
    update, and which meshes `draw_scene` hands to the renderer; a mesh is
    represented by its vertex count and whether it has vertex colours, and
    all OpenGL calls are left out. */
module MeshPairViewer {
  import opened Viewing

  /** The keys the handler distinguishes; `Other` stands for every key
      passed on to the base widget. */
  datatype Key = KeyD | KeyN | KeyI | KeyT | Other

  /** The draw modes that draw each non-empty mesh once. */
  const SingleModes: set<string> := {"Points", "Wireframe", "Solid Flat", "Solid Smooth", "Strips'n VertexArrays",
                                    "Show Strips", "Colored Vertices", "Solid Colored Faces", "Smooth Colored Faces"}

  /** Mesh 0 (`first_`) and mesh 1 (`second_`), kept when they have
      vertices. */
  function NonEmpty(firstVertices: nat, secondVertices: nat): (d: seq<nat>)
  {
    (if firstVertices > 0 then [0] else []) + (if secondVertices > 0 then [1] else [])
  }

  class PairViewer {
    var firstVertices: nat
    var secondVertices: nat
    var firstHasColors: bool
    var secondHasColors: bool
    var texMode: int
    var strips: Strips
    var useColor: bool
    var showFaceNormals: bool
    var showVertexNormals: bool
    /** `current_draw_mode()`, a base-widget query. */
    var drawMode: string
    /** Whether the loaded mesh has texture coordinates (`opt_`). */
    var hasTexCoords: bool
    var texWidth: int
    var texHeight: int

    /** `keyPressEvent`: D toggles the colour flag only when both meshes
        have vertex colours and the mode is "Points", N toggles the face
        normals with Shift and the vertex normals without, and T advances
        the texture mode. Every other key is left to the base widget and
        changes nothing here. */
    method KeyPress(key: Key, shift: bool)
      modifies this
      ensures firstVertices == old(firstVertices) && secondVertices == old(secondVertices)
      ensures firstHasColors == old(firstHasColors) && secondHasColors == old(secondHasColors)
      ensures strips == old(strips) && drawMode == old(drawMode) && hasTexCoords == old(hasTexCoords)
      ensures texWidth == old(texWidth) && texHeight == old(texHeight)
      ensures useColor == (if key == KeyD && firstHasColors && secondHasColors && drawMode == "Points"
                           then !old(useColor) else old(useColor))
      ensures showFaceNormals == (if key == KeyN && shift then !old(showFaceNormals) else old(showFaceNormals))
      ensures showVertexNormals == (if key == KeyN && !shift then !old(showVertexNormals) else old(showVertexNormals))
      ensures texMode == (if key == KeyT then NextTexMode(old(texMode)) else old(texMode))
    {
      match key {
        case KeyD =>
          if firstHasColors && secondHasColors && drawMode == "Points" {
            useColor := !useColor;
          }
        case KeyN =>
          if shift {
            showFaceNormals := !showFaceNormals;
          } else {
            showVertexNormals := !showVertexNormals;
          }
        case KeyI =>
        case KeyT =>
          if texMode == Modulate {
            texMode := Decal;
          } else if texMode == Decal {
            texMode := Blend;
          } else if texMode == Blend {
            texMode := Replace;
          } else if texMode == Replace {
            texMode := Modulate;
          }
        case Other =>
      }
    }

    /** `set_texture`: without texture coordinates it fails and changes
        nothing; otherwise the image is scaled to the largest powers of two
        not above its width and height. */
    method SetTexture(width: int, height: int) returns (ok: bool)
      modifies this
      ensures ok == old(hasTexCoords)
      ensures !ok ==> texWidth == old(texWidth) && texHeight == old(texHeight)
      ensures ok && width >= 1 ==> PowerOfTwo(texWidth) && texWidth <= width < 2 * texWidth
      ensures ok && height >= 1 ==> PowerOfTwo(texHeight) && texHeight <= height < 2 * texHeight
      ensures ok && width < 1 ==> texWidth == 0
      ensures ok && height < 1 ==> texHeight == 0
      ensures firstVertices == old(firstVertices) && secondVertices == old(secondVertices)
      ensures firstHasColors == old(firstHasColors) && secondHasColors == old(secondHasColors)
      ensures strips == old(strips) && drawMode == old(drawMode) && hasTexCoords == old(hasTexCoords)
      ensures texMode == old(texMode) && useColor == old(useColor)
      ensures showFaceNormals == old(showFaceNormals) && showVertexNormals == old(showVertexNormals)
    {
      if !hasTexCoords {
        return false;
      }
      texWidth := TextureSide(width);
      texHeight := TextureSide(height);
      ok := true;
    }

    /** `enable_strips`. */
    method EnableStripModes()
      modifies this
      ensures strips == EnableStrips(old(strips))
      ensures firstVertices == old(firstVertices) && secondVertices == old(secondVertices)
      ensures firstHasColors == old(firstHasColors) && secondHasColors == old(secondHasColors)
      ensures drawMode == old(drawMode) && hasTexCoords == old(hasTexCoords) && texMode == old(texMode)
      ensures texWidth == old(texWidth) && texHeight == old(texHeight) && useColor == old(useColor)
      ensures showFaceNormals == old(showFaceNormals) && showVertexNormals == old(showVertexNormals)
    {
      if !strips.on {
        strips := Strips(true, strips.modes + {StripsVertexArrays, ShowStrips});
      }
    }

    /** `disable_strips`. */
    method DisableStripModes()
      modifies this
      ensures strips == DisableStrips(old(strips))
      ensures firstVertices == old(firstVertices) && secondVertices == old(secondVertices)
      ensures firstHasColors == old(firstHasColors) && secondHasColors == old(secondHasColors)
      ensures drawMode == old(drawMode) && hasTexCoords == old(hasTexCoords) && texMode == old(texMode)
      ensures texWidth == old(texWidth) && texHeight == old(texHeight) && useColor == old(useColor)
      ensures showFaceNormals == old(showFaceNormals) && showVertexNormals == old(showVertexNormals)
    {
      if strips.on {
        strips := Strips(false, strips.modes - {ShowStrips, StripVertexArrays});
      }
    }

    /** `draw_scene`: the meshes handed to the renderer, in order. Nothing
        when both meshes are empty; otherwise every known mode draws each
        mesh that has vertices ("Hidden-Line" twice over, as a filled and
        then a line pass), and an unknown mode draws nothing. */
    method DrawScene(mode: string) returns (drawn: seq<nat>)
      ensures firstVertices == 0 && secondVertices == 0 ==> drawn == []
      ensures forall j :: 0 <= j < |drawn| ==> drawn[j] <= 1
      ensures forall j :: 0 <= j < |drawn| ==> (if drawn[j] == 0 then firstVertices else secondVertices) > 0
      ensures mode in SingleModes ==> drawn == NonEmpty(firstVertices, secondVertices)
      ensures mode == "Hidden-Line" ==> drawn == NonEmpty(firstVertices, secondVertices) + NonEmpty(firstVertices, secondVertices)
      ensures mode !in SingleModes && mode != "Hidden-Line" ==> drawn == []
    {
      drawn := [];
      if firstVertices == 0 && secondVertices == 0 {
        return;
      }
      if mode in SingleModes {
        if 0 < firstVertices {
          drawn := drawn + [0];
        }
        if 0 < secondVertices {
          drawn := drawn + [1];
        }
      } else if mode == "Hidden-Line" {
        if 0 < firstVertices {
          drawn := drawn + [0];
        }
        if 0 < secondVertices {
          drawn := drawn + [1];
        }
        if 0 < firstVertices {
          drawn := drawn + [0];
        }
        if 0 < secondVertices {
          drawn := drawn + [1];
        }
      }
    }
  }
}
