/** `MeshListViewerWidgetT`: a viewer that shows a window of consecutive
    meshes from a list, moving cyclically through the list. The model keeps
    the state its key handler, texture sizing, strip switches and scene
    drawing update or read; a mesh is represented by its vertex count, and
    all OpenGL calls are left out. */
module MeshListViewer {
  import opened Viewing

  /** The keys the handler distinguishes; `Other` stands for every key
      passed on to the base widget. */
  datatype Key = KeyD | KeyN | KeyI | KeyT | KeyUp | KeyDown | KeyLeft | KeyRight | Other

  /** The most meshes shown at once. */
  const MaxVisible: int := 8

  /** Key Up: one more visible mesh while fewer than 8 and fewer than the
      list holds. */
  function MoreVisible(visible: int, size: nat): int
  {
    if size > 0 && visible < MaxVisible && visible < size then visible + 1 else visible
  }

  /** Key Down: one fewer visible mesh while more than 1. */
  function FewerVisible(visible: int, size: nat): int
  {
    if size > 0 && visible > 1 then visible - 1 else visible
  }

  /** Key Left: the first shown mesh moves back by one, from 0 to the last. */
  function StepLeft(start: int, size: nat): int
  {
    if size == 0 then start else if start == 0 then size - 1 else start - 1
  }

  /** Key Right: the first shown mesh moves on by one, from the last to 0. */
  function StepRight(start: int, size: nat): int
  {
    if size == 0 then start else if start == size - 1 then 0 else start + 1
  }

  /** The carousel state a non-empty list keeps: between 1 and min(8, size)
      meshes shown, starting at an index of the list. */
  predicate Carousel(visible: int, start: int, size: nat)
  {
    size > 0 ==> 1 <= visible <= MaxVisible && visible <= size && 0 <= start < size
  }

  /** Keys Up and Down keep the number of visible meshes within
      [1, min(8, size)], and Left and Right keep the start inside the list. */
  lemma CarouselKept(visible: int, start: int, size: nat)
    requires Carousel(visible, start, size)
    ensures Carousel(MoreVisible(visible, size), start, size)
    ensures Carousel(FewerVisible(visible, size), start, size)
    ensures Carousel(visible, StepLeft(start, size), size)
    ensures Carousel(visible, StepRight(start, size), size)
  {
  }

  /** Left and Right undo each other, and both are the identity on an empty
      list; Left is a step back modulo the size, Right a step forward. */
  lemma LeftRightInverse(start: int, size: nat)
    requires size == 0 || 0 <= start < size
    ensures StepRight(StepLeft(start, size), size) == start
    ensures StepLeft(StepRight(start, size), size) == start
    ensures size > 0 ==> StepLeft(start, size) == (start + size - 1) % size && StepRight(start, size) == (start + 1) % size
  {
    if size > 0 {
      assert StepLeft(start, size) == Wrapped(start + size - 1, size);
      assert StepRight(start, size) == Wrapped(start + 1, size);
      WrappedIsMod(start + size - 1, size);
      WrappedIsMod(start + 1, size);
    }
  }

  function RightSteps(start: int, size: nat, n: nat): int
  {
    if n == 0 then start else StepRight(RightSteps(start, size, n - 1), size)
  }

  /** An index one list length past the end, brought back into the list. */
  function Wrapped(i: int, size: nat): int
  {
    if i < size then i else i - size
  }

  /** Below twice the size, wrapping once is taking the index modulo the
      size. */
  lemma WrappedIsMod(i: int, size: nat)
    requires 0 <= i < 2 * size
    ensures Wrapped(i, size) == i % size
  {
    if i >= size {
      assert i == 1 * size + (i - size);
    }
  }

  /** Pressing Right n times, for n up to the size, moves the start n
      places on cyclically; after `size` presses it is back where it was. */
  lemma {:induction false} RightCycle(start: int, size: nat, n: nat)
    requires 0 <= start < size && n <= size
    ensures RightSteps(start, size, n) == Wrapped(start + n, size) == (start + n) % size
    ensures n == size ==> RightSteps(start, size, n) == start
  {
    WrappedIsMod(start + n, size);
    if n > 0 {
      RightCycle(start, size, n - 1);
    }
  }

  /** The meshes the "Points" mode visits: `visible` of them from `start`
      on, wrapping from the end of the list to its beginning. */
  function Window(start: int, visible: int, size: nat): (w: seq<nat>)
    requires size > 0 && 0 <= start < size
    ensures |w| == if visible > 0 then visible else 0
    ensures forall j :: 0 <= j < |w| ==> w[j] < size
  {
    var n := if visible > 0 then visible else 0;
    seq(n, j requires 0 <= j < n => (start + j) % size)
  }

  /** The visited meshes that have vertices, the ones actually drawn. */
  function WithVertices(meshes: seq<nat>, w: seq<nat>): (d: seq<nat>)
    requires forall j :: 0 <= j < |w| ==> w[j] < |meshes|
    ensures forall j :: 0 <= j < |d| ==> d[j] < |meshes| && meshes[d[j]] > 0
    ensures |d| <= |w|
  {
    if w == [] then []
    else
      var rest := WithVertices(meshes, w[1..]);
      if meshes[w[0]] > 0 then [w[0]] + rest else rest
  }

  class ListViewer {
    /** The vertex count of every mesh in `mesh_list_`. */
    var meshes: seq<nat>
    /** `current_visible_num_` and `current_mesh_start_`. */
    var visible: int
    var start: int
    var texMode: int
    var strips: Strips
    var useColor: bool
    var showFaceNormals: bool
    var showVertexNormals: bool
    /** `current_draw_mode()`, a base-widget query. */
    var drawMode: string
    /** Whether the loaded mesh has texture coordinates (`opt_`). */
    var hasTexCoords: bool
    /** The size the texture image was last scaled to. */
    var texWidth: int
    var texHeight: int

    ghost predicate Valid()
      reads this
    {
      Carousel(visible, start, |meshes|)
    }

    /** `keyPressEvent`: D toggles the colour flag in "Points" mode only, N
        toggles the face normals with Shift and the vertex normals without,
        T advances the texture mode, Up and Down change the number of
        visible meshes and Left and Right move the start cyclically. Every
        other key is left to the base widget and changes nothing here. */
    method KeyPress(key: Key, shift: bool)
      requires Valid()
      modifies this
      ensures Valid()
      ensures meshes == old(meshes) && strips == old(strips) && drawMode == old(drawMode)
      ensures hasTexCoords == old(hasTexCoords) && texWidth == old(texWidth) && texHeight == old(texHeight)
      ensures useColor == (if key == KeyD && drawMode == "Points" then !old(useColor) else old(useColor))
      ensures showFaceNormals == (if key == KeyN && shift then !old(showFaceNormals) else old(showFaceNormals))
      ensures showVertexNormals == (if key == KeyN && !shift then !old(showVertexNormals) else old(showVertexNormals))
      ensures texMode == (if key == KeyT then NextTexMode(old(texMode)) else old(texMode))
      ensures visible == (if key == KeyUp then MoreVisible(old(visible), |meshes|)
                          else if key == KeyDown then FewerVisible(old(visible), |meshes|)
                          else old(visible))
      ensures start == (if key == KeyLeft then StepLeft(old(start), |meshes|)
                        else if key == KeyRight then StepRight(old(start), |meshes|)
                        else old(start))
    {
      CarouselKept(visible, start, |meshes|);
      match key {
        case KeyD =>
          if drawMode == "Points" {
            useColor := !useColor;
          }
        case KeyN =>
          if shift {
            showFaceNormals := !showFaceNormals;
          } else {
            showVertexNormals := !showVertexNormals;
          }
        case KeyI =>
        case KeyT =>
          if texMode == Modulate {
            texMode := Decal;
          } else if texMode == Decal {
            texMode := Blend;
          } else if texMode == Blend {
            texMode := Replace;
          } else if texMode == Replace {
            texMode := Modulate;
          }
        case KeyUp =>
          if |meshes| > 0 && visible < MaxVisible && visible < |meshes| {
            visible := visible + 1;
          }
        case KeyDown =>
          if |meshes| > 0 && visible > 1 {
            visible := visible - 1;
          }
        case KeyLeft =>
          if |meshes| > 0 {
            if start == 0 {
              start := |meshes| - 1;
            } else {
              start := start - 1;
            }
          }
        case KeyRight =>
          if |meshes| > 0 {
            if start == |meshes| - 1 {
              start := 0;
            } else {
              start := start + 1;
            }
          }
        case Other =>
      }
    }

    /** `set_texture`: without texture coordinates it fails and changes
        nothing; otherwise the image is scaled to the largest powers of two
        not above its width and height. */
    method SetTexture(width: int, height: int) returns (ok: bool)
      modifies this
      ensures ok == old(hasTexCoords)
      ensures !ok ==> texWidth == old(texWidth) && texHeight == old(texHeight)
      ensures ok && width >= 1 ==> PowerOfTwo(texWidth) && texWidth <= width < 2 * texWidth
      ensures ok && height >= 1 ==> PowerOfTwo(texHeight) && texHeight <= height < 2 * texHeight
      ensures ok && width < 1 ==> texWidth == 0
      ensures ok && height < 1 ==> texHeight == 0
      ensures meshes == old(meshes) && visible == old(visible) && start == old(start) && texMode == old(texMode)
      ensures strips == old(strips) && useColor == old(useColor) && hasTexCoords == old(hasTexCoords)
      ensures showFaceNormals == old(showFaceNormals) && showVertexNormals == old(showVertexNormals) && drawMode == old(drawMode)
    {
      if !hasTexCoords {
        return false;
      }
      texWidth := TextureSide(width);
      texHeight := TextureSide(height);
      ok := true;
    }

    /** `enable_strips`. */
    method EnableStripModes()
      modifies this
      ensures strips == EnableStrips(old(strips))
      ensures meshes == old(meshes) && visible == old(visible) && start == old(start) && texMode == old(texMode)
      ensures useColor == old(useColor) && drawMode == old(drawMode) && hasTexCoords == old(hasTexCoords)
      ensures texWidth == old(texWidth) && texHeight == old(texHeight)
      ensures showFaceNormals == old(showFaceNormals) && showVertexNormals == old(showVertexNormals)
    {
      if !strips.on {
        strips := Strips(true, strips.modes + {StripsVertexArrays, ShowStrips});
      }
    }

    /** `disable_strips`. */
    method DisableStripModes()
      modifies this
      ensures strips == DisableStrips(old(strips))
      ensures meshes == old(meshes) && visible == old(visible) && start == old(start) && texMode == old(texMode)
      ensures useColor == old(useColor) && drawMode == old(drawMode) && hasTexCoords == old(hasTexCoords)
      ensures texWidth == old(texWidth) && texHeight == old(texHeight)
      ensures showFaceNormals == old(showFaceNormals) && showVertexNormals == old(showVertexNormals)
    {
      if strips.on {
        strips := Strips(false, strips.modes - {ShowStrips, StripVertexArrays});
      }
    }

    /** `draw_scene`: nothing for an empty list; in "Points" mode the
        iterator starts at `start`, visits `visible` meshes wrapping at the
        end of the list, and draws those with vertices. Every other mode
        draws nothing. */
    method DrawScene(mode: string) returns (visited: seq<nat>, drawn: seq<nat>)
      requires Valid()
      ensures |meshes| == 0 || mode != "Points" ==> visited == [] && drawn == []
      ensures |meshes| > 0 && mode == "Points" ==>
                visited == Window(start, visible, |meshes|) && drawn == WithVertices(meshes, visited)
    {
      visited, drawn := [], [];
      if |meshes| == 0 || mode != "Points" {
        return;
      }
      var it := start;
      var cnt := 0;
      ghost var w := Window(start, visible, |meshes|);
      while cnt < visible
        invariant 0 <= cnt && (visible > 0 ==> cnt <= visible) && |visited| == cnt
        invariant 0 <= it < |meshes| && it == Wrapped(start + cnt, |meshes|)
        invariant visited == w[..cnt]
        invariant drawn == WithVertices(meshes, visited)
      {
        WrappedIsMod(start + cnt, |meshes|);
        WithVerticesSnoc(meshes, visited, it);
        if meshes[it] > 0 {
          drawn := drawn + [it];
        }
        visited := visited + [it];
        cnt := cnt + 1;
        it := it + 1;
        if it == |meshes| {
          it := 0;
        }
      }
      assert visited == w;
    }
  }

  lemma {:induction false} WithVerticesSnoc(meshes: seq<nat>, w: seq<nat>, i: nat)
    requires forall j :: 0 <= j < |w| ==> w[j] < |meshes|
    requires i < |meshes|
    ensures WithVertices(meshes, w + [i]) == WithVertices(meshes, w) + (if meshes[i] > 0 then [i] else [])
  {
    if w != [] {
      assert (w + [i])[1..] == w[1..] + [i];
      WithVerticesSnoc(meshes, w[1..], i);
    }
  }
}
