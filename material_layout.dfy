/** How `ObjectLoader` lays the mesh's materials out in one shared vertex buffer:
    each material gets a contiguous range of whole vertices, in declaration order. */
module MaterialLayout {
  import opened Wrappers
  import opened Gl

  /** One material as the OBJ loader supplies it: its name, its interleaved vertex
      floats, RGBA colours and shininess. */
  datatype SceneMaterial = SceneMaterial(
    name: string,
    vertices: seq<real>,
    ambient: seq<real>,
    diffuse: seq<real>,
    specular: seq<real>,
    shininess: real)

  /** `(start, count)` in vertices, as passed to `glDrawArrays`. */
  datatype VertexRange = VertexRange(start: nat, count: nat)

  /** The loader's `Material` record. */
  datatype Material = Material(
    name: string,
    ambient: Vec3,
    diffuse: Vec3,
    specular: Vec3,
    shininess: real,
    vboRange: VertexRange)

  /** The materials with their ranges, and the floats of the shared buffer. */
  datatype Layout = Layout(materials: seq<Material>, vertices: seq<real>)

  /** The OBJ loader hands out colours as RGBA. */
  predicate HasRgbaColours(m: SceneMaterial) {
    |m.ambient| == 4 && |m.diffuse| == 4 && |m.specular| == 4
  }

  predicate RgbaScene(scene: seq<SceneMaterial>) {
    forall i :: 0 <= i < |scene| ==> HasRgbaColours(scene[i])
  }

  /** `glm.vec3(c[:-1])`: the colour without its last (alpha) component. */
  function Rgb(c: seq<real>): (v: Vec3)
    requires |c| == 4
    ensures v.x == c[0] && v.y == c[1] && v.z == c[2]
  {
    var rgb := c[..|c| - 1];
    Vec3(rgb[0], rgb[1], rgb[2])
  }

  /** `len(vertices) // floats_per_vertex`: the whole vertices in a material. */
  function VertexCount(m: SceneMaterial, floatsPerVertex: nat): (n: nat)
    requires floatsPerVertex > 0
    ensures n * floatsPerVertex <= |m.vertices| && |m.vertices| - n * floatsPerVertex < floatsPerVertex
  {
    FloorDivision(|m.vertices|, floatsPerVertex);
    |m.vertices| / floatsPerVertex
  }

  /** Rounding-down division: the quotient's multiple fits, and one more does not. */
  lemma FloorDivision(x: nat, k: nat)
    requires k > 0
    ensures (x / k) * k <= x && x - (x / k) * k < k
  {
  }

  /** The vertex counts of the materials, summed. */
  function TotalCount(scene: seq<SceneMaterial>, floatsPerVertex: nat): nat
    requires floatsPerVertex > 0
  {
    if scene == [] then 0
    else TotalCount(scene[..|scene| - 1], floatsPerVertex) + VertexCount(scene[|scene| - 1], floatsPerVertex)
  }

  /** The range of material `i`: it starts where the counts of all earlier materials end. */
  function RangeOf(scene: seq<SceneMaterial>, floatsPerVertex: nat, i: nat): (r: VertexRange)
    requires floatsPerVertex > 0 && i < |scene|
    ensures r.start + r.count == TotalCount(scene[..i + 1], floatsPerVertex)
  {
    assert scene[..i + 1][..i] == scene[..i];
    VertexRange(TotalCount(scene[..i], floatsPerVertex), VertexCount(scene[i], floatsPerVertex))
  }

  /** The ranges of all materials, in declaration order. */
  function LaidOutRanges(scene: seq<SceneMaterial>, floatsPerVertex: nat): seq<VertexRange>
    requires floatsPerVertex > 0
  {
    seq(|scene|, i requires 0 <= i < |scene| => RangeOf(scene, floatsPerVertex, i))
  }

  function ToMaterial(m: SceneMaterial, range: VertexRange): Material
    requires HasRgbaColours(m)
  {
    Material(m.name, Rgb(m.ambient), Rgb(m.diffuse), Rgb(m.specular), m.shininess, range)
  }

  /** The vertex floats of all materials, one after another. */
  function Flatten(scene: seq<SceneMaterial>): (buffer: seq<real>)
    ensures scene == [] ==> buffer == []
    ensures |scene| == 1 ==> buffer == scene[0].vertices
  {
    if scene == [] then [] else Flatten(scene[..|scene| - 1]) + scene[|scene| - 1].vertices
  }

  /** `ms` is the loader's material list for `scene`: one record per material, in
      order, carrying the material's name, RGB colours and shininess and its range. */
  ghost predicate LaidOut(ms: seq<Material>, scene: seq<SceneMaterial>, floatsPerVertex: nat)
    requires floatsPerVertex > 0 && RgbaScene(scene)
  {
    |ms| == |scene| &&
    forall i :: 0 <= i < |scene| ==> ms[i] == ToMaterial(scene[i], RangeOf(scene, floatsPerVertex, i))
  }

  /** The material loop of `_create_buffers`. With no floats per vertex the first
      material's division raises a ZeroDivisionError (here `None`). */
  method LayoutMaterials(scene: seq<SceneMaterial>, floatsPerVertex: nat) returns (r: Option<Layout>)
    requires RgbaScene(scene)
    ensures r.None? <==> floatsPerVertex == 0 && |scene| > 0
    ensures r.Some? ==> r.value.vertices == Flatten(scene)
    ensures r.Some? && floatsPerVertex == 0 ==> r.value.materials == []
    ensures r.Some? && floatsPerVertex > 0 ==> LaidOut(r.value.materials, scene, floatsPerVertex)
  {
    var allVertices: seq<real> := [];
    var materials: seq<Material> := [];
    var currentOffset := 0;
    for i := 0 to |scene|
      invariant floatsPerVertex == 0 ==> i == 0
      invariant |materials| == i
      invariant allVertices == Flatten(scene[..i])
      invariant floatsPerVertex > 0 ==>
        currentOffset == TotalCount(scene[..i], floatsPerVertex) &&
        forall j {:trigger materials[j]} :: 0 <= j < i ==>
          materials[j] == ToMaterial(scene[j], RangeOf(scene, floatsPerVertex, j))
    {
      var m := scene[i];
      assert scene[..i + 1][..i] == scene[..i];
      allVertices := allVertices + m.vertices;
      if floatsPerVertex == 0 {
        return None;
      }
      var vertexCount := |m.vertices| / floatsPerVertex;
      var material := Material(m.name, Rgb(m.ambient), Rgb(m.diffuse), Rgb(m.specular),
                               m.shininess, VertexRange(currentOffset, vertexCount));
      assert material == ToMaterial(m, RangeOf(scene, floatsPerVertex, i));
      materials := materials + [material];
      currentOffset := currentOffset + vertexCount;
    }
    assert scene[..|scene|] == scene;
    return Some(Layout(materials, allVertices));
  }

  /** Counting the first `i` materials of a longer list is counting the shorter list. */
  lemma PrefixRange(scene: seq<SceneMaterial>, floatsPerVertex: nat, n: nat, i: nat)
    requires floatsPerVertex > 0 && i < n <= |scene|
    ensures RangeOf(scene[..n], floatsPerVertex, i) == RangeOf(scene, floatsPerVertex, i)
  {
    assert scene[..n][..i] == scene[..i];
  }

  /** The ranges are contiguous: the first starts at 0, each next one starts where the
      previous one ends, and the last one ends at the total vertex count. */
  lemma RangesContiguous(scene: seq<SceneMaterial>, floatsPerVertex: nat)
    requires floatsPerVertex > 0
    ensures |scene| > 0 ==> RangeOf(scene, floatsPerVertex, 0).start == 0
    ensures forall i :: 0 <= i < |scene| - 1 ==>
      RangeOf(scene, floatsPerVertex, i + 1).start ==
        RangeOf(scene, floatsPerVertex, i).start + RangeOf(scene, floatsPerVertex, i).count
    ensures |scene| > 0 ==>
      RangeOf(scene, floatsPerVertex, |scene| - 1).start + RangeOf(scene, floatsPerVertex, |scene| - 1).count ==
        TotalCount(scene, floatsPerVertex)
  {
  }

  /** Counting more materials never counts fewer vertices. */
  lemma {:induction false} TotalCountMonotone(scene: seq<SceneMaterial>, floatsPerVertex: nat, i: nat, j: nat)
    requires floatsPerVertex > 0 && i <= j <= |scene|
    ensures TotalCount(scene[..i], floatsPerVertex) <= TotalCount(scene[..j], floatsPerVertex)
    decreases j - i
  {
    if i < j {
      TotalCountMonotone(scene, floatsPerVertex, i, j - 1);
      assert scene[..j][..j - 1] == scene[..j - 1];
    }
  }

  predicate InRange(v: nat, r: VertexRange) {
    r.start <= v < r.start + r.count
  }

  /** Every vertex below the total lies in some material's range. */
  lemma {:induction false} RangesCover(scene: seq<SceneMaterial>, floatsPerVertex: nat, v: nat)
    requires floatsPerVertex > 0 && v < TotalCount(scene, floatsPerVertex)
    ensures exists i :: 0 <= i < |scene| && InRange(v, RangeOf(scene, floatsPerVertex, i))
    decreases |scene|
  {
    var n := |scene|;
    var init := scene[..n - 1];
    if v < TotalCount(init, floatsPerVertex) {
      RangesCover(init, floatsPerVertex, v);
      var i :| 0 <= i < |init| && InRange(v, RangeOf(init, floatsPerVertex, i));
      PrefixRange(scene, floatsPerVertex, n - 1, i);
    } else {
      assert InRange(v, RangeOf(scene, floatsPerVertex, n - 1));
    }
  }

  /** The ranges partition `[0, total)`: a vertex lies in some range exactly when it is
      below the total vertex count, and never in two ranges. */
  lemma RangesPartition(scene: seq<SceneMaterial>, floatsPerVertex: nat, v: nat)
    requires floatsPerVertex > 0
    ensures v < TotalCount(scene, floatsPerVertex) <==>
      exists i :: 0 <= i < |scene| && InRange(v, RangeOf(scene, floatsPerVertex, i))
    ensures forall i, j ::
      (0 <= i < |scene| && 0 <= j < |scene| &&
       InRange(v, RangeOf(scene, floatsPerVertex, i)) && InRange(v, RangeOf(scene, floatsPerVertex, j))) ==> i == j
  {
    if v < TotalCount(scene, floatsPerVertex) {
      RangesCover(scene, floatsPerVertex, v);
    }
    forall i | 0 <= i < |scene| && InRange(v, RangeOf(scene, floatsPerVertex, i))
      ensures v < TotalCount(scene, floatsPerVertex)
    {
      TotalCountMonotone(scene, floatsPerVertex, i + 1, |scene|);
      assert scene[..|scene|] == scene;
    }
    forall i, j | 0 <= i < |scene| && 0 <= j < |scene| &&
      InRange(v, RangeOf(scene, floatsPerVertex, i)) && InRange(v, RangeOf(scene, floatsPerVertex, j))
      ensures i == j
    {
      if i < j {
        TotalCountMonotone(scene, floatsPerVertex, i + 1, j);
      } else if j < i {
        TotalCountMonotone(scene, floatsPerVertex, j + 1, i);
      }
    }
  }

  /** The same partition, stated over the list of ranges in declaration order. */
  lemma LaidOutRangesPartition(scene: seq<SceneMaterial>, floatsPerVertex: nat, v: nat)
    requires floatsPerVertex > 0
    ensures var rs := LaidOutRanges(scene, floatsPerVertex);
      (v < TotalCount(scene, floatsPerVertex) <==> exists i :: 0 <= i < |rs| && InRange(v, rs[i])) &&
      forall i, j :: (0 <= i < |rs| && 0 <= j < |rs| && InRange(v, rs[i]) && InRange(v, rs[j])) ==> i == j
  {
    var rs := LaidOutRanges(scene, floatsPerVertex);
    RangesPartition(scene, floatsPerVertex, v);
    if v < TotalCount(scene, floatsPerVertex) {
      var i :| 0 <= i < |scene| && InRange(v, RangeOf(scene, floatsPerVertex, i));
      assert InRange(v, rs[i]);
    }
  }

  /** Every material holds whole vertices: no floats are left over by the division. */
  predicate WholeVertices(scene: seq<SceneMaterial>, floatsPerVertex: nat)
    requires floatsPerVertex > 0
  {
    forall i :: 0 <= i < |scene| ==> |scene[i].vertices| % floatsPerVertex == 0
  }

  lemma WholeCount(m: SceneMaterial, floatsPerVertex: nat)
    requires floatsPerVertex > 0 && |m.vertices| % floatsPerVertex == 0
    ensures VertexCount(m, floatsPerVertex) * floatsPerVertex == |m.vertices|
  {
  }

  lemma Distribute(a: nat, b: nat, c: nat)
    ensures (a + b) * c == a * c + b * c
  {
  }

  /** The buffer of a list is the buffer of any prefix followed by that of the rest. */
  lemma {:induction false} FlattenSplit(scene: seq<SceneMaterial>, i: nat)
    requires i <= |scene|
    ensures Flatten(scene) == Flatten(scene[..i]) + Flatten(scene[i..])
    decreases |scene|
  {
    if i == |scene| {
      assert scene[..i] == scene && scene[i..] == [];
    } else {
      var n := |scene|;
      var init := scene[..n - 1];
      FlattenSplit(init, i);
      assert init[..i] == scene[..i];
      assert scene[i..][..n - i - 1] == init[i..];
      assert scene[i..][n - i - 1] == scene[n - 1];
    }
  }

  /** With whole vertices, the buffer holds exactly `floats_per_vertex` floats per counted vertex. */
  lemma {:induction false} FlattenLength(scene: seq<SceneMaterial>, floatsPerVertex: nat)
    requires floatsPerVertex > 0 && WholeVertices(scene, floatsPerVertex)
    ensures |Flatten(scene)| == TotalCount(scene, floatsPerVertex) * floatsPerVertex
    decreases |scene|
  {
    if scene != [] {
      var n := |scene|;
      var init := scene[..n - 1];
      assert WholeVertices(init, floatsPerVertex) by {
        forall j | 0 <= j < |init| ensures |init[j].vertices| % floatsPerVertex == 0 {
          assert init[j] == scene[j];
        }
      }
      FlattenLength(init, floatsPerVertex);
      WholeCount(scene[n - 1], floatsPerVertex);
      Distribute(TotalCount(init, floatsPerVertex), VertexCount(scene[n - 1], floatsPerVertex), floatsPerVertex);
    }
  }

  /** With whole vertices, the buffer has no floats beyond the last range, and each
      material's range selects exactly that material's own floats in the shared buffer. */
  lemma RangesAlign(scene: seq<SceneMaterial>, floatsPerVertex: nat, i: nat)
    requires floatsPerVertex > 0 && WholeVertices(scene, floatsPerVertex) && i < |scene|
    ensures |Flatten(scene)| == TotalCount(scene, floatsPerVertex) * floatsPerVertex
    ensures var r := RangeOf(scene, floatsPerVertex, i);
      (r.start + r.count) * floatsPerVertex == r.start * floatsPerVertex + |scene[i].vertices| &&
      (r.start + r.count) * floatsPerVertex <= |Flatten(scene)| &&
      Flatten(scene)[r.start * floatsPerVertex .. (r.start + r.count) * floatsPerVertex] == scene[i].vertices
  {
    FlattenLength(scene, floatsPerVertex);
    var r := RangeOf(scene, floatsPerVertex, i);
    var a, b := FlattenAround(scene, i);
    FlattenBefore(scene, floatsPerVertex, i);
    WholeCount(scene[i], floatsPerVertex);
    Distribute(r.start, r.count, floatsPerVertex);
    SliceOfConcat(a, scene[i].vertices, b);
  }

  /** The shared buffer is the buffer of the materials before `i`, then material `i`'s
      floats, then the rest. */
  lemma FlattenAround(scene: seq<SceneMaterial>, i: nat) returns (a: seq<real>, b: seq<real>)
    requires i < |scene|
    ensures a == Flatten(scene[..i])
    ensures Flatten(scene) == a + scene[i].vertices + b
  {
    a := Flatten(scene[..i]);
    FlattenSplit(scene, i);
    var rest := scene[i..];
    FlattenSplit(rest, 1);
    assert rest[..1] == [scene[i]] && [scene[i]][..0] == [];
    b := Flatten(rest[1..]);
  }

  /** With whole vertices, the materials before `i` fill the buffer up to where range `i` starts. */
  lemma FlattenBefore(scene: seq<SceneMaterial>, floatsPerVertex: nat, i: nat)
    requires floatsPerVertex > 0 && WholeVertices(scene, floatsPerVertex) && i < |scene|
    ensures |Flatten(scene[..i])| == RangeOf(scene, floatsPerVertex, i).start * floatsPerVertex
  {
    var before := scene[..i];
    assert WholeVertices(before, floatsPerVertex) by {
      forall j | 0 <= j < |before| ensures |before[j].vertices| % floatsPerVertex == 0 {
        assert before[j] == scene[j];
      }
    }
    FlattenLength(before, floatsPerVertex);
  }

  lemma SliceOfConcat(a: seq<real>, m: seq<real>, b: seq<real>)
    ensures (a + m + b)[|a| .. |a| + |m|] == m
  {
  }
}
