/** `ObjectLoader`: builds one vertex array and buffer for a mesh, draws it one
    material at a time, and releases the GL objects on `close`. */
module Loader {
  import opened Wrappers
  import opened Gl
  import opened VertexFormat
  import opened MaterialLayout

  /** What the loader's constructor raises. */
  datatype LoadError =
    | BadFormat(cause: FormatError)        // IndexError or ValueError from `_parse_format`
    | ZeroFloatsPerVertex                  // ZeroDivisionError: `len(vertices) // 0`
    | NoMaterials                          // ValueError: `np.concatenate([])`
    | UnknownTag(index: nat, tag: char)    // KeyError: `matches[name]`

  /** The RuntimeError `render` raises once the GL objects are gone. */
  datatype RenderError = ObjectDeleted

  /** What `_create_buffers` returns. */
  datatype Buffers = Buffers(vao: nat, vbo: nat, materials: seq<Material>)

  /** Which exception `_create_buffers` raises for a scene and a parsed format, in the
      order the code reaches them, or `None` when it returns. */
  function BuffersError(scene: seq<SceneMaterial>, format: seq<Attribute>): (e: Option<LoadError>)
    ensures e == None <==> |scene| > 0 && TotalWidth(format) > 0 && KnownTags(format)
    ensures e.Some? && e.value.UnknownTag? ==>
      ReachesGl(scene, format) && e.value.index < |format| &&
      KnownTags(format[..e.value.index]) && AttributeLocation(format[e.value.index].tag).None?
  {
    if |scene| > 0 && TotalWidth(format) == 0 then Some(ZeroFloatsPerVertex)
    else if scene == [] then Some(NoMaterials)
    else
      var k := FirstUnknownTag(format);
      if k < |format| then Some(UnknownTag(k, format[k].tag)) else None
  }

  /** Whether `_create_buffers` gets as far as the GL calls. */
  predicate ReachesGl(scene: seq<SceneMaterial>, format: seq<Attribute>) {
    |scene| > 0 && TotalWidth(format) > 0
  }

  /** The GL calls `_create_buffers` issues before it returns or raises: the two
      objects are generated and bound, all vertex floats are uploaded, the attributes are wired up to the first unknown tag, and the vertex
      array is unbound only if every tag was known. */
  function BufferCalls(scene: seq<SceneMaterial>, format: seq<Attribute>, vaoName: nat, vboName: nat): seq<Call> {
    if !ReachesGl(scene, format) then []
    else
      var k := FirstUnknownTag(format);
      SetupCalls(vaoName, vboName, Flatten(scene)) +
      AttributeCalls(format[..k], TotalWidth(format)) +
      (if k == |format| then [BindVertexArray(0)] else [])
  }

  /** Generating and binding the two objects and uploading the vertex floats, four bytes each. */
  function SetupCalls(vaoName: nat, vboName: nat, data: seq<real>): seq<Call> {
    [GenVertexArrays(vaoName), GenBuffers(vboName), BindVertexArray(vaoName),
     BindArrayBuffer(vboName), BufferData(4 * |data|, data)]
  }

  method UploadVertices(ctx: Context, vaoName: nat, vboName: nat, vertices: seq<real>)
    modifies ctx
    ensures ctx.calls == old(ctx.calls) + SetupCalls(vaoName, vboName, vertices)
    ensures ctx.vertexArrayBinding == vaoName && ctx.arrayBufferBinding == vboName
  {
    ctx.Issue(GenVertexArrays(vaoName));
    ctx.Issue(GenBuffers(vboName));
    ctx.Issue(BindVertexArray(vaoName));
    ctx.Issue(BindArrayBuffer(vboName));
    ctx.Issue(BufferData(4 * |vertices|, vertices));
  }

  method CreateBuffers(ctx: Context, scene: seq<SceneMaterial>, format: seq<Attribute>,
                       floatsPerVertex: nat, vaoName: nat, vboName: nat)
    returns (r: Result<Buffers, LoadError>)
    requires RgbaScene(scene) && floatsPerVertex == TotalWidth(format)
    modifies ctx
    ensures ctx.calls == old(ctx.calls) + BufferCalls(scene, format, vaoName, vboName)
    ensures r.Failure? <==> BuffersError(scene, format).Some?
    ensures r.Failure? ==> BuffersError(scene, format) == Some(r.error)
    ensures r.Success? ==>
      floatsPerVertex > 0 && r.value.vao == vaoName && r.value.vbo == vboName &&
      LaidOut(r.value.materials, scene, floatsPerVertex)
    ensures ReachesGl(scene, format) ==>
      ctx.arrayBufferBinding == vboName &&
      ctx.vertexArrayBinding == (if r.Success? then 0 else vaoName)
    ensures !ReachesGl(scene, format) ==>
      ctx.arrayBufferBinding == old(ctx.arrayBufferBinding) &&
      ctx.vertexArrayBinding == old(ctx.vertexArrayBinding)
  {
    var layout := LayoutMaterials(scene, floatsPerVertex);
    if layout.None? {
      assert BuffersError(scene, format) == Some(ZeroFloatsPerVertex);
      assert BufferCalls(scene, format, vaoName, vboName) == [];
      return Failure(ZeroFloatsPerVertex);
    }
    if |scene| == 0 {
      assert BuffersError(scene, format) == Some(NoMaterials);
      assert BufferCalls(scene, format, vaoName, vboName) == [];
      return Failure(NoMaterials);
    }
    var built := BuildVertexArray(ctx, scene, format, floatsPerVertex, vaoName, vboName, layout.value.vertices);
    if built.Fail? {
      return Failure(built.error);
    }
    return Success(Buffers(vaoName, vboName, layout.value.materials));
  }

  /** The GL part of `_create_buffers`: generate and bind both objects, upload the
      vertices, wire the attributes and unbind the vertex array; it fails at the
      first unknown tag, leaving the vertex array bound. */
  method BuildVertexArray(ctx: Context, scene: seq<SceneMaterial>, format: seq<Attribute>,
                          floatsPerVertex: nat, vaoName: nat, vboName: nat, vertices: seq<real>)
    returns (r: Outcome<LoadError>)
    requires ReachesGl(scene, format) && floatsPerVertex == TotalWidth(format)
    requires vertices == Flatten(scene)
    modifies ctx
    ensures ctx.calls == old(ctx.calls) + BufferCalls(scene, format, vaoName, vboName)
    ensures var k := FirstUnknownTag(format);
      (r.Fail? <==> k < |format|) &&
      (r.Fail? ==> r.error == UnknownTag(k, format[k].tag))
    ensures ctx.arrayBufferBinding == vboName
    ensures ctx.vertexArrayBinding == (if r.Pass? then 0 else vaoName)
  {
    ghost var before := ctx.calls;
    UploadVertices(ctx, vaoName, vboName, vertices);
    ghost var afterSetup := ctx.calls;
    r := WireAttributes(ctx, format, floatsPerVertex);
    ghost var afterWiring := ctx.calls;
    if r.Pass? {
      ctx.Issue(BindVertexArray(0));
    }
    BufferCallsLog(scene, format, vaoName, vboName, before, afterSetup, afterWiring, ctx.calls);
  }

  /** The log after the three GL stages of `_create_buffers` is the log before them
      followed by `BufferCalls`. */
  lemma BufferCallsLog(scene: seq<SceneMaterial>, format: seq<Attribute>, vaoName: nat, vboName: nat,
                       before: seq<Call>, afterSetup: seq<Call>, afterWiring: seq<Call>, after: seq<Call>)
    requires ReachesGl(scene, format)
    requires afterSetup == before + SetupCalls(vaoName, vboName, Flatten(scene))
    requires afterWiring == afterSetup + AttributeCalls(format[..FirstUnknownTag(format)], TotalWidth(format))
    requires after == afterWiring + (if FirstUnknownTag(format) == |format| then [BindVertexArray(0)] else [])
    ensures after == before + BufferCalls(scene, format, vaoName, vboName)
  {
    var k := FirstUnknownTag(format);
    var setup := SetupCalls(vaoName, vboName, Flatten(scene));
    var wiring := AttributeCalls(format[..k], TotalWidth(format));
    var tail: seq<Call> := if k == |format| then [BindVertexArray(0)] else [];
    assert BufferCalls(scene, format, vaoName, vboName) == setup + wiring + tail;
    ConcatAssoc(before, setup, wiring, tail);
  }

  lemma ConcatAssoc(a: seq<Call>, b: seq<Call>, c: seq<Call>, d: seq<Call>)
    ensures a + b + c + d == a + (b + c + d)
  {
  }

  /** The attribute loop of `_create_buffers`: one pointer and one enable per attribute,
      up to the first tag without a location, where `matches[name]` raises. */
  method WireAttributes(ctx: Context, format: seq<Attribute>, floatsPerVertex: nat) returns (r: Outcome<LoadError>)
    modifies ctx
    ensures var k := FirstUnknownTag(format);
      ctx.calls == old(ctx.calls) + AttributeCalls(format[..k], floatsPerVertex) &&
      (r.Fail? <==> k < |format|) &&
      (r.Fail? ==> r.error == UnknownTag(k, format[k].tag))
    ensures ctx.arrayBufferBinding == old(ctx.arrayBufferBinding)
    ensures ctx.vertexArrayBinding == old(ctx.vertexArrayBinding)
  {
    var stride := Stride(floatsPerVertex);
    for i := 0 to |format|
      invariant KnownTags(format[..i])
      invariant ctx.calls == old(ctx.calls) + AttributeCalls(format[..i], floatsPerVertex)
      invariant ctx.arrayBufferBinding == old(ctx.arrayBufferBinding)
      invariant ctx.vertexArrayBinding == old(ctx.vertexArrayBinding)
    {
      var location := AttributeLocation(format[i].tag);
      if location.None? {
        FirstUnknownTagAt(format, i);
        return Fail(UnknownTag(i, format[i].tag));
      }
      ctx.Issue(VertexAttribPointer(location.value, format[i].width, stride, 4 * format[i].offset));
      ctx.Issue(EnableVertexAttribArray(location.value));
      assert format[..i + 1][..i] == format[..i];
    }
    assert format[..|format|] == format;
    assert KnownTags(format);
    return Pass;
  }

  /** The four uniform uploads of `_upload_uniforms`, under the shader's fixed names. */
  function MaterialUniformCalls(program: nat, m: Material): seq<Call> {
    [Uniform3fv(program, "material.ambient", m.ambient),
     Uniform3fv(program, "material.diffuse", m.diffuse),
     Uniform3fv(program, "material.specular", m.specular),
     Uniform1f(program, "material.shininess", m.shininess)]
  }

  function DrawCall(m: Material): Call {
    DrawTriangles(m.vboRange.start, m.vboRange.count)
  }

  /** The calls of `render`'s loop over `ms`: each material's uniforms, then its draw. */
  function RenderCalls(program: nat, ms: seq<Material>): seq<Call> {
    if ms == [] then []
    else
      var m := ms[|ms| - 1];
      RenderCalls(program, ms[..|ms| - 1]) + MaterialUniformCalls(program, m) + [DrawCall(m)]
  }

  /** The ranges drawn by a sequence of calls, in call order. */
  function Draws(calls: seq<Call>): seq<VertexRange> {
    if calls == [] then []
    else
      Draws(calls[..|calls| - 1]) +
      match calls[|calls| - 1]
      case DrawTriangles(first, count) => [VertexRange(first, count)]
      case _ => []
  }

  /** The ranges of a material list, in order. */
  function Ranges(ms: seq<Material>): seq<VertexRange> {
    seq(|ms|, i requires 0 <= i < |ms| => ms[i].vboRange)
  }

  lemma {:induction false} DrawsConcat(a: seq<Call>, b: seq<Call>)
    ensures Draws(a + b) == Draws(a) + Draws(b)
    decreases |b|
  {
    if b == [] {
      assert a + b == a;
    } else {
      var n := |b|;
      DrawsConcat(a, b[..n - 1]);
      assert (a + b)[..|a + b| - 1] == a + b[..n - 1];
    }
  }

  lemma {:induction false} DrawsWithoutDrawCall(calls: seq<Call>)
    requires forall i :: 0 <= i < |calls| ==> !calls[i].DrawTriangles?
    ensures Draws(calls) == []
    decreases |calls|
  {
    if calls != [] {
      DrawsWithoutDrawCall(calls[..|calls| - 1]);
    }
  }

  /** `render`'s loop draws each material exactly once, in material order, over the
      material's own range. */
  lemma {:induction false} RenderDrawsEachMaterialOnce(program: nat, ms: seq<Material>)
    ensures Draws(RenderCalls(program, ms)) == Ranges(ms)
    decreases |ms|
  {
    if ms != [] {
      var n := |ms|;
      var m := ms[n - 1];
      RenderDrawsEachMaterialOnce(program, ms[..n - 1]);
      var front := RenderCalls(program, ms[..n - 1]) + MaterialUniformCalls(program, m);
      DrawsConcat(front, [DrawCall(m)]);
      DrawsConcat(RenderCalls(program, ms[..n - 1]), MaterialUniformCalls(program, m));
      DrawsWithoutDrawCall(MaterialUniformCalls(program, m));
      assert Draws([DrawCall(m)]) == [m.vboRange] by {
        assert [DrawCall(m)][..0] == [];
      }
      assert Ranges(ms) == Ranges(ms[..n - 1]) + [m.vboRange];
    }
  }

  /** Material `i`'s uniforms are the four calls right before its draw, and the loop
      issues nothing else: five calls per material. */
  lemma {:induction false} RenderCallsAt(program: nat, ms: seq<Material>, i: nat)
    requires i < |ms|
    ensures |RenderCalls(program, ms)| == 5 * |ms|
    ensures RenderCalls(program, ms)[5 * i .. 5 * i + 5] == MaterialUniformCalls(program, ms[i]) + [DrawCall(ms[i])]
    decreases |ms|
  {
    var n := |ms|;
    var init := ms[..n - 1];
    var front := RenderCalls(program, init);
    var last := MaterialUniformCalls(program, ms[n - 1]) + [DrawCall(ms[n - 1])];
    assert RenderCalls(program, ms) == front + last;
    if n > 1 {
      RenderCallsAt(program, init, if i < n - 1 then i else 0);
    }
    assert |front| == 5 * (n - 1);
    if i < n - 1 {
      assert init[i] == ms[i];
      assert (front + last)[5 * i .. 5 * i + 5] == front[5 * i .. 5 * i + 5];
    } else {
      assert (front + last)[5 * i .. 5 * i + 5] == last;
    }
  }

  /** Under the layout, draw `i` of a frame is material `i`'s range. */
  lemma DrawsAreLaidOutRanges(program: nat, scene: seq<SceneMaterial>, floatsPerVertex: nat, ms: seq<Material>)
    requires floatsPerVertex > 0 && RgbaScene(scene) && LaidOut(ms, scene, floatsPerVertex)
    ensures Draws(RenderCalls(program, ms)) == LaidOutRanges(scene, floatsPerVertex)
  {
    RenderDrawsEachMaterialOnce(program, ms);
    forall i | 0 <= i < |scene| ensures Ranges(ms)[i] == LaidOutRanges(scene, floatsPerVertex)[i] {
      assert ms[i] == ToMaterial(scene[i], RangeOf(scene, floatsPerVertex, i));
    }
  }

  /** A whole frame, from binding the vertex array to unbinding it, draws the laid-out
      ranges and nothing else, in material order. */
  lemma FrameDrawsAreLaidOutRanges(vao: nat, program: nat, scene: seq<SceneMaterial>, floatsPerVertex: nat,
                                   ms: seq<Material>)
    requires floatsPerVertex > 0 && RgbaScene(scene) && LaidOut(ms, scene, floatsPerVertex)
    ensures Draws([BindVertexArray(vao)] + RenderCalls(program, ms) + [BindVertexArray(0)]) ==
      LaidOutRanges(scene, floatsPerVertex)
  {
    var body := RenderCalls(program, ms);
    DrawsConcat([BindVertexArray(vao)] + body, [BindVertexArray(0)]);
    DrawsConcat([BindVertexArray(vao)], body);
    DrawsWithoutDrawCall([BindVertexArray(vao)]);
    DrawsWithoutDrawCall([BindVertexArray(0)]);
    DrawsAreLaidOutRanges(program, scene, floatsPerVertex, ms);
  }

  /** The calls a frame appends to the log draw the laid-out ranges. */
  lemma FrameLogDrawsLaidOutRanges(before: seq<Call>, after: seq<Call>, vao: nat, program: nat,
                                   scene: seq<SceneMaterial>, floatsPerVertex: nat, ms: seq<Material>)
    requires floatsPerVertex > 0 && RgbaScene(scene) && LaidOut(ms, scene, floatsPerVertex)
    requires after == before + [BindVertexArray(vao)] + RenderCalls(program, ms) + [BindVertexArray(0)]
    ensures Draws(after[|before|..]) == LaidOutRanges(scene, floatsPerVertex)
  {
    assert after[|before|..] == [BindVertexArray(vao)] + RenderCalls(program, ms) + [BindVertexArray(0)];
    FrameDrawsAreLaidOutRanges(vao, program, scene, floatsPerVertex, ms);
  }

  /** A frame's draws, taken together, cover each vertex index below the sum of the
      material counts exactly once: it lies in one drawn range and no other. Only when
      every material holds whole vertices is that sum the whole shared buffer. */
  lemma RenderCoversEachVertexOnce(program: nat, scene: seq<SceneMaterial>, floatsPerVertex: nat,
                                   ms: seq<Material>, v: nat)
    requires floatsPerVertex > 0 && RgbaScene(scene) && LaidOut(ms, scene, floatsPerVertex)
    ensures var draws := Draws(RenderCalls(program, ms));
      (v < TotalCount(scene, floatsPerVertex) <==> exists i :: 0 <= i < |draws| && InRange(v, draws[i])) &&
      forall i, j :: (0 <= i < |draws| && 0 <= j < |draws| && InRange(v, draws[i]) && InRange(v, draws[j])) ==> i == j
    ensures WholeVertices(scene, floatsPerVertex) ==>
      TotalCount(scene, floatsPerVertex) * floatsPerVertex == |Flatten(scene)|
  {
    if WholeVertices(scene, floatsPerVertex) {
      FlattenLength(scene, floatsPerVertex);
    }
    DrawsAreLaidOutRanges(program, scene, floatsPerVertex, ms);
    LaidOutRangesPartition(scene, floatsPerVertex, v);
  }

  /** The deletions `close` issues for the handles still present: buffer first, then vertex array. */
  function DeleteCalls(vao: Option<nat>, vbo: Option<nat>): (calls: seq<Call>)
    ensures vbo.Some? ==> |calls| > 0 && calls[0] == DeleteBuffers(vbo.value)
    ensures vao.Some? ==> |calls| > 0 && calls[|calls| - 1] == DeleteVertexArrays(vao.value)
    ensures forall i :: 0 <= i < |calls| ==>
      (calls[i].DeleteBuffers? && vbo == Some(calls[i].name)) ||
      (calls[i].DeleteVertexArrays? && vao == Some(calls[i].name))
    ensures |calls| == (if vbo.Some? then 1 else 0) + (if vao.Some? then 1 else 0)
  {
    (if vbo.Some? then [DeleteBuffers(vbo.value)] else []) +
    (if vao.Some? then [DeleteVertexArrays(vao.value)] else [])
  }

  class ObjectLoader {
    const scene: seq<SceneMaterial>
    const format: seq<Attribute>
    const floatsPerVertex: nat
    const materials: seq<Material>
    var vao: Option<nat>
    var vbo: Option<nat>

    /** What construction establishes and nothing afterwards changes: the format's
        widths sum to the floats per vertex, `_create_buffers` did not raise, and the
        materials are the scene's, laid out one range after another. */
    ghost predicate Valid() {
      RgbaScene(scene) && floatsPerVertex == TotalWidth(format) &&
      BuffersError(scene, format) == None && floatsPerVertex > 0 &&
      LaidOut(materials, scene, floatsPerVertex)
    }

    constructor (scene: seq<SceneMaterial>, format: seq<Attribute>, floatsPerVertex: nat, buffers: Buffers)
      requires RgbaScene(scene) && floatsPerVertex == TotalWidth(format)
      requires BuffersError(scene, format) == None && floatsPerVertex > 0
      requires LaidOut(buffers.materials, scene, floatsPerVertex)
      ensures Valid()
      ensures this.scene == scene && this.format == format && this.floatsPerVertex == floatsPerVertex
      ensures materials == buffers.materials && vao == Some(buffers.vao) && vbo == Some(buffers.vbo)
    {
      this.scene := scene;
      this.format := format;
      this.floatsPerVertex := floatsPerVertex;
      materials := buffers.materials;
      vao := Some(buffers.vao);
      vbo := Some(buffers.vbo);
    }

    /** `ObjectLoader(filepath, format)` for the already loaded `scene`. `vaoName` and
        `vboName` are the names `glGenVertexArrays` and `glGenBuffers` hand out;
        `parsed` is what `_parse_format` yields. */
    static method Create(ctx: Context, scene: seq<SceneMaterial>, format: string, vaoName: nat, vboName: nat)
      returns (r: Result<ObjectLoader, LoadError>, ghost parsed: Result<seq<Attribute>, FormatError>)
      requires RgbaScene(scene)
      modifies ctx
      ensures DescribesFormat(format, parsed)
      ensures parsed.Failure? ==>
        r == Failure(BadFormat(parsed.error)) && ctx.calls == old(ctx.calls) &&
        ctx.vertexArrayBinding == old(ctx.vertexArrayBinding) &&
        ctx.arrayBufferBinding == old(ctx.arrayBufferBinding)
      ensures parsed.Success? ==>
        ctx.calls == old(ctx.calls) + BufferCalls(scene, parsed.value, vaoName, vboName) &&
        (r.Failure? <==> BuffersError(scene, parsed.value).Some?) &&
        (r.Failure? ==> BuffersError(scene, parsed.value) == Some(r.error))
      ensures parsed.Success? && r.Failure? ==>
        if ReachesGl(scene, parsed.value) then
          ctx.vertexArrayBinding == vaoName && ctx.arrayBufferBinding == vboName
        else
          ctx.vertexArrayBinding == old(ctx.vertexArrayBinding) &&
          ctx.arrayBufferBinding == old(ctx.arrayBufferBinding)
      ensures r.Success? ==>
        parsed.Success? && fresh(r.value) && r.value.Valid() &&
        r.value.scene == scene && r.value.format == parsed.value &&
        r.value.vao == Some(vaoName) && r.value.vbo == Some(vboName) &&
        ctx.vertexArrayBinding == 0 && ctx.arrayBufferBinding == vboName
    {
      var format' := ParseFormat(format);
      parsed := format';
      if format'.Failure? {
        return Failure(BadFormat(format'.error)), parsed;
      }
      var attrs := format'.value;
      var fpv := TotalWidth(attrs);
      var buffers := CreateBuffers(ctx, scene, attrs, fpv, vaoName, vboName);
      if buffers.Failure? {
        return Failure(buffers.error), parsed;
      }
      var loader := new ObjectLoader(scene, attrs, fpv, buffers.value);
      return Success(loader), parsed;
    }

    /** Draws the mesh with `program`: binds the vertex array, uploads each material's
        uniforms and draws its range, then leaves no vertex array bound. Once either
        handle is gone it raises before issuing any call. */
    method Render(ctx: Context, program: nat) returns (r: Outcome<RenderError>)
      modifies ctx
      ensures vao.None? || vbo.None? ==>
        r == Fail(ObjectDeleted) && ctx.calls == old(ctx.calls) &&
        ctx.vertexArrayBinding == old(ctx.vertexArrayBinding)
      ensures vao.Some? && vbo.Some? ==>
        r == Pass &&
        ctx.calls == old(ctx.calls) + [BindVertexArray(vao.value)] + RenderCalls(program, materials) + [BindVertexArray(0)] &&
        ctx.vertexArrayBinding == 0
      ensures Valid() && vao.Some? && vbo.Some? ==>
        Draws(ctx.calls[|old(ctx.calls)|..]) == LaidOutRanges(scene, floatsPerVertex)
      ensures ctx.arrayBufferBinding == old(ctx.arrayBufferBinding)
    {
      if vao.None? || vbo.None? {
        return Fail(ObjectDeleted);
      }
      ctx.Issue(BindVertexArray(vao.value));
      for i := 0 to |materials|
        invariant ctx.calls == old(ctx.calls) + [BindVertexArray(vao.value)] + RenderCalls(program, materials[..i])
        invariant ctx.arrayBufferBinding == old(ctx.arrayBufferBinding)
      {
        var material := materials[i];
        UploadUniforms(ctx, program, material);
        ctx.Issue(DrawTriangles(material.vboRange.start, material.vboRange.count));
        assert materials[..i + 1][..i] == materials[..i];
      }
      assert materials[..|materials|] == materials;
      ctx.Issue(BindVertexArray(0));
      if Valid() {
        FrameLogDrawsLaidOutRanges(old(ctx.calls), ctx.calls, vao.value, program, scene, floatsPerVertex, materials);
      }
      return Pass;
    }

    method UploadUniforms(ctx: Context, program: nat, material: Material)
      modifies ctx
      ensures ctx.calls == old(ctx.calls) + MaterialUniformCalls(program, material)
      ensures ctx.vertexArrayBinding == old(ctx.vertexArrayBinding)
      ensures ctx.arrayBufferBinding == old(ctx.arrayBufferBinding)
    {
      ctx.Issue(Uniform3fv(program, "material.ambient", material.ambient));
      ctx.Issue(Uniform3fv(program, "material.diffuse", material.diffuse));
      ctx.Issue(Uniform3fv(program, "material.specular", material.specular));
      ctx.Issue(Uniform1f(program, "material.shininess", material.shininess));
    }

    /** Deletes each GL object that is still present, then forgets both handles. */
    method Close(ctx: Context)
      modifies this, ctx
      ensures vao == None && vbo == None
      ensures ctx.calls == old(ctx.calls) + DeleteCalls(old(vao), old(vbo))
      ensures ctx.arrayBufferBinding ==
        if old(vbo).Some? && old(ctx.arrayBufferBinding) == old(vbo).value then 0 else old(ctx.arrayBufferBinding)
      ensures ctx.vertexArrayBinding ==
        if old(vao).Some? && old(ctx.vertexArrayBinding) == old(vao).value then 0 else old(ctx.vertexArrayBinding)
    {
      if vbo.Some? {
        ctx.Issue(DeleteBuffers(vbo.value));
      }
      if vao.Some? {
        ctx.Issue(DeleteVertexArrays(vao.value));
      }
      vao := None;
      vbo := None;
    }
  }

  /** Closing twice deletes each GL object once and the second call deletes nothing;
      rendering afterwards raises and issues no call. */
  method CloseTwiceThenRender(loader: ObjectLoader, ctx: Context, program: nat) returns (r: Outcome<RenderError>)
    modifies loader, ctx
    ensures loader.vao == None && loader.vbo == None
    ensures ctx.calls == old(ctx.calls) + DeleteCalls(old(loader.vao), old(loader.vbo))
    ensures r == Fail(ObjectDeleted)
  {
    loader.Close(ctx);
    ghost var afterFirst := ctx.calls;
    loader.Close(ctx);
    assert ctx.calls == afterFirst;
    r := loader.Render(ctx, program);
  }
}
