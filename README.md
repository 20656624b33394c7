# Geometry-shader explosion: the mesh loader

This project models `ObjectLoader`, the part of the geometry-shader explosion demo that
turns a mesh into OpenGL state and draws it:

- **Vertex-format descriptors.** A string such as `"N3F_V3F"` is split on `_`. Each token
  yields an attribute: a one-character tag, a one-digit width in floats, and an offset
  equal to the widths of all earlier tokens summed. The floats per vertex is the sum of
  all widths. Tags V, N and T are wired to shader locations 0, 1 and 2, with a byte
  stride of four times the floats per vertex and a byte offset of four times the
  attribute's offset (module `VertexFormat`, with Python's `str.split` in `StrSplit`).
- **Material layout.** The mesh's materials are visited in declaration order. Each one
  gets the range `(start, count)` of whole vertices in one shared buffer, where the
  count is its float count divided (rounding down) by the floats per vertex and the
  start is the running total of earlier counts. Colours keep their first three
  components (module `MaterialLayout`).
- **Resource lifecycle.** The loader holds two optional GL handles, a vertex array and
  a buffer. `render` binds the vertex array, uploads each material's four uniforms and
  draws its range, then unbinds. `close` deletes whichever handles are still present
  and forgets both. Rendering after `close` raises (module `Loader`, class
  `ObjectLoader`).

The GL driver is replaced by `Gl.Context`, an explicit context object. It keeps a ghost
log of the calls the loader issues and the two bindings those calls change. Every
property about GL behaviour is stated over that log.

Two behaviours of the code are easy to miss:

- An unknown tag is not rejected while the descriptor is parsed. It raises a KeyError
  only while the attributes are wired in `_create_buffers`. By then both GL objects
  have been generated, the vertices uploaded and the earlier attributes wired. The
  vertex array stays bound, and the handles are never stored, so they leak
  (`Loader.BufferCalls`, `Loader.CreateBuffers`).
- A token shorter than two characters raises an IndexError, and a non-digit width
  raises a ValueError (`VertexFormat.FormatError`). The parser accepts a width of 0. If every
  width is 0 and there is at least one material, the division raises a
  ZeroDivisionError. A mesh with no materials raises a ValueError from the
  concatenation of an empty list (`Loader.LoadError`).

## Model

| member | source | states |
|---|---|---|
| `StrSplit.Split` | src/loader.py:52 | splitting on `_` never yields an empty list, as in Python |
| `StrSplit.JoinSplit` | src/loader.py:52 | the pieces contain no separator, and joining them with the separator gives the descriptor back |
| `StrSplit.SplitJoin` | src/loader.py:52 | splitting the join of separator-free pieces gives those pieces back |
| `VertexFormat.DigitValue` | src/loader.py:55 | a digit character reads as a width between 0 and 9 |
| `VertexFormat.ParseFormat` | src/loader.py:50-59 | one attribute per `_`-separated token, in token order: tag = first character, width = second character as a digit, offset = sum of earlier widths; otherwise the first unreadable token and whether it was too short (IndexError) or had a non-digit width (ValueError) |
| `VertexFormat.ParseTokens` | src/loader.py:51-58 | the token loop, with each offset recomputed by summing earlier widths, meets that same description |
| `VertexFormat.ParseIsDetermined` | src/loader.py:50-59 | the description admits exactly one result per descriptor, so it pins down what parsing returns or raises |
| `VertexFormat.OffsetsArePrefixSums` | src/loader.py:56 | the first offset is 0; each next offset is the previous one plus the previous width; each offset is the total width of the attributes before it; the floats per vertex is the last offset plus the last width |
| `VertexFormat.WidthsBeforeIsTotalWidth` | src/loader.py:11 | the token-width sum of line 56 equals the attribute-width sum of line 11 on every prefix |
| `VertexFormat.TotalWidth` | src/loader.py:11 | the floats per vertex is at least every attribute's width, and it is 0 exactly when every width is 0 |
| `VertexFormat.WidthsBefore` | src/loader.py:56 | only a bound: the widths of the first `i` tokens sum to at most 9 × `i`; `WidthsBeforeIsTotalWidth` ties this sum to the floats per vertex |
| `VertexFormat.AttributeLocation` | src/loader.py:95 | exactly the tags V, N and T have a location, and every location is below 3 |
| `VertexFormat.AttributeLocationsDistinct` | src/loader.py:95 | tags with a location get 0, 1 or 2, and different tags never share a location |
| `VertexFormat.FirstUnknownTag` | src/loader.py:95-99 | every attribute before the returned position has a known tag, and the attribute at that position, if any, has no location |
| `VertexFormat.FirstUnknownTagAt` | src/loader.py:95-99 | an unknown tag preceded only by known tags is where the lookup raises |
| `VertexFormat.AttributeCallsAt` | src/loader.py:93-106 | attribute `i` is wired by calls `2i` and `2i+1`: its location and width, a stride of 4 × floats per vertex, a byte offset of 4 × its offset, then the location is enabled |
| `VertexFormat.ConfiguredFormat` | src/config.py:13 | `"N3F_V3F"` parses to `('N',3,0), ('V',3,3)`, six floats per vertex, a 24-byte stride |
| `VertexFormat.TexturedFormat` | src/loader.py:50-59 | `"T2F_N3F_V3F"` parses to offsets 0, 2 and 5, eight floats per vertex |
| `VertexFormat.ConfiguredWiring` | src/loader.py:93-106 | the configured format wires the normal at location 1 (byte offset 0) and the position at location 0 (byte offset 12), both with a 24-byte stride |
| `MaterialLayout.VertexCount` | src/loader.py:69 | the count is the number of whole vertices in the material: that many vertices' floats fit, and fewer than one vertex's floats are left over |
| `MaterialLayout.RangeOf` | src/loader.py:78 | a material's range ends where the counts of it and all earlier materials end |
| `MaterialLayout.Flatten` | src/loader.py:84 | no materials give an empty buffer and a single material gives its own floats; `FlattenSplit` and `FlattenLength` state the rest |
| `MaterialLayout.Rgb` | src/loader.py:74-76 | a colour keeps its first three components and drops the last |
| `MaterialLayout.LayoutMaterials` | src/loader.py:61-82 | the material loop raises exactly when the floats per vertex is 0 and there is a material; otherwise it gives one record per material, in order, with the material's name, RGB colours, shininess and range, and the shared buffer is all the materials' floats in order |
| `MaterialLayout.RangesContiguous` | src/loader.py:64-82 | the first range starts at 0, each next range starts where the previous one ends, and the last one ends at the total vertex count |
| `MaterialLayout.RangesPartition` | src/loader.py:64-82 | a vertex index lies in some material's range exactly when it is below the total count, and never in two ranges |
| `MaterialLayout.LaidOutRangesPartition` | src/loader.py:64-82 | the list of ranges in declaration order partitions `[0, total)`: an index is in some range exactly when it is below the total, and never in two |
| `MaterialLayout.RangesCover` | src/loader.py:64-82 | every vertex index below the total lies in some material's range |
| `MaterialLayout.TotalCountMonotone` | src/loader.py:82 | the running offset never decreases as materials are added |
| `MaterialLayout.FlattenSplit` | src/loader.py:68 | the shared buffer is the buffer of the first materials followed by the buffer of the rest |
| `MaterialLayout.FlattenLength` | src/loader.py:84 | when every material holds whole vertices, the shared buffer holds exactly floats-per-vertex floats per counted vertex |
| `MaterialLayout.RangesAlign` | src/loader.py:67-84 | when every material holds whole vertices, each material's range selects exactly that material's own floats in the shared buffer |
| `Loader.BuffersError` | src/loader.py:69-99 | buffer creation raises nothing exactly when there is a material, the floats per vertex is positive and every tag is known; an unknown-tag error names the first tag without a location, reached after the GL calls began |
| `Loader.DeleteCalls` | src/loader.py:26-30 | one deletion per present handle and no other: the buffer first when present, the vertex array last when present |
| `Loader.UploadVertices` | src/loader.py:86-91 | both objects are generated and bound, and all vertex floats are uploaded at four bytes each |
| `Loader.WireAttributes` | src/loader.py:95-106 | one pointer and one enable per attribute, up to the first unknown tag, where it fails with that tag; the bindings are unchanged |
| `Loader.BuildVertexArray` | src/loader.py:84-110 | the GL part of buffer creation issues the setup calls and the attribute calls; the vertex array is unbound only when every tag is known, and the buffer stays bound |
| `Loader.CreateBuffers` | src/loader.py:61-110 | buffer creation fails exactly in the order the code raises (ZeroDivisionError, then the empty concatenation, then the unknown tag), and on success returns the given handles with the materials laid out |
| `Loader.ObjectLoader.constructor` | src/loader.py:8-12 | given a format whose widths sum to the floats per vertex, buffers that were created without error and materials laid out from the scene, the loader stores them with both handles and satisfies its invariant |
| `Loader.ObjectLoader.Create` | src/loader.py:8-12 | construction parses the descriptor and builds the buffers, raising whatever either raises; a failure before the GL calls leaves both bindings unchanged, and an unknown tag leaves the vertex array and the buffer bound; a new loader holds both handles, its materials are laid out, and no vertex array is left bound |
| `Loader.ObjectLoader.Render` | src/loader.py:14-23 | with either handle gone it raises and issues nothing; otherwise it binds the vertex array, issues each material's uniforms and draw in order, and leaves no vertex array bound; for a loader built by construction, the frame's draws are exactly the laid-out material ranges, in order |
| `Loader.ObjectLoader.UploadUniforms` | src/loader.py:112-121 | a material's ambient, diffuse, specular and shininess go to the four fixed `material.*` uniform names |
| `Loader.ObjectLoader.Close` | src/loader.py:25-33 | only the handles that are present are deleted, buffer first; afterwards both handles are absent |
| `Loader.RenderDrawsEachMaterialOnce` | src/loader.py:19-22 | the render loop draws each material exactly once, in material order, over its own range |
| `Loader.RenderCallsAt` | src/loader.py:19-22 | the loop issues five calls per material: its four uniforms right before its draw, and nothing else |
| `Loader.DrawsAreLaidOutRanges` | src/loader.py:19-22 | under the layout, draw `i` of a frame is material `i`'s range |
| `Loader.FrameDrawsAreLaidOutRanges` | src/loader.py:18-23 | a whole frame, from the bind to the unbind, draws the laid-out ranges and nothing else, in material order |
| `Loader.FrameLogDrawsLaidOutRanges` | src/loader.py:18-23 | the calls one frame appends to the log draw the laid-out ranges |
| `Loader.RenderCoversEachVertexOnce` | src/loader.py:14-23 | each vertex index below the sum of the material counts lies in exactly one drawn range; when every material holds whole vertices, that sum times the floats per vertex is the length of the shared buffer, so the draws cover the whole buffer |
| `Loader.CloseTwiceThenRender` | src/loader.py:14-33 | a second `close` deletes nothing, and `render` after `close` raises |

## Left out

- Loading the OBJ file through pywavefront (`_load_obj`) is not modelled. The loaded
  scene is a parameter: a sequence of materials in dictionary order, each with a name,
  its vertex floats, RGBA colours and shininess.
- Vertex floats, colour components and shininess are real numbers. The source stores
  vertices as 32-bit floats through numpy, colours as 32-bit floats through `glm.vec3`,
  and uploads shininess with `glUniform1f`. Those conversions are not modelled; only the
  vertex float count and its four-byte size matter here.
- The object names that `glGenVertexArrays` and `glGenBuffers` return are parameters of
  `Create`. The driver's own name bookkeeping is not modelled.
- Each `glGetUniformLocation` lookup is folded into the uniform call, which carries the
  program and the uniform name instead of a location.
- `Loader.CreateBuffers`: GL errors are not modelled; every GL call is taken to succeed.
  PyOpenGL checks errors after each call, so an attribute width of 0 or above 4 makes
  `glVertexAttribPointer` raise a GLError in the source, while the model wires it and
  returns a loader. The same holds for `Loader.ObjectLoader.Create`, which builds on it.
- `VertexFormat.DigitValue`: only ASCII digits are read as widths. Python's `int` also
  accepts other Unicode decimal digits and surrounding whitespace, which a one-character
  string cannot hold.
- `MaterialLayout.LayoutMaterials`, `Loader.CreateBuffers` and `Loader.ObjectLoader.Create`
  require every colour to have four components, as the OBJ loader always supplies. The
  error `glm.vec3` would raise for another length is not modelled.
- `MaterialLayout.RangesAlign` holds only when every material's float count is a
  multiple of the floats per vertex. Otherwise the rounded-down count leaves floats in
  the buffer that no range covers, and later materials' ranges no longer line up with
  their floats.
- The camera (`src/camera.py`), shader compilation (`src/shaders.py`), window glue
  (`src/window.py`), file lookup (`src/util.py`) and configuration constants
  (`src/config.py`, apart from the `"N3F_V3F"` descriptor) are not part of this model.
  They are floating-point trigonometry, thin wrappers over OpenGL and windowing
  libraries, or file I/O.
