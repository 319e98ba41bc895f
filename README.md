# Mesh loader and frame driver of a minimal software rasterizer

This project models, in Dafny, the core of a small software renderer written in
C: the mesh loader of `art/model.c` and the per-frame staging loop of `main.c`.

**Loader (`load_mesh`).** The loader reads a triangle-only subset of the Wavefront OBJ
text format line by line. Each line is sorted by its first two characters. The
tags are tried in the order `v `, `vt`, `vn`, `f `, tangent extension:
- a `v `, `vt` or `vn` line appends one position, texture coordinate or normal;
- an `f ` line appends its three `p/t/n` corners, each index decremented to
  0-based, to three parallel index arrays;
- the tangent extension appends one tangent;
- any other line is ignored.

The extension tag is `# ext.tangent `, but only its first two characters are
compared. So *every* line starting with `# ` is taken as a tangent.
`Loader.Classify` states this in its contract.

A number that does not convert does not stop the load: the scanner's item
count is never checked, so the field keeps whatever the uninitialised local
held. The model follows the code here.

**Indexer (`build_mesh`).** The indexer turns the parsed arrays into a
"triangle soup": one fresh vertex record per face corner, with no sharing
between triangles. At each corner it first asserts that the position, texcoord
and normal indices are in range, then copies the referenced entries. The
tangent is taken at the corner's *position* index when the file had any tangent
line; otherwise it is (1, 0, 0, 1). The same pass keeps a running bounding box,
seeded with ±1 000 000, and the mesh centre is the box's midpoint. The face
count is the corner count divided by three, truncated. The loader, its only
caller, never hands it a corner count that is not a multiple of three, since
every `f ` line pushes exactly three corners (`Loader.Parsed`).

**Frame driver (`main`).** The framebuffer holds 800 × 600 pixels, with one
colour entry and one depth entry per pixel. Each frame does three things in order:
1. It clears both buffers, writing every pixel.
2. For each triangle, it copies vertices 3i, 3i+1 and 3i+2 into the shading
   program's three attribute slots and asks the rasterizer to draw.
3. It polls input once.

Modelling choices:
- Coordinates are exact reals.
- The input file is the sequence of lines the reader yields. Each line carries
  its text, on which the record kind is decided, and the numbers the scanner
  would extract (`Loader.Scan`).
- A failed bounds assertion, which ends the process when assertions are
  enabled (no `NDEBUG`), is the result `Aborted(corner, check)`. It names
  the first failing corner and which of its three assertions failed.
- The tangent read has no assertion, and an out-of-range read is undefined. It
  is therefore a precondition (`Model.TangentReadsDefined`).
- The tangent array is a null pointer until its first push. It is modelled as
  the empty sequence.
- The rasterizer, window and input system are a `Host` object. It logs each
  draw, with a snapshot of the three slots and the framebuffer's clear count,
  and each input poll.

Files:
- `vectors.dfy`: the vector types and component-wise min/max/add/divide.
- `model.dfy`: `vertex_t`, `mesh_t`, the indexer and the bounding-box lemmas.
- `loader.dfy`: line classification, the parse loop, the reference accumulators
  over the file, the end-to-end load contract, and a worked single-triangle file.
- `frame.dfy`: the framebuffer, the clear loop, the slot-copy loop, the frame
  and the render loop.

## Model

| member | source | states |
|---|---|---|
| `Model.BuildMesh` | art/model.c:9-66 | If any corner fails a bounds assertion, the result is `Aborted` at the first such corner, naming the first failing check (position, then texcoord, then normal). Otherwise the result has `faceNum = |position indices| / 3` (truncated; `3·faceNum ≤ |vertices| < 3·faceNum + 3`), vertex buffer exactly `Soup(d)`, and centre `Center(Soup(d))`, the midpoint of the running box. Proved with loop invariants over the filled prefix of the array. |
| `Model.Soup` | art/model.c:33-54 | There is one record per position index. Record i's position, texcoord and normal come from corner i's three indices. Its tangent is `tangents[positionIndices[i]]` when tangents exist, and exactly (1,0,0,1) otherwise. |
| `Model.Center` | art/model.c:25-63 | With no vertices the ±1e6 sentinels cancel, so the centre is the origin. |
| `Model.BoxContains` | art/model.c:56-57 | The bounding box contains every assembled position, component-wise. |
| `Model.BoxWithinSeeds` | art/model.c:25-26 | The box never goes past its sentinels: the minimum is ≤ 1e6 and the maximum is ≥ -1e6 on each axis, so coordinates beyond them are clamped. |
| `Model.BoxAttained` | art/model.c:25-57 | The box is tight. On each axis its minimum (maximum) is either the sentinel or the coordinate of some assembled position. |
| `Model.BoxOfSamePositions` | art/model.c:56-57 | The box depends only on the vertex positions, taken in order. |
| `Model.CenterIgnoresUnreferencedPositions` | art/model.c:43-63 | Two inputs with the same position indices that agree on every referenced position have the same centre. Unused positions and all other attributes do not affect it. |
| `Loader.Classify` | art/model.c:91-125 | Each kind holds iff its two-character prefix matches (`v `, `vt`, `vn`, `f `, `# `), so the first-match order never matters. Every line starting `# ` is a tangent line. |
| `Loader.ClassifyExact` | art/model.c:125 | The corrected tangent test: a line is a tangent exactly when it begins with the whole tag `# ext.tangent `. It differs from `Classify` only on lines `Classify` takes as tangents, which it ignores. |
| `Loader.IndicesOf` | art/model.c:118-123 | Each face contributes exactly three entries, so the index array has length 3 × the number of faces. |
| `Loader.Parsed` | art/model.c:68-136 | The three index arrays handed to the indexer always have equal length, a multiple of three (3 × the number of `f ` lines). |
| `Loader.IndicesOfAt` | art/model.c:118-123 | Corner j of the k-th face sits at entry 3k + j of each index array, holding the file's 1-based value minus one. |
| `Loader.ParsedStep` | art/model.c:91-130 | A `v `/`vt`/`vn`/tangent line appends exactly one record to its own array and changes nothing else. An `f ` line appends its three decremented corners, in corner order, to each index array. Any other line changes nothing. |
| `Loader.NoTangentsIff` | art/model.c:73-130 | The tangent array stays empty (the pointer stays null) iff no line of the file is classified as a tangent line. |
| `Loader.ParseLines` | art/model.c:86-131 | The loop over lines, with its prefix tests and per-branch pushes (three per face, in corner order), yields exactly `Parsed(lines)`. |
| `Loader.BoundsIffFacesInRange` | art/model.c:39-41 | All bounds assertions of the indexer pass iff every corner of every face names an existing position, texcoord and normal, counting from 1. |
| `Loader.SoupIsFileCorners` | art/model.c:118-123 | Vertex 3k + j of the soup is corner j of the k-th `f ` line, resolved against the file's 1-based numbering, with the tangent taken at the position index or defaulted. |
| `Loader.LoadMesh` | art/model.c:68-137 | The load aborts iff some face refers out of range. Otherwise the parsed data is buildable, the vertex buffer is the soup of the parsed data, `faceNum` is the number of `f ` lines, there are 3 vertices per face, vertex 3k + j is the file's corner j of face k, and the centre is the box midpoint. If no line is a tangent line, every tangent is (1,0,0,1). |
| `LoaderScenario.OneTriangleParsed` | art/model.c:86-131 | For the nine-attribute, one-face example file, the loader collects three positions, three texcoords, three normals, no tangents and indices [0,1,2]. |
| `LoaderScenario.CommentLineBecomesTangent` | art/model.c:125-129 | Adding the comment line `# made by hand` to the single-triangle file gives a one-entry tangent array. The indexer's unguarded tangent read at the second corner is then out of range (`TangentReadsDefined` fails). The whole-tag test ignores that line. |
| `LoaderScenario.OneTriangleScenario` | art/model.c:9-66 | That file builds into one triangle whose vertices are the three positions in file order, all with tangent (1,0,0,1), centred at (0.5, 0.5, 0). |
| `Frame.Framebuffer.constructor` | main.c:122-129 | The framebuffer is 800 × 600, and each buffer holds exactly `pix_num = 800·600` entries. |
| `Frame.Framebuffer.Clear` | main.c:147-151 | Afterwards every colour entry is (0,0,0,0) and every depth entry is 1.0: a full overwrite. |
| `Frame.DrawsOf` | main.c:154-167 | The reference log of the triangle loop: the first n triangles give exactly n draw requests, one per triangle, in order. |
| `Frame.DrawsOfAt` | main.c:154-167 | Draw i carries the snapshot of vertices 3i, 3i+1 and 3i+2 in slots 0, 1 and 2, and nothing else, so no draw reads past 3·faceNum. |
| `Frame.FrameEvents` | main.c:145-170 | A frame is faceNum draws, all stamped with that frame's clear, followed by exactly one input poll. |
| `Frame.DrawMesh` | main.c:154-167 | Starting on freshly cleared buffers, the triangle loop appends exactly `DrawsOf(mesh, faceNum)`: triangles 0..faceNum-1 in order, each drawn once after all three slots are written. |
| `Frame.RenderFrame` | main.c:145-170 | One frame clears every pixel of both buffers before its first draw (the triangle loop requires cleared buffers), then appends the frame's draws, stamped with the new clear count, then one poll. |
| `Frame.FramesLog` | main.c:145-170 | The reference log of n frames: n blocks of faceNum + 1 events each (faceNum draws and one poll). |
| `Frame.FramesLogAt` | main.c:145-170 | Frame f of the loop occupies the f-th block of faceNum + 1 log entries, and that block is exactly that frame's events, stamped with the (f + 1)-th clear. |
| `Frame.RenderLoop` | main.c:145-170 | After n frames the log is n frame logs in sequence and the clear count has grown by n. |
| `Frame.Run` | main.c:118-173 | The mesh drawn is the one loaded from the file. The load aborts iff some face refers out of range, and then nothing is drawn. Otherwise the mesh has one triangle per `f ` line, its vertices are the file's triangle soup, and its centre is the box midpoint; the log is exactly the frames' events for that mesh. |

## Left out

- File access: opening, reading and closing the file (art/model.c:83-84, 89, 133). The input is the sequence of lines. The assertion that the file opened is not modelled.
- Reading the file in fixed-size chunks: a line longer than the read buffer is split into several lines. The buffer size lives in core/macro.h, which is not part of this model.
- Text-to-number conversion. `Loader.Scan` stands for what the scanner leaves in the locals. Its item count is never checked, so the values are arbitrary inputs. The tangent format converts only three numbers, so the fourth component (and all four, for a plain `# ` comment) is whatever the uninitialised local held. `Scan.d` and the rest of `Scan` are unconstrained inputs for that reason.
- The diagnostic `printf` output of the indexer (art/model.c:12-19).
- Memory management: `malloc`, the growable-array internals (core/darray.h is not part of this model) and the framebuffer allocation that uses a pointer's size. `release_mesh` has an empty body. The mesh is a value here, so there is nothing to release.
- Loader.LoadMesh: under the code's two-character tangent test, every `# ` comment line (an exporter's header, say) becomes a tangent. Files where such a line gives a non-empty tangent array, and some in-range corner's position index is at or past the number of tangent lines, are outside the `TangentReadsDefined` precondition: their read is out of bounds (`LoaderScenario.CommentLineBecomesTangent`). When the precondition does hold, each such comment still adds a garbage tangent that shifts every later tangent along by one place. The model states this exactly as the code does; the loader is not switched to `Loader.ClassifyExact`, because that would no longer be the program's behaviour.
- Model.BuildMesh: the vertex buffer is returned as a sequence value. The identity of the allocated buffer is not modelled, and nothing else aliases it.
- Model.BuildMesh: process termination on a failed assertion is a returned `Aborted` value. `Frame.Run` then does nothing further.
- 32-bit integer overflow in `index - 1` and in the corner count, and single-precision rounding of coordinates.
- Frame.Host.DrawTriangle: the rasterizer's work (vertex and fragment stages, clipping, depth test) is not modelled. The buffers may hold anything after a draw, so the cleared state is stated only at the end of `Frame.Framebuffer.Clear`, and each draw is tied to its frame's clear through the clear count.
- The shader functions, the uniform setup, the camera, texture loading, window creation and `program_create` (main.c:56-116, 120, 133-144). They are floating-point matrix maths or calls outside this code. The window's stop signal is the `frames` count of `Frame.RenderLoop`.

## Findings

| source | as written | input that shows it | evidently intended | confidence | as-written member | corrected member |
|---|---|---|---|---|---|---|
| art/model.c:125 | The tangent-extension test compares only the first two characters of its 14-character tag, so every line starting `# ` is taken as a tangent. | The single-triangle file followed by the line `# made by hand`: it yields one tangent, and the read at position index 1 runs past it. | Only lines beginning with the whole tag `# ext.tangent ` carry a tangent; other comment lines are ignored. | not executed; high (the tag string is written out in full but its length is given as 2) | `LoaderScenario.CommentLineBecomesTangent` | `Loader.ClassifyExact` |
