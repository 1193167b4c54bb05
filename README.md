# Electric Void: meshes, the native maths add-on and the chat server's state

This project models four parts of the Electric Void application in Dafny and proves properties of them.

- **The instanced sphere demo** (`super-python/sphere_chunk_demo.py`):
  - `make_sphere` builds a UV-sphere. It produces a grid of `(rings + 1) * (segments + 1)` points. Each point has a position and a normal. The quads are triangulated two triangles at a time, and position and normal are interleaved into rows of six floats.
  - `generate_chunk_grid` lays out sphere centres z-outer, x-inner, each with a height colour.
  - The `Chunk` class packs one instance row (offset, then colour) per centre and issues one instanced draw.
- **The mesh engine** (`super-python/engine.py`):
  - `generate_normals` scatters the normal of every triangle into its three corners. It then normalises each vertex normal and widens every row of six floats to nine.
  - The box, plane and sphere geometries.
  - The `Scene` and `Object3D` records.
- **The native add-on** (`native/math.cpp`):
  - `add` validates its arguments in a fixed order before adding.
  - `factorial` validates its argument, converts it with `Int32Value`, and multiplies into a signed 64-bit accumulator.
- **The chat server's state** (`void/chat.py`):
  - The conversation history starts with the system prompt. Each `/chat` request appends to it, and `/reset-memory` cuts it back to its first message.
  - The token log gets one line per successful request, and `/usage-stats` folds it into four counters.

Modules:
- `MeshLayout`: the shared row-major layout. It covers rows of a flat buffer, grids of cells, row interleaving and the quad triangulation.
- `SphereChunkDemo`, `Engine`, `NativeMath`, `Chat`: one module per source file.
- `Wrappers`: `Option` and `Result`.

Float values are modelled as `real`s. Functions whose values none of the stated properties depend on are parameters of the model. These are the sphere's trigonometry (`surface`), `np.cross` (`cross`) and `v / norm(v)` (`unit`). Every property holds whatever those functions compute.

Python exceptions and JavaScript exceptions become error values. Most are the error side of a `Result`:
- `ZeroDivisionError` in the mesh builders (`MakeSphere`, `SphereGeometry` and their loops);
- `TypeError`/`RangeError` in the add-on (`Add`, `Factorial`);
- the failures of `/chat` (`ChatError`): the `requests.post` call raising, the explicit 500 for a non-200 reply, a reply body without the first choice's content, and a `usage` member that is not an object.

`Chunk.build_instances` changes the chunk's state rather than returning a value, so its `ValueError` for an empty list of centres is an `Option<PyError>` out-parameter, `None` when nothing is raised.

The upstream completion call of `/chat` is a function parameter from the request to the reply. The clock is a timestamp parameter. The log file is an optional sequence of entries, `None` while the file does not exist.

## Model

| member | source | states |
|---|---|---|
| MeshLayout.Count | Void_Cloud_Intelligence/super-python/sphere_chunk_demo.py:15 | `range(n)` yields n values for n >= 0 and none for negative n |
| MeshLayout.GridCell | Void_Cloud_Intelligence/super-python/sphere_chunk_demo.py:15-26 | nested loops that extend a list by one cell of w entries per (y, x) put cell (y, x) at row y * cols + x, and the list holds rows * cols * w entries |
| MeshLayout.ZipRow | Void_Cloud_Intelligence/super-python/sphere_chunk_demo.py:37-40 | row i of two interleaved streams is row i of the first followed by row i of the second, and the result has n * (wa + wb) entries |
| MeshLayout.QuadIndicesLength | Void_Cloud_Intelligence/super-python/sphere_chunk_demo.py:28-34 | the index list of a sphere has exactly 6 * rings * segments entries |
| MeshLayout.QuadIndicesAt | Void_Cloud_Intelligence/super-python/sphere_chunk_demo.py:30-34 | quad (y, x) occupies entries 6 * (y * segments + x) onwards and emits (i0, i2, i1) then (i1, i2, i3) with i1 = i0 + 1, i2 = i0 + segments + 1, i3 = i2 + 1, the two triangles sharing edge i1 - i2 |
| MeshLayout.QuadIndicesWithin | Void_Cloud_Intelligence/super-python/sphere_chunk_demo.py:30-34 | every index lies in [0, (rings + 1) * (segments + 1)), so no triangle names a missing grid point |
| MeshLayout.FlattenRow | Void_Cloud_Intelligence/super-python/sphere_chunk_demo.py:109-111 | an n x 3 array read flat has 3n entries and row i is vector i |
| SphereChunkDemo.SpherePositions | Void_Cloud_Intelligence/super-python/sphere_chunk_demo.py:15-24 | the positions list holds three floats per grid point, (rings + 1) * (segments + 1) points |
| SphereChunkDemo.SphereNormals | Void_Cloud_Intelligence/super-python/sphere_chunk_demo.py:25-26 | the normals list holds three floats per grid point, (rings + 1) * (segments + 1) points |
| SphereChunkDemo.SphereVertices | Void_Cloud_Intelligence/super-python/sphere_chunk_demo.py:36-42 | the interleaved buffer holds six floats per grid point |
| SphereChunkDemo.SpherePointLoop | Void_Cloud_Intelligence/super-python/sphere_chunk_demo.py:15-26 | the position and normal loops raise ZeroDivisionError exactly when they reach y / rings, x / segments or p / radius with a zero divisor; otherwise they build the position grid and the normal grid, row by row |
| SphereChunkDemo.SphereIndices | Void_Cloud_Intelligence/super-python/sphere_chunk_demo.py:28-34 | the index loop produces exactly the quad triangulation, quads row by row |
| SphereChunkDemo.Interleave | Void_Cloud_Intelligence/super-python/sphere_chunk_demo.py:36-40 | the interleave loop produces position i then normal i for every point |
| SphereChunkDemo.MakeSphere | Void_Cloud_Intelligence/super-python/sphere_chunk_demo.py:10-44 | raises, and raises ZeroDivisionError, exactly when rings is 0, or rings > 0 and segments is 0, or both are positive and radius is 0; otherwise returns the interleaved grid and the quad triangulation |
| SphereChunkDemo.SpherePositionRow | Void_Cloud_Intelligence/super-python/sphere_chunk_demo.py:15-24 | position row y * (segments + 1) + x is the surface point at (y / rings, x / segments) |
| SphereChunkDemo.SphereNormalRow | Void_Cloud_Intelligence/super-python/sphere_chunk_demo.py:15-26 | normal row y * (segments + 1) + x is that surface point divided by the radius |
| SphereChunkDemo.SphereVertexAt | Void_Cloud_Intelligence/super-python/sphere_chunk_demo.py:15-40 | vertex y * (segments + 1) + x is six floats: the position in slots 0-2 and the normal in slots 3-5 |
| SphereChunkDemo.MakeSphereCounts | Void_Cloud_Intelligence/super-python/sphere_chunk_demo.py:15-34 | for positive rings and segments: 6 * (rings + 1) * (segments + 1) floats, 6 * rings * segments indices, each index below (rings + 1) * (segments + 1) |
| SphereChunkDemo.MakeSphereIndicesValid | Void_Cloud_Intelligence/super-python/sphere_chunk_demo.py:28-44 | whenever make_sphere returns, the buffer is whole rows of six and every index names one of its rows |
| SphereChunkDemo.Clip01 | Void_Cloud_Intelligence/super-python/sphere_chunk_demo.py:151 | clipping to [0, 1] keeps values inside, maps below to 0 and above to 1 |
| SphereChunkDemo.ChunkCenters | Void_Cloud_Intelligence/super-python/sphere_chunk_demo.py:145-150 | one centre per (iz, ix), chunk_size_z * chunk_size_x of them (none for a negative size) |
| SphereChunkDemo.GenerateChunkGrid | Void_Cloud_Intelligence/super-python/sphere_chunk_demo.py:140-153 | returns the centres z-outer x-inner and one colour per centre, colour i being the clipped height colour of centre i |
| SphereChunkDemo.ChunkCenterAt | Void_Cloud_Intelligence/super-python/sphere_chunk_demo.py:145-150 | there are chunk_size_x * chunk_size_z centres and centre iz * chunk_size_x + ix is ((ix - hx/2) * spacing, height, (iz - hz/2) * spacing) |
| SphereChunkDemo.InstanceColours | Void_Cloud_Intelligence/super-python/sphere_chunk_demo.py:103-106 | one colour per centre, the given ones or 0.8 grey |
| SphereChunkDemo.InstanceData | Void_Cloud_Intelligence/super-python/sphere_chunk_demo.py:109-111 | the instance data holds six floats per centre |
| SphereChunkDemo.InstanceRow | Void_Cloud_Intelligence/super-python/sphere_chunk_demo.py:101-111 | instance row i is centre i followed by colour i, or by 0.8 grey when no colours are given |
| SphereChunkDemo.Chunk.constructor | Void_Cloud_Intelligence/super-python/sphere_chunk_demo.py:87-98 | a new chunk keeps the sphere buffers, counts the indices and has no instance buffer, no instances and no vertex array, so it satisfies the chunk invariant |
| SphereChunkDemo.Chunk.BuildInstances | Void_Cloud_Intelligence/super-python/sphere_chunk_demo.py:100-132 | no centres raise ValueError (the empty array cannot fill the (0, 3) offset columns, line 110) and leave every field unchanged; otherwise the instance count becomes the number of centres, the instance buffer holds the instance data, and the vertex array binds the sphere vertices, that data and the sphere indices; either way the invariant (a vertex array exactly when there is an instance buffer and a positive instance count, binding that buffer) is kept |
| SphereChunkDemo.Chunk.Render | Void_Cloud_Intelligence/super-python/sphere_chunk_demo.py:134-137 | no draw when there is no vertex array or no instance; otherwise one draw of instance_count instances; on a chunk keeping the invariant, a draw happens exactly when instances were built, and it draws a positive count from the instance buffer |
| Engine.Normalize | Void_Cloud_Intelligence/super-python/engine.py:24 | a zero vector is kept as it is, any other is replaced by its unit vector |
| Engine.FaceNormals | Void_Cloud_Intelligence/super-python/engine.py:14-18 | one normal per triangle, the normalised cross product of its edges from the first corner |
| Engine.FaceNormalOf | Void_Cloud_Intelligence/super-python/engine.py:14-18 | the normal the loop computes for triangle s, dividing by 1 when the cross product has norm 0, is face normal s |
| Engine.Zeros | Void_Cloud_Intelligence/super-python/engine.py:10 | the normals array starts as one zero vector per row of six |
| Engine.Accumulated | Void_Cloud_Intelligence/super-python/engine.py:10-21 | after the scatter there is one accumulated normal per vertex row |
| Engine.AddFaceNormal | Void_Cloud_Intelligence/super-python/engine.py:14-21 | one pass adds the triangle's normal to each of its three corners, a corner named twice getting it twice |
| Engine.ScatterFaces | Void_Cloud_Intelligence/super-python/engine.py:13-21 | the in-place loop over the triangles leaves the array equal to the scatter of all face normals |
| Engine.AccumulateNormals | Void_Cloud_Intelligence/super-python/engine.py:10-21 | the zeroed array after the loop is the scatter of all face normals |
| Engine.ScatteredStepAt | Void_Cloud_Intelligence/super-python/engine.py:19-21 | one triangle adds its normal to vertex v once per corner that is v |
| Engine.ScatteredIsFaceSum | Void_Cloud_Intelligence/super-python/engine.py:13-21 | after t triangles, entry v is the sum over those triangles of the normal times the number of corners that are v |
| Engine.UnreferencedKeepsZero | Void_Cloud_Intelligence/super-python/engine.py:10-21 | a vertex no index names keeps the zero normal |
| Engine.NormalizeAll | Void_Cloud_Intelligence/super-python/engine.py:24 | one normalised vector per accumulated normal, zero normals kept |
| Engine.WidenRows | Void_Cloud_Intelligence/super-python/engine.py:27-30 | the widening loop emits row i of six floats followed by normal i |
| Engine.GenerateNormals | Void_Cloud_Intelligence/super-python/engine.py:9-32 | generate_normals returns the input rows widened by the normalised accumulated normals |
| Engine.VertexNormalIsFaceSum | Void_Cloud_Intelligence/super-python/engine.py:13-24 | the normal of vertex i is the normalised sum of the face normals of the triangles around it |
| Engine.GenerateNormalsRow | Void_Cloud_Intelligence/super-python/engine.py:27-32 | the result has 9 entries per input vertex, and row i is input row i followed by the normal of vertex i |
| Engine.GenerateNormalsKeepsInput | Void_Cloud_Intelligence/super-python/engine.py:27-32 | the first six floats of output row i are input row i unchanged and the last three its normal |
| Engine.BoxVertices | Void_Cloud_Intelligence/super-python/engine.py:75-85 | the box table has 8 rows of six floats |
| Engine.BoxIndices | Void_Cloud_Intelligence/super-python/engine.py:87-94 | the box index table has 36 entries, all in [0, 8) |
| Engine.BoxGeometry | Void_Cloud_Intelligence/super-python/engine.py:73-97 | the box passes generate_normals' requirements and ends with 8 rows of nine floats and its 36 indices |
| Engine.PlaneVertices | Void_Cloud_Intelligence/super-python/engine.py:133-138 | the plane table has 4 rows, all with z = 0 and x = ±width/2, y = ±height/2 |
| Engine.PlaneIndices | Void_Cloud_Intelligence/super-python/engine.py:140 | the plane index table has 6 entries, all in [0, 4) |
| Engine.PlaneGeometry | Void_Cloud_Intelligence/super-python/engine.py:131-142 | the plane passes generate_normals' requirements and ends with 4 rows of nine floats and its 6 indices |
| Engine.SphereGridVertices | Void_Cloud_Intelligence/super-python/engine.py:107-115 | before normals there are (rings + 1) * (segments + 1) rows of six floats |
| Engine.SphereGridVertexAt | Void_Cloud_Intelligence/super-python/engine.py:107-115 | row y * (segments + 1) + x is the surface point of grid point (y, x) followed by white |
| Engine.SphereVertexLoop | Void_Cloud_Intelligence/super-python/engine.py:107-115 | the vertex loop raises ZeroDivisionError exactly when it reaches x / segments or y / rings with a zero divisor, and otherwise builds the grid |
| Engine.SphereGridIndices | Void_Cloud_Intelligence/super-python/engine.py:117-121 | the index loop produces the quad triangulation [i1, i2, i1 + 1, i1 + 1, i2, i2 + 1] quad by quad |
| Engine.SphereGeometryValid | Void_Cloud_Intelligence/super-python/engine.py:117-125 | whenever the loops finish, every index is below the vertex count, which is what generate_normals needs |
| Engine.SphereGeometry | Void_Cloud_Intelligence/super-python/engine.py:102-126 | raises ZeroDivisionError, and only then, when segments or rings is 0 (and neither is negative); otherwise returns the grid widened by its normals and the quad triangulation |
| Engine.Object3D.constructor | Void_Cloud_Intelligence/super-python/engine.py:38-42 | a new object has position (0, 0, 0), rotation (0, 0, 0) and scale (1, 1, 1) |
| Engine.Scene.constructor | Void_Cloud_Intelligence/super-python/engine.py:50-51 | a new scene has no objects |
| Engine.Scene.Add | Void_Cloud_Intelligence/super-python/engine.py:53-54 | the object is appended at the end and the earlier objects are unchanged |
| Engine.SetUpWorld | Void_Cloud_Intelligence/super-python/main_world.py:56-61 | adding the sphere object twice leaves it twice in the scene |
| NativeMath.DoubleSum | native/math.cpp:28 | IEEE addition: NaN when either is NaN or the infinities are opposite, the real sum for finite values |
| NativeMath.Add | native/math.cpp:7-32 | fewer than two arguments is "Wrong number of arguments" before any type check; a non-number among the first two is "Arguments must be numbers"; otherwise the sum |
| NativeMath.AddIgnoresExtraArguments | native/math.cpp:12-28 | arguments after the second make no difference |
| NativeMath.AddCommutes | native/math.cpp:19-28 | swapping the two arguments changes neither the sum nor the error |
| NativeMath.Trunc | native/math.cpp:45 | rounding toward zero |
| NativeMath.Wrap32 | native/math.cpp:45 | reduction to a signed 32-bit value congruent modulo 2^32, identity inside the range |
| NativeMath.ToInt32 | native/math.cpp:45 | the 32-bit conversion: NaN and infinities give 0; a finite number gives the int32 congruent to its truncation modulo 2^32, which is the truncation itself when that is in range |
| NativeMath.LargeNumberTurnsNegative | native/math.cpp:45-51 | 2^31 and 3e9 come out of the conversion negative, so factorial rejects them as negative |
| NativeMath.Wrap64 | native/math.cpp:53-56 | reduction to a signed 64-bit value congruent modulo 2^64, identity inside the range |
| NativeMath.FactStep | native/math.cpp:54-56 | one more factor of the 64-bit product follows the true factorial |
| NativeMath.Factorial | native/math.cpp:35-59 | a missing or non-number argument is a TypeError, a negative converted value a RangeError, otherwise the 64-bit reduction of n! (1 for n = 0 and n = 1) |
| NativeMath.FactorialExactUpTo20 | native/math.cpp:53-56 | up to n = 20 the accumulator holds n! exactly |
| NativeMath.FactorialWrapsAt21 | native/math.cpp:53-56 | 21! does not fit in 64 bits and comes back as -4249290049419214848 |
| NativeMath.FactorialExactIff | native/math.cpp:53-56 | the result is n! exactly when n <= 20: for every n from 21 on the 64-bit product differs from n! |
| NativeMath.Int32Increment | native/math.cpp:54 | the increment of the int counter stays in 32 bits and adds one below the top |
| NativeMath.CounterCounts | native/math.cpp:54 | the 32-bit counter counts 2, 3, ... up to 2^31 - 1 |
| NativeMath.Int32CounterNeverExits | native/math.cpp:54 | for n = 2^31 - 1 the guard i <= n holds after every increment: the counter reaches n and then wraps to -2^31 |
| Chat.NewChatInput | Void_Cloud_Intelligence/void/chat.py:34-36 | max_tokens defaults to 1000 |
| Chat.Get | Void_Cloud_Intelligence/void/chat.py:84-87 | a dictionary lookup with default 0 |
| Chat.UsageOf | Void_Cloud_Intelligence/void/chat.py:84-87 | a missing usage member or field counts 0, a present field its value |
| Chat.EntryOf | Void_Cloud_Intelligence/void/chat.py:89-94 | the log line carries the timestamp and exactly the three token fields, and reading it back gives the same counts |
| Chat.Strip | Void_Cloud_Intelligence/void/chat.py:80 | the stripped answer is the run of the reply left with only whitespace on either side, starting and ending with no whitespace |
| Chat.StripIdempotent | Void_Cloud_Intelligence/void/chat.py:80 | stripping twice is stripping once |
| Chat.Totals | Void_Cloud_Intelligence/void/chat.py:119-126 | the request count is the number of log lines |
| Chat.Stats | Void_Cloud_Intelligence/void/chat.py:119-140 | a missing log reports all four counters 0; otherwise the request count is the number of lines |
| Chat.TotalsConcat | Void_Cloud_Intelligence/void/chat.py:119-126 | the totals of two stretches of log add up |
| Chat.TotalsAreFieldSums | Void_Cloud_Intelligence/void/chat.py:119-126 | each token counter is the sum of its field over all lines, a missing field counting 0 |
| Chat.FirstOnly | Void_Cloud_Intelligence/void/chat.py:146 | history[:1] keeps at most the first message and is a prefix of the history |
| Chat.FirstOnlyIdempotent | Void_Cloud_Intelligence/void/chat.py:146 | resetting twice is resetting once |
| Chat.ChatService.constructor | Void_Cloud_Intelligence/void/chat.py:38-52 | the history starts as exactly the system message |
| Chat.ChatService.Chat | Void_Cloud_Intelligence/void/chat.py:55-107 | the prompt joins the history before the upstream call; a POST that raises ends the request, and a non-200 reply is a 500 carrying the reply text, both with the prompt kept and no log line; otherwise the stripped answer joins the history after the prompt; then a `usage` member that is not an object (`null`, say) fails the request with the answer kept and no log line, and any other reply gets exactly one log line with its counts, and the same counts are returned; the system message stays first |
| Chat.ChatService.UsageStatistics | Void_Cloud_Intelligence/void/chat.py:112-140 | the four-counter loop reports the totals of the log, all zeros when there is no log file |
| Chat.ChatService.ResetMemory | Void_Cloud_Intelligence/void/chat.py:144-147 | the history is cut back to its first message, the system message, and "Memory cleared" is returned |
| Chat.ChatAddsItsUsage | Void_Cloud_Intelligence/void/chat.py:89-96 | a successful request adds its own tokens and one request to what usage-stats reports, whether or not the log existed |

## Left out

- Float rounding: every float is a `real`. The float32 (`dtype='f4'`) storage of vertices and instance data is not modelled, nor is the int32 (`'i4'`) storage of indices, which could only matter for grids of more than 2^31 points.
- Vertex coordinates, normal directions and colours: `math.sin`/`math.cos`, `np.cross` and `np.linalg.norm` are function parameters, so no property depends on their values. `hill_height` is not part of this model.
- GPU and window plumbing: moderngl buffers, vertex arrays, shaders, the glfw loops and `Geometry.create_vao`. A vertex array is a record of the buffers it binds, and a draw call is a record of the vertex array and the instance count.
- `Object3D.get_model_matrix`: pyrr matrix maths on floats.
- Default arguments: `make_sphere` (0.5, 24, 16), `SphereGeometry` (16, 16), `PlaneGeometry` (1, 1) and `generate_chunk_grid` (8, 8, 1.0, None). Callers of the model pass every argument.
- Engine.GenerateNormals: requires whole rows of six, whole triangles and every index in range. Numpy's reshape error, its wrap-around of negative indices and its IndexError for large ones are not modelled. The same precondition is on Engine.AccumulateNormals, Engine.ScatterFaces and Engine.AddFaceNormal.
- SphereChunkDemo.Chunk.BuildInstances: requires one colour per centre. Numpy's broadcasting of a single colour row, and its error for a mismatched count, are not modelled.
- SphereChunkDemo.Chunk.BuildInstances: the first build creates the buffer and later builds orphan it and rewrite it. Both leave the same contents, so the model does not tell them apart.
- MeshLayout.Quot: division by zero yields 0. Where the source would divide by zero the model returns ZeroDivisionError instead, so such a value never reaches a returned mesh. The layout lemmas (`SpherePositionRow`, `SphereNormalRow`, `SphereVertexAt`) are stated for every size, including ones for which make_sphere raises; there they describe the reference grid, not a result of the source.
- NativeMath.Add: a finite sum is the exact real sum. IEEE rounding and overflow to infinity are not modelled.
- NativeMath.Factorial: signed overflow of the `long long` accumulator is undefined in C++. It is modelled as two's complement wrap-around. The conversion of the result to a JavaScript double by `Number::New` is not modelled, so the model returns the integer rather than the rounded double.
- NativeMath.ToInt32: V8's `Int32Value` is modelled by the ECMAScript ToInt32 conversion, applied to numbers only, because the argument has already passed `IsNumber`.
- The HTTP layer of `void/chat.py`: FastAPI routing, CORS, the API key and headers, the `requests.post` call and JSON encoding. The upstream outcome is a parameter of `Chat`: a reply, or `ConnectionFailed` for any exception `requests.post` raises.
- Chat.ChatService.Chat: `requests.post` is called without a time-out, so a request can hang for ever while its prompt already sits in the history. The model has no notion of time and does not capture the hang.
- Concurrency: FastAPI runs the plain `def` endpoints in a thread pool, so several `/chat` and `/reset-memory` requests can interleave their updates of the shared history and their appends to the log file. The model runs each request to completion before the next one starts.
- Chat.ChatService.Chat: a reply body that is not JSON or lacks `choices[0].message.content` is the single error `MalformedReply`, which FastAPI would turn into a 500. Inside a `usage` object, count values that are not integers are not modelled.
- The log file: appending a JSON line and reading lines back are the `log` sequence. A malformed line, which would make `/usage-stats` raise, is not modelled. The timestamp is a parameter, not `datetime.utcnow()`.
- The `print` calls, which only write to the console.

## Findings

| source | as written | input that shows it | evidently intended | confidence | as-written member | corrected member |
|---|---|---|---|---|---|---|
| native/math.cpp:54 | the product loop counts with a 32-bit `int` and stops when `i <= n` fails | `factorial(2147483647)`: the counter reaches 2^31 - 1, which still satisfies the guard, and the next increment overflows (undefined behaviour; wraps to -2^31 in practice), so the guard never fails | the loop runs for i = 2 .. n and stops | not executed | NativeMath.Int32CounterNeverExits | NativeMath.Factorial |
