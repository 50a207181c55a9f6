# Waveform visualisation add-on: a verified model

The add-on is a Kodi visualisation, `CVisualizationWaveForm` in
`src/Main.cpp`. The host sends it interleaved stereo samples through
`AudioData`. It keeps the first 512 pairs of the latest chunk in
`m_fWaveform[2][512]`, one channel per row. A chunk with fewer pairs is
repeated until all 512 slots are filled. Once per frame, `Render` turns that buffer into two
white line strips of 256 vertices each, one per channel. `Create` sets up a
fixed viewport. In the Direct3D build, `Create` also makes five GPU objects in
a row and gives up at the first one that fails. In the Direct3D build, the
destructor releases every handle that is not null, except the context, which
belongs to the host. The OpenGL build's destructor releases nothing, although
`Create` set `m_device`. The backend (OpenGL or Direct3D) is chosen when the
add-on is built.

The model has four modules:

- `Waveform` (waveform.dfy) describes the sample buffer as values.
  `AfterAudioData` gives the buffer an `AudioData` call leaves behind. It is
  defined as the chunk's stereo pairs repeated end to end and cut at 512
  (`Pairs`, `Cycle`). Its contract gives the same buffer in closed form: slot
  `k` holds pair `k mod P`, where `P` is the number of pairs.
- `Vertices` (vertices.dfy) is the vertex builder of `Render`. It says which
  buffer slot each vertex reads (`SampleSlot`), where each vertex goes
  (`StripVertex`), and how the two strips make up a frame (`BuildFrame`).
- `Resources` (resources.dfy) covers `Create` and the destructor. It gives the
  handles that exist after `Create` for a given set of refused creation calls,
  and the release calls the destructor makes.
- `Visualization` (visualization.dfy) is the class, with the 2×512 `array2`
  buffer and the handle fields:
  - `AudioData` keeps the source's nested loop and its write cursor `ipos`.
  - `Render` fills a vertex array as each build does.
  - `InitRendererObjs` and `Create` assign the handle fields step by step.
  - `Destroy` releases the handles with guards.

  Each method is proved against the matching function above.

Samples and coordinates are reals. The source's single-precision floats,
including `0.33f`, `0.15f` and `i / 255.0f`, are idealised as exact reals.

Three behaviours of the code are easy to misread:

- An `AudioData` chunk shorter than 512 pairs does not leave the rest of the
  buffer stale. The outer `while (ipos < 512)` runs the chunk again from its
  first pair until all 512 slots are written (`ShortChunkRepeats`).
- In the Direct3D build, the right strip reads `m_fWaveform[1][256..511]`. The
  array index `i` runs over 256..511 and is used as the sample index. The
  OpenGL build reads `m_fWaveform[1][0..255]` (`WindowsRead`).
- A length of 0 does not return. The loop makes no progress and runs forever.
  An odd length of 1023 or less reads one float past the end of the input.
  So `AudioData` requires `Consumable(data)`: at least one sample, and an even
  count or more than 1024 samples. With an odd count above 1024, the 512th
  write happens before the loop reaches the incomplete last pair. The contract
  of `Consumable` states this exactly, in terms of the index each write reads.

`AudioData` promises a buffer that depends only on the chunk, not on what the
buffer held before. So two calls with the same chunk leave the same buffer as
one call. `Render` has no `modifies` clause, so it never changes the buffer,
and two calls with no `AudioData` in between return the same frame.

## Model

| member | source | states |
|---|---|---|
| `Waveform.Pairs` | src/Main.cpp:184-187 | The chunk read two floats at a time: pair `j` is `(data[2j], data[2j+1])`, and there are `|data| / 2` pairs |
| `Waveform.Cycle` | src/Main.cpp:182-191 | Restarting the chunk until the buffer is full yields exactly `n` entries |
| `Waveform.CycleAt` | src/Main.cpp:182-191 | Entry `k` of the restarted chunk is entry `k mod |s|` of the chunk |
| `Waveform.Consumable` | src/Main.cpp:181-189 | Exactly the chunk lengths for which the fill loop ends and every float read by the 512 writes lies inside the chunk. Write `k` reads index `2(k mod ⌈n/2⌉) + 1` |
| `Waveform.AfterAudioData` | src/Main.cpp:179-192 | After `AudioData`, both channels hold 512 samples, and slot `k` holds `data[2(k mod P)]` on the left and `data[2(k mod P)+1]` on the right |
| `Waveform.DeinterleavedPrefix` | src/Main.cpp:184-188 | A chunk of N pairs lands unchanged in slots `0..N-1`: `left[k] = data[2k]`, `right[k] = data[2k+1]` |
| `Waveform.ShortChunkRepeats` | src/Main.cpp:182-191 | With fewer than 512 pairs, slot `k >= P` repeats slot `k - P`, so nothing from an earlier call survives |
| `Waveform.LongChunkTruncated` | src/Main.cpp:184-189 | With 512 pairs or more, exactly the first 512 pairs are kept, in order, and the buffer equals the one for the first 1024 floats alone |
| `Vertices.SampleSlot` | src/Main.cpp:231-268 | Every vertex reads its own strip's channel at an index below 512 |
| `Vertices.StripX` | src/Main.cpp:238 | Vertex `i`'s x is `i/255` of the way across the viewport. Vertex 0 is on the left edge and vertex 255 on the right edge |
| `Vertices.StripVertex` | src/Main.cpp:238-269 | A vertex has its column's x, z = 1 and opaque white. For a positive height it lies above its channel's centre line (0.33 or 0.66 of the height) exactly when its sample is positive, and on the line exactly when the sample is 0 |
| `Vertices.Strip` | src/Main.cpp:231-273 | Each strip has exactly 256 vertices |
| `Vertices.BuildFrame` | src/Main.cpp:231-273 | A frame is two 256-vertex strips, left channel first, whose vertices share x column by column in both builds |
| `Vertices.WindowsRead` | src/Main.cpp:231-268 | The left strip reads samples 0..255. The right strip reads 256..511 in the Direct3D build and 0..255 in the OpenGL build |
| `Vertices.StripSpansViewport` | src/Main.cpp:238-266 | Each strip starts at `TopLeftX`, ends at `TopLeftX + Width`, and its x grows strictly from vertex to vertex |
| `Vertices.SilentBaselines` | src/Main.cpp:239-268 | With the viewport `Create` installs and a silent buffer, the left strip lies on y = -0.34 and the right strip on y = 0.32 |
| `Vertices.AmplitudeOffset` | src/Main.cpp:239-268 | With that viewport, a sample moves its vertex 0.3 × amplitude from its channel's baseline. Every vertex has z = 1 and is opaque white |
| `Resources.ReachedChain` | src/Main.cpp:305-337 | A creation step is carried out exactly when the previous step was and this one is not refused |
| `Resources.Attempt` | src/Main.cpp:303-341 | Running the steps in order and stopping at the first refusal gives a prefix of the steps. None of them is refused, and the step right after the prefix is refused |
| `Resources.CreatedIff` | src/Main.cpp:303-341 | The sequential run and the closed form agree: step `k` is created exactly when no step up to `k` is refused |
| `Resources.InitSucceedsIff` | src/Main.cpp:166-173 | Every step is carried out exactly when the device refuses none of them. The created set equals the closed form |
| `Resources.LiveAfterCreate` | src/Main.cpp:155-174 | After `Create`, the device is always non-null. The context is non-null exactly in the Direct3D build. The OpenGL build holds only the device. In Direct3D, creation step `k` holds a handle exactly when no step up to `k` is refused |
| `Resources.Releases` | src/Main.cpp:136-149 | The destructor releases at most six handles, each non-null and none the context, and nothing in the OpenGL build |
| `Resources.ReleasesLive` | src/Main.cpp:136-149 | In the Direct3D build, the destructor releases a handle exactly when it is non-null and is not the host's context |
| `Resources.ReleasesOnce` | src/Main.cpp:136-149 | The destructor releases no handle twice |
| `Resources.TeardownReleasesOwned` | src/Main.cpp:134-150 | After a Direct3D `Create` that fails at any step, the destructor releases the device and every object created so far, each once, and never the context |
| `Visualization.WaveformVisualization.Snapshot` | src/Main.cpp:113 | The buffer always holds 512 samples per channel |
| `Visualization.WaveformVisualization.constructor` | src/Main.cpp:117-128 | Every handle starts null, and the build's backend is fixed |
| `Visualization.WaveformVisualization.AudioData` | src/Main.cpp:179-192 | The nested loop terminates, writes only slots below 512, and leaves exactly `AfterAudioData(data)`, whatever the buffer held before |
| `Visualization.WaveformVisualization.Render` | src/Main.cpp:198-300 | The frame is `BuildFrame` of the current buffer and viewport. The buffer is not changed |
| `Visualization.WaveformVisualization.RenderDirect3D` | src/Main.cpp:231-298 | Filling the 512-entry vertex array in two loops and drawing its halves yields `BuildFrame` for the Direct3D build |
| `Visualization.WaveformVisualization.RenderOpenGL` | src/Main.cpp:213-286 | Streaming two 256-vertex strips yields `BuildFrame` for the OpenGL build |
| `Visualization.WaveformVisualization.InitRendererObjs` | src/Main.cpp:303-341 | Each of the five handles is non-null exactly when its step and all earlier steps succeed. The result is true exactly when all five do |
| `Visualization.WaveformVisualization.Create` | src/Main.cpp:155-174 | Installs viewport (-1, -1, 2, 2, 0, 1). Returns `Ok` in the OpenGL build, and in Direct3D exactly when no creation step is refused. The non-null handles afterwards are `LiveAfterCreate` |
| `Visualization.WaveformVisualization.Destroy` | src/Main.cpp:134-150 | Releases the non-null handles in the source's order (constant buffer, vertex buffer, input layout, vertex shader, pixel shader, device). Releases nothing in the OpenGL build |

## Left out

- OpenGL immediate-mode calls are not modelled. This covers colour, blending, the matrix push and pop, the polygon mode, the translation, `glBegin`/`glVertex2f`/`glEnd`, and the `glGetError` report. These are foreign graphics side effects. `RenderOpenGL` returns the `verts` entries it builds. Only their x and y go to `glVertex2f`. Their z and colour stay in `verts`, and the colour drawn comes from `glColor3f`.
- Direct3D pipeline binding is not modelled. This covers the input-assembler, shader and constant-buffer bindings, shader bytecode, the input-layout descriptor, buffer descriptions, and `Draw`. These are foreign API calls. The creation steps appear only as success or refusal, through the `fails` parameter.
- `RenderDirect3D` does not model a failed `Map`. In the source, a failed `Map` leaves the GPU vertex buffer with the previous frame's vertices. The model returns the vertices built for this frame.
- The constant buffer's initial contents (viewport width and height) are not modelled. Only the handle is.
- A failed creation call is assumed to leave its handle null. The host's `Device()` accessor is assumed to return a live context or device.
- Floating-point rounding is not modelled. Samples and coordinates are exact reals, so results are claimed only for real arithmetic.
- `AudioData` with a length of 0 or less, or an odd length of 1023 or less, is excluded by its precondition. The first case never returns, and the second reads past the end of the input.
- The unsynchronised sharing of `m_fWaveform` between the audio thread and the render thread is not modelled. Calls are modelled as sequential.
- The unused `pFreqData`/`iFreqDataLength` parameters and the `ADDONCREATOR` host glue are not modelled.
- The source's constructor does not initialise `m_fWaveform` or `m_viewport`. The model's constructor promises nothing about either.
- `Render` in the OpenGL build reuses `verts[0..255]` for the right channel. This overwrites left vertices that were already streamed. The overwrite is not observable, so the model keeps only the streamed strips.
