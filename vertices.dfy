/** The vertex builder of Render: which buffer slot each line-strip vertex
    reads and where it is placed. Coordinates are reals standing for the
    source's single-precision floats. */
module Vertices {
  import opened Waveform

  /** The rendering backend, fixed when the add-on is built. */
  datatype Backend = OpenGL | Direct3D

  /** The viewport rectangle (int fields, as the OpenGL build declares it). */
  datatype Viewport = Viewport(topLeftX: int, topLeftY: int, width: int, height: int,
                               minDepth: int, maxDepth: int)

  /** The rectangle Create installs: normalised device coordinates, depth 0..1. */
  const DefaultViewport: Viewport := Viewport(-1, -1, 2, 2, 0, 1)

  datatype Colour = Colour(r: real, g: real, b: real, a: real)

  /** Opaque white: 0xffffffff in the OpenGL build, {1, 1, 1, 1} in Direct3D. */
  const White: Colour := Colour(1.0, 1.0, 1.0, 1.0)

  datatype Vertex = Vertex(x: real, y: real, z: real, col: Colour)

  /** The two line strips handed to the GPU, left channel first. */
  datatype Frame = Frame(left: seq<Vertex>, right: seq<Vertex>)

  /** Vertices per strip (one strip per channel). */
  const StripLength: nat := 256

  /** Vertical centre of each channel's strip, as a fraction of the height. */
  const LeftCentre: real := 0.33
  const RightCentre: real := 0.66

  /** Fraction of the viewport height one unit of amplitude moves a vertex. */
  const AmplitudeScale: real := 0.15

  /** A slot of the sample buffer: channel (first subscript) and index. */
  datatype Slot = Slot(channel: nat, index: nat)

  /** The slot read by vertex j of the given channel's strip. The Direct3D
      build fills one 512-vertex array and its right-channel loop runs the
      array index i over 256..511, reading m_fWaveform[1][i]; the OpenGL build
      runs i over 0..255 for both strips. */
  function SampleSlot(backend: Backend, channel: nat, j: nat): (s: Slot)
    requires channel < 2 && j < StripLength
    ensures s.channel == channel && s.index < BufferSize
  {
    if backend == Direct3D && channel == 1 then Slot(1, StripLength + j) else Slot(channel, j)
  }

  /** x of vertex j of a strip: j/255 of the way across the viewport, so
      vertex 0 is on the left edge and vertex 255 on the right edge. */
  function StripX(vp: Viewport, j: nat): (x: real)
    ensures j == 0 ==> x == vp.topLeftX as real
    ensures j == StripLength - 1 ==> x == (vp.topLeftX + vp.width) as real
  {
    vp.topLeftX as real + (j as real / 255.0) * vp.width as real
  }

  /** The y of a silent channel's strip: the channel's centre line. */
  function Baseline(vp: Viewport, channel: nat): real {
    vp.topLeftY as real + vp.height as real * (if channel == 0 then LeftCentre else RightCentre)
  }

  /** Vertex j of a channel's strip: it lies in the viewport's column for j,
      at depth 1, white, and above, on or below its channel's centre line
      exactly as its sample is positive, zero or negative. */
  function StripVertex(backend: Backend, buf: Channels, vp: Viewport, channel: nat, j: nat): (v: Vertex)
    requires Full(buf) && channel < 2 && j < StripLength
    ensures v.x == StripX(vp, j) && v.z == 1.0 && v.col == White
    ensures var sample := buf.Channel(channel)[SampleSlot(backend, channel, j).index];
            vp.height > 0 ==>
              && (v.y > Baseline(vp, channel) <==> sample > 0.0)
              && (v.y == Baseline(vp, channel) <==> sample == 0.0)
  {
    var slot := SampleSlot(backend, channel, j);
    var sample := buf.Channel(slot.channel)[slot.index];
    var offset := sample * vp.height as real * AmplitudeScale;
    if vp.height > 0 then
      OffsetSign(sample, vp.height as real);
      Vertex(StripX(vp, j), Baseline(vp, channel) + offset, 1.0, White)
    else
      Vertex(StripX(vp, j), Baseline(vp, channel) + offset, 1.0, White)
  }

  lemma OffsetSign(sample: real, h: real)
    requires h > 0.0
    ensures sample * h * AmplitudeScale > 0.0 <==> sample > 0.0
    ensures sample * h * AmplitudeScale == 0.0 <==> sample == 0.0
  {
    if sample > 0.0 {
      assert sample * h > 0.0;
    } else if sample < 0.0 {
      assert (-sample) * h > 0.0;
    }
  }

  function Strip(backend: Backend, buf: Channels, vp: Viewport, channel: nat): (r: seq<Vertex>)
    requires Full(buf) && channel < 2
    ensures |r| == StripLength
  {
    seq(StripLength, j requires 0 <= j < StripLength => StripVertex(backend, buf, vp, channel, j))
  }

  /** The frame Render submits for a buffer and a viewport: two strips of
      256 vertices, left channel first, whose vertices line up column by
      column. */
  function BuildFrame(backend: Backend, buf: Channels, vp: Viewport): (f: Frame)
    requires Full(buf)
    ensures |f.left| == StripLength && |f.right| == StripLength
    ensures forall j :: 0 <= j < StripLength ==> f.left[j].x == f.right[j].x
  {
    Frame(Strip(backend, buf, vp, 0), Strip(backend, buf, vp, 1))
  }

  /** The buffer indices a channel's strip reads. */
  function SlotsRead(backend: Backend, channel: nat): set<nat>
    requires channel < 2
  {
    set j | 0 <= j < StripLength :: SampleSlot(backend, channel, j).index
  }

  /** The left strip shows samples 0..255 in both builds; the right strip
      shows samples 256..511 in the Direct3D build and 0..255 in the OpenGL
      build, so the two builds draw different halves of the right channel. */
  lemma WindowsRead(backend: Backend)
    ensures forall k :: k in SlotsRead(backend, 0) <==> 0 <= k < StripLength
    ensures backend == OpenGL ==>
              forall k :: k in SlotsRead(backend, 1) <==> 0 <= k < StripLength
    ensures backend == Direct3D ==>
              forall k :: k in SlotsRead(backend, 1) <==> StripLength <= k < BufferSize
  {
    forall k | 0 <= k < StripLength ensures k in SlotsRead(backend, 0) {
      assert SampleSlot(backend, 0, k).index == k;
    }
    if backend == OpenGL {
      forall k | 0 <= k < StripLength ensures k in SlotsRead(backend, 1) {
        assert SampleSlot(backend, 1, k).index == k;
      }
    } else {
      forall k | StripLength <= k < BufferSize ensures k in SlotsRead(backend, 1) {
        assert SampleSlot(backend, 1, k - StripLength).index == k;
      }
    }
  }

  /** Each strip spans the viewport: its first vertex is on the left edge,
      its last on the right edge, and x grows strictly from vertex to vertex. */
  lemma StripSpansViewport(backend: Backend, buf: Channels, vp: Viewport, channel: nat)
    requires Full(buf) && channel < 2 && vp.width > 0
    ensures var s := Strip(backend, buf, vp, channel);
            && s[0].x == vp.topLeftX as real
            && s[StripLength - 1].x == (vp.topLeftX + vp.width) as real
            && forall j, j' :: 0 <= j < j' < StripLength ==> s[j].x < s[j'].x
  {
    var s := Strip(backend, buf, vp, channel);
    forall j, j' | 0 <= j < j' < StripLength ensures s[j].x < s[j'].x {
      StripXGrows(backend, buf, vp, channel, j, j');
    }
  }

  lemma StripXGrows(backend: Backend, buf: Channels, vp: Viewport, channel: nat, j: nat, j': nat)
    requires Full(buf) && channel < 2 && vp.width > 0 && j < j' < StripLength
    ensures Strip(backend, buf, vp, channel)[j].x < Strip(backend, buf, vp, channel)[j'].x
  {
    var s := Strip(backend, buf, vp, channel);
    assert s[j] == StripVertex(backend, buf, vp, channel, j);
    assert s[j'] == StripVertex(backend, buf, vp, channel, j');
    StripXMonotone(vp, j, j');
  }

  lemma StripXMonotone(vp: Viewport, j: nat, j': nat)
    requires vp.width > 0 && j < j'
    ensures StripX(vp, j) < StripX(vp, j')
  {
    var a, b, w := j as real / 255.0, j' as real / 255.0, vp.width as real;
    ScaleGrows(a, b, w);
    assert StripX(vp, j) == vp.topLeftX as real + a * w;
    assert StripX(vp, j') == vp.topLeftX as real + b * w;
  }

  lemma ScaleGrows(a: real, b: real, w: real)
    requires a < b && w > 0.0
    ensures a * w < b * w
  {
    assert b * w - a * w == (b - a) * w;
  }

  /** With the default viewport and a silent buffer the left strip is the
      horizontal line y = -0.34 and the right strip the line y = 0.32. */
  lemma SilentBaselines(backend: Backend, buf: Channels, j: nat)
    requires Full(buf) && j < StripLength
    requires forall k :: 0 <= k < BufferSize ==> buf.left[k] == 0.0 && buf.right[k] == 0.0
    ensures BuildFrame(backend, buf, DefaultViewport).left[j].y == -0.34
    ensures BuildFrame(backend, buf, DefaultViewport).right[j].y == 0.32
  {
  }

  /** With the default viewport a sample moves its vertex by 0.3 times its
      amplitude from the channel's baseline: a full-scale 1.0 sample by +0.3,
      -1.0 by -0.3. Every vertex lies at depth 1 and is opaque white. */
  lemma AmplitudeOffset(backend: Backend, buf: Channels, channel: nat, j: nat)
    requires Full(buf) && channel < 2 && j < StripLength
    ensures var f := BuildFrame(backend, buf, DefaultViewport);
            var v := if channel == 0 then f.left[j] else f.right[j];
            var baseline := if channel == 0 then -0.34 else 0.32;
            && v.y - baseline == 0.3 * buf.Channel(channel)[SampleSlot(backend, channel, j).index]
            && v.z == 1.0 && v.col == White
  {
  }
}
