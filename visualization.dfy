/** CVisualizationWaveForm: the sample buffer it fills from the host's audio
    callback, the frame it builds for each Render call, and the graphics
    handles it acquires in Create and gives back in its destructor. */
module Visualization {
  import opened Waveform
  import opened Vertices
  import opened Resources

  class WaveformVisualization {
    /** The build's rendering backend (a compile-time switch in the add-on). */
    const backend: Backend

    /** m_fWaveform[2][512]: channel 0 is left, channel 1 is right. */
    var waveform: array2<Sample>
    var viewport: Viewport

    var device: Handle
    var context: Handle
    var vShader: Handle
    var pShader: Handle
    var inputLayout: Handle
    var vBuffer: Handle
    var cViewPort: Handle

    ghost predicate Valid()
      reads this
    {
      waveform.Length0 == 2 && waveform.Length1 == BufferSize
    }

    /** The buffer as values. */
    function Snapshot(): (buf: Channels)
      reads this, waveform
      requires Valid()
      ensures Full(buf)
    {
      Channels(seq(BufferSize, k requires 0 <= k < BufferSize && Valid() reads this, waveform => waveform[0, k]),
               seq(BufferSize, k requires 0 <= k < BufferSize && Valid() reads this, waveform => waveform[1, k]))
    }

    function HandleOf(r: Resource): Handle
      reads this
    {
      match r
      case Device => device
      case Context => context
      case VertexShader => vShader
      case InputLayout => inputLayout
      case PixelShader => pShader
      case VertexBuffer => vBuffer
      case ConstantBuffer => cViewPort
    }

    /** The handle fields that are not null. */
    function LiveHandles(): set<Resource>
      reads this
    {
      set r | r in AllResources && HandleOf(r) == Live
    }

    /** Every handle starts out null. */
    constructor (backend: Backend)
      ensures Valid() && fresh(waveform)
      ensures this.backend == backend
      ensures LiveHandles() == {}
    {
      this.backend := backend;
      waveform := new Sample[2, BufferSize];
      device, context := Null, Null;
      vShader, pShader, inputLayout, vBuffer, cViewPort := Null, Null, Null, Null, Null;
    }

    /** Deinterleaves one chunk of stereo samples into the buffer. The write
        cursor restarts the chunk from its first pair until all 512 slots are
        written, and stops after the 512th even in the middle of the chunk. */
    method AudioData(data: seq<Sample>)
      requires Valid() && Consumable(data)
      modifies waveform
      ensures Snapshot() == AfterAudioData(data)
    {
      ghost var pairs := PairCount(data);
      assert pairs > 0;
      var ipos := 0;
      while ipos < BufferSize
        invariant 0 <= ipos <= BufferSize
        invariant ipos < BufferSize ==> ipos % pairs == 0
        invariant forall k :: 0 <= k < ipos ==> SlotHolds(data, k)
        decreases BufferSize - ipos
      {
        ghost var start := ipos;
        var i := 0;
        while i < |data|
          invariant i == 2 * (ipos - start) && start <= ipos < BufferSize
          invariant |data| % 2 == 0 ==> i <= |data|
          invariant forall k :: 0 <= k < ipos ==> SlotHolds(data, k)
        {
          assert ipos - start < pairs;
          ModOffset(start, ipos - start, pairs);
          label Before:
          waveform[0, ipos] := data[i];
          waveform[1, ipos] := data[i + 1];
          forall k | 0 <= k < ipos ensures SlotHolds(data, k) {
            assert old@Before(SlotHolds(data, k));
          }
          assert SlotHolds(data, ipos);
          ipos := ipos + 1;
          if ipos >= BufferSize {
            break;
          }
          i := i + 2;
        }
        if ipos < BufferSize {
          assert ipos == start + pairs;
          ModOffset(start, 0, pairs);
          ModShift(ipos, pairs);
        }
      }
      var after := AfterAudioData(data);
      forall k | 0 <= k < BufferSize
        ensures Snapshot().left[k] == after.left[k] && Snapshot().right[k] == after.right[k]
      {
        assert SlotHolds(data, k);
      }
      assert Snapshot().left == after.left;
      assert Snapshot().right == after.right;
    }

    /** Slot k of both channels holds pair k mod P of data. */
    ghost predicate SlotHolds(data: seq<Sample>, k: nat)
      reads this, waveform
      requires Valid() && Consumable(data) && k < BufferSize
    {
      var j := k % PairCount(data);
      waveform[0, k] == data[2 * j] && waveform[1, k] == data[2 * j + 1]
    }

    /** Builds the two 256-vertex line strips from the buffer and the
        viewport, as the build's branch of Render does. */
    method Render() returns (frame: Frame)
      requires Valid()
      ensures frame == BuildFrame(backend, Snapshot(), viewport)
    {
      if backend == Direct3D {
        frame := RenderDirect3D();
      } else {
        frame := RenderOpenGL();
      }
    }

    /** The Direct3D branch: one 512-vertex array, the left channel in
        entries 0..255 and the right channel in entries 256..511, each entry
        reading the buffer slot with its own array index; the two halves are
        drawn as separate strips. */
    method RenderDirect3D() returns (frame: Frame)
      requires Valid() && backend == Direct3D
      ensures frame == BuildFrame(backend, Snapshot(), viewport)
    {
      var verts := new Vertex[2 * StripLength];
      var x0, y0 := viewport.topLeftX as real, viewport.topLeftY as real;
      var w, h := viewport.width as real, viewport.height as real;
      ghost var buf := Snapshot();
      for i := 0 to StripLength
        invariant forall j :: 0 <= j < i ==> verts[j] == StripVertex(backend, buf, viewport, 0, j)
      {
        verts[i] := Vertex(x0 + (i as real / 255.0) * w,
                           y0 + h * LeftCentre + waveform[0, i] * h * AmplitudeScale,
                           1.0, White);
      }
      for i := StripLength to 2 * StripLength
        invariant forall j :: 0 <= j < StripLength ==> verts[j] == StripVertex(backend, buf, viewport, 0, j)
        invariant forall j :: StripLength <= j < i ==>
                    verts[j] == StripVertex(backend, buf, viewport, 1, j - StripLength)
      {
        verts[i] := Vertex(x0 + ((i - StripLength) as real / 255.0) * w,
                           y0 + h * RightCentre + waveform[1, i] * h * AmplitudeScale,
                           1.0, White);
      }
      frame := Frame(verts[..StripLength], verts[StripLength..]);
      assert frame.left == Strip(backend, buf, viewport, 0);
      assert frame.right == Strip(backend, buf, viewport, 1);
    }

    /** The OpenGL branch: each strip's vertices are streamed to the GPU as
        they are built, left strip first, both reading buffer slots 0..255. */
    method RenderOpenGL() returns (frame: Frame)
      requires Valid() && backend == OpenGL
      ensures frame == BuildFrame(backend, Snapshot(), viewport)
    {
      var verts := new Vertex[2 * StripLength];
      var x0, y0 := viewport.topLeftX as real, viewport.topLeftY as real;
      var w, h := viewport.width as real, viewport.height as real;
      ghost var buf := Snapshot();
      var left: seq<Vertex> := [];
      for i := 0 to StripLength
        invariant |left| == i
        invariant forall j :: 0 <= j < i ==> left[j] == StripVertex(backend, buf, viewport, 0, j)
      {
        verts[i] := Vertex(x0 + (i as real / 255.0) * w,
                           y0 + h * LeftCentre + waveform[0, i] * h * AmplitudeScale,
                           1.0, White);
        left := left + [verts[i]];
      }
      var right: seq<Vertex> := [];
      for i := 0 to StripLength
        invariant |right| == i
        invariant forall j :: 0 <= j < i ==> right[j] == StripVertex(backend, buf, viewport, 1, j)
      {
        verts[i] := Vertex(x0 + (i as real / 255.0) * w,
                           y0 + h * RightCentre + waveform[1, i] * h * AmplitudeScale,
                           1.0, White);
        right := right + [verts[i]];
      }
      frame := Frame(left, right);
      assert frame.left == Strip(backend, buf, viewport, 0);
      assert frame.right == Strip(backend, buf, viewport, 1);
    }

    /** init_renderer_objs: creates the five objects one after another and
        gives up at the first refusal, leaving that handle and every later
        one null. */
    method InitRendererObjs(fails: set<Resource>) returns (ok: bool)
      requires vShader == inputLayout == pShader == vBuffer == cViewPort == Null
      modifies this`vShader, this`inputLayout, this`pShader, this`vBuffer, this`cViewPort
      ensures vShader == Live <==> Reached(fails, 0)
      ensures inputLayout == Live <==> Reached(fails, 1)
      ensures pShader == Live <==> Reached(fails, 2)
      ensures vBuffer == Live <==> Reached(fails, 3)
      ensures cViewPort == Live <==> Reached(fails, 4)
      ensures ok <==> Reached(fails, 4)
    {
      ReachedChain(fails, 0);
      ReachedChain(fails, 1);
      ReachedChain(fails, 2);
      ReachedChain(fails, 3);
      ReachedChain(fails, 4);
      if VertexShader in fails {
        return false;
      }
      vShader := Live;
      if InputLayout in fails {
        return false;
      }
      inputLayout := Live;
      if PixelShader in fails {
        return false;
      }
      pShader := Live;
      if VertexBuffer in fails {
        return false;
      }
      vBuffer := Live;
      if ConstantBuffer in fails {
        return false;
      }
      cViewPort := Live;
      return true;
    }

    /** Installs the default viewport; in the Direct3D build also takes the
        host's context, a reference to its device, and creates the renderer
        objects, reporting a permanent failure if any creation is refused. */
    method Create(fails: set<Resource>) returns (status: Status)
      requires LiveHandles() == {}
      modifies this
      ensures viewport == DefaultViewport
      ensures status == Ok <==> backend == OpenGL || Reached(fails, |InitSteps| - 1)
      ensures LiveHandles() == LiveAfterCreate(backend, fails)
      ensures waveform == old(waveform)
    {
      forall r | r in AllResources ensures HandleOf(r) == Null {
        assert r !in LiveHandles();
      }
      assert HandleOf(VertexShader) == HandleOf(InputLayout) == HandleOf(PixelShader) == Null;
      assert HandleOf(VertexBuffer) == HandleOf(ConstantBuffer) == Null;
      if backend == OpenGL {
        device := Live;
      }
      viewport := DefaultViewport;
      status := Ok;
      if backend == Direct3D {
        context := Live;
        device := Live;
        var ok := InitRendererObjs(fails);
        if !ok {
          status := PermanentFailure;
        }
      }
      LiveAfterCreateMatches(fails);
    }

    lemma LiveAfterCreateMatches(fails: set<Resource>)
      requires device == Live
      requires backend == OpenGL ==> LiveHandles() == {Device}
      requires backend == Direct3D ==> context == Live
      requires backend == Direct3D ==>
                 && (vShader == Live <==> Reached(fails, 0))
                 && (inputLayout == Live <==> Reached(fails, 1))
                 && (pShader == Live <==> Reached(fails, 2))
                 && (vBuffer == Live <==> Reached(fails, 3))
                 && (cViewPort == Live <==> Reached(fails, 4))
      ensures LiveHandles() == LiveAfterCreate(backend, fails)
    {
    }

    /** The destructor. In the Direct3D build it releases each handle that is
        not null, constant buffer first and device last, except the context,
        which is borrowed from the host. The OpenGL build releases nothing. */
    method Destroy() returns (released: seq<Resource>)
      ensures released == Releases(backend, LiveHandles())
    {
      released := [];
      if backend == Direct3D {
        ghost var live := LiveHandles();
        if cViewPort == Live {
          released := released + [ConstantBuffer];
        }
        assert released == IfLive(ConstantBuffer, live);
        if vBuffer == Live {
          released := released + [VertexBuffer];
        }
        assert released == IfLive(ConstantBuffer, live) + IfLive(VertexBuffer, live);
        if inputLayout == Live {
          released := released + [InputLayout];
        }
        assert released == IfLive(ConstantBuffer, live) + IfLive(VertexBuffer, live) + IfLive(InputLayout, live);
        if vShader == Live {
          released := released + [VertexShader];
        }
        assert released == IfLive(ConstantBuffer, live) + IfLive(VertexBuffer, live) + IfLive(InputLayout, live) + IfLive(VertexShader, live);
        if pShader == Live {
          released := released + [PixelShader];
        }
        assert released == IfLive(ConstantBuffer, live) + IfLive(VertexBuffer, live) + IfLive(InputLayout, live) + IfLive(VertexShader, live) + IfLive(PixelShader, live);
        if device == Live {
          released := released + [Device];
        }
      }
    }
  }
}
