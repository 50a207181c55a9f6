/** The add-on's graphics handles: which ones Create obtains, given which
    creation calls the device refuses, and which ones the destructor
    releases. Device calls are outcomes supplied by the caller. */
module Resources {
  import opened Vertices

  /** A handle field: a null pointer or a live interface reference. */
  datatype Handle = Null | Live

  /** What Create reports to the host. */
  datatype Status = Ok | PermanentFailure

  /** The handle fields of the add-on. The device and context come from the
      host; the other five are created by the add-on itself. */
  datatype Resource =
    | Device | Context
    | VertexShader | InputLayout | PixelShader | VertexBuffer | ConstantBuffer

  const AllResources: set<Resource> :=
    {Device, Context, VertexShader, InputLayout, PixelShader, VertexBuffer, ConstantBuffer}

  /** The creation steps of init_renderer_objs, in the order it runs them. */
  const InitSteps: seq<Resource> :=
    [VertexShader, InputLayout, PixelShader, VertexBuffer, ConstantBuffer]

  predicate Distinct(s: seq<Resource>) {
    forall i, j :: 0 <= i < j < |s| ==> s[i] != s[j]
  }

  /** Init step k is reached and succeeds: no step up to and including it is
      refused by the device. */
  predicate Reached(fails: set<Resource>, k: nat) {
    forall j :: 0 <= j <= k && j < |InitSteps| ==> InitSteps[j] !in fails
  }

  /** The first step is reached when it succeeds; each later one when the
      one before it was reached and it succeeds too. */
  lemma ReachedChain(fails: set<Resource>, k: nat)
    requires k < |InitSteps|
    ensures k == 0 ==> (Reached(fails, k) <==> InitSteps[0] !in fails)
    ensures k > 0 ==> (Reached(fails, k) <==> Reached(fails, k - 1) && InitSteps[k] !in fails)
  {
  }

  /** The resources init_renderer_objs leaves behind, in closed form. */
  function CreatedBy(fails: set<Resource>): set<Resource> {
    set k | 0 <= k < |InitSteps| && Reached(fails, k) :: InitSteps[k]
  }

  /** Running steps one after another and stopping at the first one refused:
      the steps that were carried out, in order. */
  function Attempt(steps: seq<Resource>, fails: set<Resource>): (created: seq<Resource>)
    ensures created <= steps
    ensures forall r :: r in created ==> r !in fails
    ensures |created| < |steps| ==> steps[|created|] in fails
  {
    if steps == [] || steps[0] in fails then [] else [steps[0]] + Attempt(steps[1..], fails)
  }

  /** The sequential run and the closed form agree: a step is carried out
      exactly when it and every step before it succeed. */
  lemma CreatedIff(fails: set<Resource>, k: nat)
    requires k < |InitSteps|
    ensures InitSteps[k] in Attempt(InitSteps, fails) <==> Reached(fails, k)
  {
  }

  /** Create reports success exactly when every step was carried out, that
      is, when the device refuses none of them. */
  lemma InitSucceedsIff(fails: set<Resource>)
    ensures Attempt(InitSteps, fails) == InitSteps <==> Reached(fails, |InitSteps| - 1)
    ensures Reached(fails, |InitSteps| - 1) <==> forall r :: r in InitSteps ==> r !in fails
    ensures (set r | r in Attempt(InitSteps, fails)) == CreatedBy(fails)
  {
  }

  /** The live handles right after Create: the device in both builds, and in
      the Direct3D build also the borrowed context and the created objects. */
  function LiveAfterCreate(backend: Backend, fails: set<Resource>): (live: set<Resource>)
    ensures Device in live
    ensures Context in live <==> backend == Direct3D
    ensures backend == OpenGL ==> live == {Device}
    ensures backend == Direct3D ==>
              forall k :: 0 <= k < |InitSteps| ==> (InitSteps[k] in live <==> Reached(fails, k))
  {
    match backend
    case OpenGL => {Device}
    case Direct3D =>
      CreatedSteps(fails);
      {Device, Context} + CreatedBy(fails)
  }

  lemma CreatedSteps(fails: set<Resource>)
    ensures Context !in CreatedBy(fails)
    ensures forall k :: 0 <= k < |InitSteps| ==> (InitSteps[k] in CreatedBy(fails) <==> Reached(fails, k))
  {
    forall k | 0 <= k < |InitSteps| && InitSteps[k] in CreatedBy(fails) ensures Reached(fails, k) {
      var k' :| 0 <= k' < |InitSteps| && Reached(fails, k') && InitSteps[k'] == InitSteps[k];
      assert Distinct(InitSteps);
    }
  }

  /** [r] when r is live, [] otherwise. */
  function IfLive(r: Resource, live: set<Resource>): seq<Resource> {
    if r in live then [r] else []
  }

  /** The release calls the destructor makes, given the live handles: the
      constant buffer, vertex buffer, input layout, vertex shader, pixel
      shader and device, in that order, each only if live. The context is
      borrowed from the host and is never released; the OpenGL build
      releases nothing. */
  function Releases(backend: Backend, live: set<Resource>): (released: seq<Resource>)
    ensures backend == OpenGL ==> released == []
    ensures |released| <= 6
    ensures forall r :: r in released ==> r in live && r != Context
  {
    if backend == OpenGL then []
    else IfLive(ConstantBuffer, live) + IfLive(VertexBuffer, live) + IfLive(InputLayout, live)
         + IfLive(VertexShader, live) + IfLive(PixelShader, live) + IfLive(Device, live)
  }

  /** The destructor releases a handle exactly when it is live and is not
      the host's context. */
  lemma ReleasesLive(live: set<Resource>)
    ensures forall r :: r in Releases(Direct3D, live) <==> r in live && r != Context
  {
  }

  lemma AppendIfLive(a: seq<Resource>, r: Resource, live: set<Resource>)
    requires Distinct(a) && r !in a
    ensures Distinct(a + IfLive(r, live))
  {
  }

  /** No handle is released twice. */
  lemma ReleasesOnce(live: set<Resource>)
    ensures Distinct(Releases(Direct3D, live))
  {
    var s1 := IfLive(ConstantBuffer, live);
    assert VertexBuffer !in s1 && InputLayout !in s1 && VertexShader !in s1;
    assert PixelShader !in s1 && Device !in s1;
    var s2 := s1 + IfLive(VertexBuffer, live);
    AppendIfLive(s1, VertexBuffer, live);
    assert InputLayout !in s2 && VertexShader !in s2 && PixelShader !in s2 && Device !in s2;
    var s3 := s2 + IfLive(InputLayout, live);
    AppendIfLive(s2, InputLayout, live);
    assert VertexShader !in s3 && PixelShader !in s3 && Device !in s3;
    var s4 := s3 + IfLive(VertexShader, live);
    AppendIfLive(s3, VertexShader, live);
    assert PixelShader !in s4 && Device !in s4;
    var s5 := s4 + IfLive(PixelShader, live);
    AppendIfLive(s4, PixelShader, live);
    assert Device !in s5;
    AppendIfLive(s5, Device, live);
  }

  /** Tearing down right after Create releases, in the Direct3D build, the
      acquired device and every object created, even when Create failed part
      way, each exactly once and never the host's context. */
  lemma TeardownReleasesOwned(fails: set<Resource>)
    ensures var released := Releases(Direct3D, LiveAfterCreate(Direct3D, fails));
            && (forall r :: r in released <==> r == Device || r in CreatedBy(fails))
            && Distinct(released)
            && Context !in released
  {
    var live := LiveAfterCreate(Direct3D, fails);
    ReleasesLive(live);
    ReleasesOnce(live);
    forall r | r in CreatedBy(fails) ensures r != Context {
      var k :| 0 <= k < |InitSteps| && Reached(fails, k) && InitSteps[k] == r;
    }
  }
}
