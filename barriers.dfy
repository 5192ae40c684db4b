/** Resource states and the commands a command list records, with the reference
    semantics of D3D12's legacy resource barriers: a transition is legal only when the
    resource is in the barrier's "before" state, and it leaves the resource in the
    "after" state; a command that reads or writes a resource needs it in a given state.
    Replay runs a recorded list against a table of states and fails at the first
    command that finds a resource in the wrong state. */
module Barriers {
  import opened Failures

  /** The D3D12_RESOURCE_STATES the renderers use, one constructor each. */
  datatype ResourceState =
    | Present
    | RenderTarget
    | CopySource
    | CopyDest
    | UnorderedAccess
    | Common
    | GenericRead

  /** A GPU resource: back buffer `slot` of the swap chain's `generation`-th set of
      buffers, the compute renderer's off-screen image, or the `serial`-th committed
      buffer the device created. */
  datatype ResourceId =
    | BackBuffer(generation: nat, slot: nat)
    | FrameBuffer
    | Committed(serial: nat)

  /** The commands whose legality depends on resource states, in the order recorded. */
  datatype Command =
    | Barrier(resource: ResourceId, before: ResourceState, after: ResourceState)
    | ClearRenderTarget(target: ResourceId, rtv: nat)
    | DrawIndexed(target: ResourceId, indexCount: nat)
    | Dispatch(target: ResourceId, x: nat, y: nat, z: nat)
    | Copy(dst: ResourceId, src: ResourceId)
    | UploadCopy(dst: ResourceId, src: ResourceId, size: nat)

  type States = map<ResourceId, ResourceState>

  predicate InState(s: States, r: ResourceId, st: ResourceState) {
    r in s && s[r] == st
  }

  /** The state demand a command places on the resources it touches. The buffer
      upload is not checked: the copy queue promotes COMMON buffers implicitly. */
  predicate Admits(s: States, c: Command) {
    match c
    case Barrier(r, before, _) => InState(s, r, before)
    case ClearRenderTarget(t, _) => InState(s, t, RenderTarget)
    case DrawIndexed(t, _) => InState(s, t, RenderTarget)
    case Dispatch(t, _, _, _) => InState(s, t, UnorderedAccess)
    case Copy(dst, src) => InState(s, dst, CopyDest) && InState(s, src, CopySource)
    case UploadCopy(_, _, _) => true
  }

  /** Executing one command: None when the command finds a resource in the wrong state. */
  function Step(s: States, c: Command): (r: Option<States>)
    ensures r.Some? <==> Admits(s, c)
    ensures r.Some? && c.Barrier? ==> r.value == s[c.resource := c.after]
    ensures r.Some? && !c.Barrier? ==> r.value == s
  {
    if !Admits(s, c) then None
    else if c.Barrier? then Some(s[c.resource := c.after])
    else Some(s)
  }

  /** Executing a recorded list from the states `s` it starts in. */
  function Replay(s: States, cmds: seq<Command>): Option<States>
    decreases |cmds|
  {
    if cmds == [] then Some(s)
    else
      match Step(s, cmds[0])
      case None => None
      case Some(t) => Replay(t, cmds[1..])
  }

  /** Replaying `a + b` is replaying `a`, then `b` from where `a` left the states. */
  lemma {:induction false} ReplayAppend(s: States, a: seq<Command>, b: seq<Command>)
    ensures Replay(s, a + b) == (match Replay(s, a) case None => None case Some(t) => Replay(t, b))
    decreases |a|
  {
    if a == [] {
      assert a + b == b;
    } else {
      assert (a + b)[0] == a[0];
      assert (a + b)[1..] == a[1..] + b;
      match Step(s, a[0])
      case None =>
      case Some(t) => ReplayAppend(t, a[1..], b);
    }
  }

  /** Appending one command to a list whose replay succeeded. */
  lemma ReplaySnoc(s: States, a: seq<Command>, c: Command, t: States)
    requires Replay(s, a) == Some(t)
    ensures Replay(s, a + [c]) == Step(t, c)
  {
    ReplayAppend(s, a, [c]);
    assert [c][1..] == [];
  }

  /** A successful replay never loses track of a resource: the keys stay the same. */
  lemma {:induction false} ReplayKeepsKeys(s: States, cmds: seq<Command>)
    requires Replay(s, cmds).Some?
    ensures Replay(s, cmds).value.Keys == s.Keys
    decreases |cmds|
  {
    if cmds != [] {
      var t := Step(s, cmds[0]).value;
      assert t.Keys == s.Keys;
      ReplayKeepsKeys(t, cmds[1..]);
    }
  }

  /** A barrier and its mirror image leave the states as they were. */
  lemma BarrierRoundTrip(s: States, r: ResourceId, x: ResourceState, y: ResourceState)
    requires InState(s, r, x)
    ensures Replay(s, [Barrier(r, x, y), Barrier(r, y, x)]) == Some(s)
  {
    var t := s[r := y];
    assert Step(s, Barrier(r, x, y)) == Some(t);
    assert [Barrier(r, x, y), Barrier(r, y, x)][1..] == [Barrier(r, y, x)];
    assert t[r := x] == s;
    assert Step(t, Barrier(r, y, x)) == Some(s);
    assert Replay(t, [Barrier(r, y, x)]) == Some(s) by {
      assert [Barrier(r, y, x)][1..] == [];
    }
  }
}
