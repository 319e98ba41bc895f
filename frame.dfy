/**
 * The per-frame driver of the renderer's entry point: the framebuffer sizing,
 * the loop that clears the colour and depth buffers, and the loop that copies
 * each triangle's three vertex records into the shading program's three
 * attribute slots before asking the rasterizer to draw it.
 *
 * The rasterizer, the window and the input system are external. They are
 * represented by a `Host` whose only observable behaviour is a log of draw
 * requests (each with a snapshot of the three attribute slots) and input polls.
 */
module Frame {
  import opened Vectors
  import opened Model
  import opened Loader

  const WindowWidth: int := 800
  const WindowHeight: int := 600
  const PixNum: int := WindowWidth * WindowHeight

  /** What the clear loop writes into every pixel. */
  const DefaultColor: Vec4 := Vec4(0.0, 0.0, 0.0, 0.0)
  const DefaultDepth: real := 1.0

  /** The colour and depth targets, one entry per pixel of the window. */
  class Framebuffer {
    const width: int
    const height: int
    const colorbuffer: array<Vec4>
    const depthbuffer: array<real>
    /** How many times the buffers have been cleared: lets a draw be placed
        after the clear of its own frame. */
    ghost var clears: nat

    ghost predicate Valid()
    {
      && width == WindowWidth && height == WindowHeight
      && colorbuffer.Length == PixNum && depthbuffer.Length == PixNum
    }

    /** Both buffers are at their default value in every pixel. */
    ghost predicate Cleared()
      reads colorbuffer, depthbuffer
    {
      && (forall i :: 0 <= i < colorbuffer.Length ==> colorbuffer[i] == DefaultColor)
      && (forall i :: 0 <= i < depthbuffer.Length ==> depthbuffer[i] == DefaultDepth)
    }

    /** The window-sized framebuffer: 800 by 600 pixels, each buffer holding
        exactly one entry per pixel. */
    constructor ()
      ensures Valid() && clears == 0
      ensures fresh(colorbuffer) && fresh(depthbuffer)
    {
      var pixNum := WindowWidth * WindowHeight;
      width := WindowWidth;
      height := WindowHeight;
      colorbuffer := new Vec4[pixNum];
      depthbuffer := new real[pixNum];
      clears := 0;
    }

    /** The clear at the start of a frame: every pixel of both buffers is
        overwritten, none skipped. */
    method Clear()
      requires Valid()
      modifies this, colorbuffer, depthbuffer
      ensures Valid() && Cleared()
      ensures clears == old(clears) + 1
    {
      var pixNum := WindowWidth * WindowHeight;
      for i := 0 to pixNum
        invariant forall k :: 0 <= k < i ==> colorbuffer[k] == DefaultColor
        invariant forall k :: 0 <= k < i ==> depthbuffer[k] == DefaultDepth
        invariant clears == old(clears)
      {
        colorbuffer[i] := DefaultColor;
        depthbuffer[i] := DefaultDepth;
      }
      clears := clears + 1;
    }
  }

  /** The per-corner input block of the shading program. */
  datatype Attribute = Attribute(position: Vec3, texcoord: Vec2, normal: Vec3, tangent: Vec4)

  /** The shading program, reduced to its three attribute slots, one per
      corner of the triangle being drawn. */
  class Program {
    const attribs: array<Attribute>

    ghost predicate Valid()
    {
      attribs.Length == 3
    }

    constructor ()
      ensures Valid() && fresh(attribs)
    {
      attribs := new Attribute[3];
    }
  }

  /** What the external world observes: a draw request, with the three slots
      as they were at that moment and the clear count of the framebuffer, or
      one poll of the input system. */
  datatype Event = Draw(slots: seq<Attribute>, clears: nat) | Poll

  /** The rasterizer, window and input system. */
  class Host {
    ghost var log: seq<Event>

    constructor ()
      ensures log == []
    {
      log := [];
    }

    /** The rasterizer draws the triangle whose corners are in the program's
        slots. What it writes into the buffers is not modelled: afterwards they
        may hold anything, but the clear count is untouched. */
    method DrawTriangle(fb: Framebuffer, program: Program)
      modifies this, fb.colorbuffer, fb.depthbuffer
      ensures log == old(log) + [Draw(program.attribs[..], fb.clears)]
    {
      log := log + [Draw(program.attribs[..], fb.clears)];
    }

    method PollEvents()
      modifies this
      ensures log == old(log) + [Poll]
    {
      log := log + [Poll];
    }
  }

  /** The attribute block a vertex record is copied into, field by field. */
  function AttributeOf(v: Vertex): Attribute
  {
    Attribute(v.position, v.texcoord, v.normal, v.tangent)
  }

  /** A mesh can be drawn when its triangle count does not run past its
      vertex buffer. */
  predicate Drawable(mesh: Mesh)
  {
    3 * mesh.faceNum <= |mesh.vertices|
  }

  /** The slots of triangle `i`: vertices 3i, 3i + 1 and 3i + 2, in order. */
  function TriangleSlots(mesh: Mesh, i: int): seq<Attribute>
    requires 0 <= i && 3 * i + 3 <= |mesh.vertices|
  {
    [AttributeOf(mesh.vertices[3 * i]), AttributeOf(mesh.vertices[3 * i + 1]), AttributeOf(mesh.vertices[3 * i + 2])]
  }

  /** The draw requests for the first `n` triangles, stamped with clear count `c`. */
  function DrawsOf(mesh: Mesh, n: int, c: nat): (r: seq<Event>)
    requires 0 <= n && 3 * n <= |mesh.vertices|
    ensures |r| == n
  {
    if n == 0 then [] else DrawsOf(mesh, n - 1, c) + [Draw(TriangleSlots(mesh, n - 1), c)]
  }

  /** Triangle i is drawn i-th, with exactly the three vertex records
      3i, 3i + 1, 3i + 2 in its slots; no draw reads a vertex at or past
      3 * faceNum. */
  lemma {:induction false} DrawsOfAt(mesh: Mesh, n: int, c: nat, i: int)
    requires 0 <= i < n && 3 * n <= |mesh.vertices|
    ensures DrawsOf(mesh, n, c)[i] == Draw(TriangleSlots(mesh, i), c)
    ensures forall j :: 0 <= j < 3 ==> DrawsOf(mesh, n, c)[i].slots[j] == AttributeOf(mesh.vertices[3 * i + j])
  {
    if i < n - 1 {
      DrawsOfAt(mesh, n - 1, c, i);
    }
  }

  /** What one frame shows the outside world: every triangle drawn once, in
      order, after the frame's clear (clear count `c`), then one input poll. */
  function FrameEvents(mesh: Mesh, c: nat): (r: seq<Event>)
    requires Drawable(mesh)
    ensures |r| == mesh.faceNum + 1 && r[mesh.faceNum] == Poll
    ensures forall i :: 0 <= i < mesh.faceNum ==> r[i].Draw? && r[i].clears == c
  {
    var draws := DrawsOf(mesh, mesh.faceNum, c);
    forall i | 0 <= i < mesh.faceNum ensures draws[i].Draw? && draws[i].clears == c {
      DrawsOfAt(mesh, mesh.faceNum, c, i);
    }
    draws + [Poll]
  }

  /** The events of frames `1..n` counted from clear count `c`: frame f's
      draws carry clear count c + f. */
  function FramesLog(mesh: Mesh, c: nat, n: nat): (r: seq<Event>)
    requires Drawable(mesh)
    ensures |r| == n * (mesh.faceNum + 1)
  {
    if n == 0 then []
    else
      var r := FramesLog(mesh, c, n - 1) + FrameEvents(mesh, c + n);
      assert |r| == (n - 1) * (mesh.faceNum + 1) + (mesh.faceNum + 1);
      r
  }

  /** Frame f (counted from 0) of a run of n frames occupies the f-th block of
      faceNum + 1 entries of the log, and that block is exactly its frame's
      events, its draws stamped with the (f + 1)-th clear after `c`. */
  lemma {:induction false} FramesLogAt(mesh: Mesh, c: nat, n: nat, f: nat)
    requires Drawable(mesh) && f < n
    ensures (f + 1) * (mesh.faceNum + 1) <= |FramesLog(mesh, c, n)|
    ensures FramesLog(mesh, c, n)[f * (mesh.faceNum + 1)..(f + 1) * (mesh.faceNum + 1)] == FrameEvents(mesh, c + f + 1)
  {
    var m := mesh.faceNum + 1;
    var before := FramesLog(mesh, c, n - 1);
    assert FramesLog(mesh, c, n) == before + FrameEvents(mesh, c + n);
    assert (f + 1) * m == f * m + m;
    if f < n - 1 {
      FramesLogAt(mesh, c, n - 1, f);
      assert FramesLog(mesh, c, n)[f * m..(f + 1) * m] == before[f * m..(f + 1) * m];
    } else {
      assert f * m == |before|;
    }
  }

  /** The triangle loop: for each triangle, its three vertex records are
      copied into the three attribute slots, then it is drawn. It starts on
      freshly cleared buffers, so every frame's draws land on a cleared
      framebuffer. */
  method DrawMesh(fb: Framebuffer, mesh: Mesh, program: Program, host: Host)
    requires program.Valid() && Drawable(mesh)
    requires fb.Cleared()
    modifies host, fb.colorbuffer, fb.depthbuffer, program.attribs
    ensures host.log == old(host.log) + DrawsOf(mesh, mesh.faceNum, fb.clears)
  {
    var faceNum := mesh.faceNum;
    for i := 0 to faceNum
      invariant host.log == old(host.log) + DrawsOf(mesh, i, fb.clears)
    {
      for j := 0 to 3
        invariant host.log == old(host.log) + DrawsOf(mesh, i, fb.clears)
        invariant forall k :: 0 <= k < j ==> program.attribs[k] == AttributeOf(mesh.vertices[3 * i + k])
      {
        var vertex := mesh.vertices[3 * i + j];
        program.attribs[j] := Attribute(vertex.position, vertex.texcoord, vertex.normal, vertex.tangent);
      }
      assert program.attribs[..] == TriangleSlots(mesh, i);
      host.DrawTriangle(fb, program);
      assert DrawsOf(mesh, i + 1, fb.clears) == DrawsOf(mesh, i, fb.clears) + [Draw(TriangleSlots(mesh, i), fb.clears)];
    }
  }

  /** One frame: clear both buffers, draw every triangle, poll input once. */
  method RenderFrame(fb: Framebuffer, mesh: Mesh, program: Program, host: Host)
    requires fb.Valid() && program.Valid() && Drawable(mesh)
    modifies fb, fb.colorbuffer, fb.depthbuffer, program.attribs, host
    ensures fb.Valid() && fb.clears == old(fb.clears) + 1
    ensures host.log == old(host.log) + FrameEvents(mesh, fb.clears)
  {
    fb.Clear();
    DrawMesh(fb, mesh, program, host);
    host.PollEvents();
  }

  /** The frame loop, run for as many frames as the window stays open. */
  method RenderLoop(fb: Framebuffer, mesh: Mesh, program: Program, host: Host, frames: nat)
    requires fb.Valid() && program.Valid() && Drawable(mesh)
    modifies fb, fb.colorbuffer, fb.depthbuffer, program.attribs, host
    ensures fb.Valid() && fb.clears == old(fb.clears) + frames
    ensures host.log == old(host.log) + FramesLog(mesh, old(fb.clears), frames)
  {
    var f := 0;
    while f < frames
      invariant 0 <= f <= frames
      invariant fb.Valid() && fb.clears == old(fb.clears) + f
      invariant host.log == old(host.log) + FramesLog(mesh, old(fb.clears), f)
    {
      RenderFrame(fb, mesh, program, host);
      f := f + 1;
    }
  }

  /** The entry point without its window, camera and uniform setup: build the
      framebuffer, load the mesh from the file and, unless loading stops at a
      failed bounds assertion, render that mesh for the given number of
      frames. */
  method Run(lines: seq<Line>, frames: nat) returns (r: BuildResult, host: Host)
    requires TangentReadsDefined(Parsed(lines))
    ensures r.Aborted? <==> exists k :: 0 <= k < |FacesOf(lines)| && !FaceInRange(lines, FacesOf(lines)[k])
    ensures r.Built? ==>
      && Buildable(Parsed(lines))
      && r.mesh.faceNum == |FacesOf(lines)|
      && r.mesh.vertices == Soup(Parsed(lines))
      && r.mesh.center == Center(r.mesh.vertices)
    ensures r.Aborted? ==> host.log == []
    ensures r.Built? ==> Drawable(r.mesh) && host.log == FramesLog(r.mesh, 0, frames)
  {
    var fb := new Framebuffer();
    host := new Host();
    r := LoadMesh(lines);
    if r.Aborted? {
      return;
    }
    var program := new Program();
    RenderLoop(fb, r.mesh, program, host, frames);
  }
}
