/**
 * The shared state of the OpenGL3 renderer as the 2D layer sees it
 * (header/local.h): the fields of an image it draws from, the shader
 * programs it activates, and the cached "currently bound" vertex array and
 * shader program that GL3_UseProgram and GL3_BindVAO keep so that redundant
 * binds never reach the driver.
 *
 * Every call into OpenGL (and into the C allocator) is recorded as an Event
 * in a ghost trace; the cache invariant says the cached handles are always
 * those of the last bind in that trace.
 */
module GL3Local {

  datatype Option<+T> = None | Some(value: T)

  /** C's 32-bit signed int, where a cast to unsigned matters. */
  newtype i32 = x: int | -0x8000_0000 <= x < 0x8000_0000

  /** The fields of gl3image_t that drawing reads. */
  datatype Image = Image(width: int, height: int, texnum: nat,
                         sl: real, tl: real, sh: real, th: real)

  /** gl3ShaderInfo_t: a linked program and its colour uniform location. */
  datatype ShaderInfo = ShaderInfo(shaderProgram: nat, uniColor: int)

  /** A colour as passed to glUniform4f, in exact arithmetic. */
  datatype RGBA = RGBA(r: real, g: real, b: real, a: real)

  datatype TexParameter = MinFilterLinear | MagFilterLinear

  /** One external call issued by the renderer. */
  datatype Event =
    | UseProgram(program: nat)                          // glUseProgram
    | BindVertexArray(vao: nat)                         // glBindVertexArray
    | Bind(texnum: nat)                                 // GL3_Bind, the texture cache's own bind
    | BindTexture(tex: nat)                             // glBindTexture(GL_TEXTURE_2D, ...)
    | BindBuffer(vbo: nat)                              // glBindBuffer(GL_ARRAY_BUFFER, ...)
    | BufferData(values: seq<real>)                     // glBufferData(..., GL_STREAM_DRAW)
    | DrawStrip(first: nat, count: nat)                 // glDrawArrays(GL_TRIANGLE_STRIP, ...)
    | Uniform4(location: int, color: RGBA)              // glUniform4f
    | EnableBlend                                       // glEnable(GL_BLEND)
    | DisableBlend                                      // glDisable(GL_BLEND)
    | GenTexture(tex: nat)                              // glGenTextures
    | TexImage(cols: int, rows: int, pixels: seq<bv32>) // glTexImage2D
    | SetTexParameter(p: TexParameter)                  // glTexParameteri
    | DeleteTexture(tex: nat)                           // glDeleteTextures
    | Malloc(bytes: int)                                // malloc
    | Free                                              // free

  /** The two pieces of pipeline state the renderer caches. */
  datatype BindTarget = Program | VertexArray

  predicate Binds(e: Event, target: BindTarget) {
    match target
    case Program => e.UseProgram?
    case VertexArray => e.BindVertexArray?
  }

  function BoundName(e: Event, target: BindTarget): nat
    requires Binds(e, target)
  {
    match target
    case Program => e.program
    case VertexArray => e.vao
  }

  function BindEvent(target: BindTarget, name: nat): (e: Event)
    ensures Binds(e, target) && BoundName(e, target) == name
    ensures forall other :: other != target ==> !Binds(e, other)
  {
    match target
    case Program => UseProgram(name)
    case VertexArray => BindVertexArray(name)
  }

  /** Some call of `t` binds `target`. */
  predicate BindsIn(t: seq<Event>, target: BindTarget) {
    exists k :: 0 <= k < |t| && Binds(t[k], target)
  }

  /**
   * What is bound to `target` once the calls of `t` have run on a fresh
   * context: the name of the last bind in `t`, or 0 (OpenGL's default
   * program and vertex array) when `t` binds nothing.
   */
  function Current(t: seq<Event>, target: BindTarget): nat
  {
    if t == [] then 0
    else if Binds(t[|t| - 1], target) then BoundName(t[|t| - 1], target)
    else Current(t[..|t| - 1], target)
  }

  /**
   * The calls GL3_UseProgram (target Program) or GL3_BindVAO (target
   * VertexArray) issues when `current` is cached and `name` is requested.
   */
  function BindCalls(target: BindTarget, current: nat, name: nat): (calls: seq<Event>)
    ensures |calls| <= 1
    ensures calls == [] <==> name == current
    ensures calls != [] ==> calls == [BindEvent(target, name)]
  {
    if name != current then [BindEvent(target, name)] else []
  }

  /** A later bind of `target` hides every earlier one; other calls do not touch it. */
  lemma {:induction false} CurrentAppend(t: seq<Event>, u: seq<Event>, target: BindTarget)
    ensures Current(t + u, target) == if BindsIn(u, target) then Current(u, target) else Current(t, target)
    decreases |u|
  {
    if u == [] {
      assert t + u == t;
      assert !BindsIn(u, target);
    } else {
      var last := u[|u| - 1];
      var init := u[..|u| - 1];
      assert (t + u)[|t + u| - 1] == last;
      assert (t + u)[..|t + u| - 1] == t + init;
      if Binds(last, target) {
        assert BindsIn(u, target) by { assert Binds(u[|u| - 1], target); }
      } else {
        CurrentAppend(t, init, target);
        assert BindsIn(u, target) <==> BindsIn(init, target) by {
          if BindsIn(u, target) {
            var k :| 0 <= k < |u| && Binds(u[k], target);
            assert k < |init| && init[k] == u[k];
          }
          if BindsIn(init, target) {
            var k :| 0 <= k < |init| && Binds(init[k], target);
            assert u[k] == init[k];
          }
        }
      }
    }
  }

  /**
   * Idempotence: two requests for the same name issue the bind at most
   * once in total, and the second request issues nothing.
   */
  lemma BindTwiceIssuesOnce(target: BindTarget, current: nat, name: nat)
    ensures BindCalls(target, name, name) == []
    ensures |BindCalls(target, current, name) + BindCalls(target, name, name)| <= 1
  {
  }

  /**
   * The calls of one bind helper leave the context bound to the requested
   * name, and leave the other piece of state as it was.
   */
  lemma {:induction false} BindCallsEffect(t: seq<Event>, target: BindTarget, name: nat)
    ensures Current(t + BindCalls(target, Current(t, target), name), target) == name
    ensures forall other :: other != target ==>
              Current(t + BindCalls(target, Current(t, target), name), other) == Current(t, other)
  {
    var calls := BindCalls(target, Current(t, target), name);
    CurrentAppend(t, calls, target);
    forall other | other != target
      ensures Current(t + calls, other) == Current(t, other)
    {
      CurrentAppend(t, calls, other);
      assert !BindsIn(calls, other);
    }
    if calls == [] {
      assert t + calls == t;
    } else {
      assert calls == [BindEvent(target, name)];
      assert BindsIn(calls, target) by { assert Binds(calls[0], target); }
    }
  }

  /** Concatenation of call sequences is associative. */
  lemma AppendAssoc(a: seq<Event>, b: seq<Event>, c: seq<Event>)
    ensures a + (b + c) == a + b + c
  {
  }

  /** No call of `t` takes or releases heap memory. */
  predicate NoHeapCalls(t: seq<Event>) {
    forall i :: 0 <= i < |t| ==> !t[i].Malloc? && !t[i].Free?
  }

  lemma NoHeapCallsAppend(a: seq<Event>, b: seq<Event>)
    requires NoHeapCalls(a) && NoHeapCalls(b)
    ensures NoHeapCalls(a + b)
  {
    forall i | 0 <= i < |a + b|
      ensures !(a + b)[i].Malloc? && !(a + b)[i].Free?
    {
      if i >= |a| { assert (a + b)[i] == b[i - |a|]; }
    }
  }

  lemma NoHeapCallsCount(t: seq<Event>, bytes: int)
    requires NoHeapCalls(t)
    ensures multiset(t)[Malloc(bytes)] == 0 && multiset(t)[Free] == 0
  {
    assert Malloc(bytes) !in t;
    assert Free !in t;
  }

  /**
   * gl3state_t, reduced to what the 2D layer uses: the cached bind state
   * and the two 2D shaders, plus the ghost trace of issued calls.
   */
  class GL3State {
    var currentVAO: nat
    var currentShaderProgram: nat
    const si2D: ShaderInfo
    const si2Dcolor: ShaderInfo
    ghost var trace: seq<Event>

    /** The cache always reflects the last bind actually issued. */
    ghost predicate Valid()
      reads this
    {
      && currentShaderProgram == Current(trace, Program)
      && currentVAO == Current(trace, VertexArray)
    }

    /** A zero-initialised gl3state on a fresh context. */
    constructor (si2D: ShaderInfo, si2Dcolor: ShaderInfo)
      ensures Valid() && trace == []
      ensures currentVAO == 0 && currentShaderProgram == 0
      ensures this.si2D == si2D && this.si2Dcolor == si2Dcolor
    {
      currentVAO := 0;
      currentShaderProgram := 0;
      this.si2D := si2D;
      this.si2Dcolor := si2Dcolor;
      trace := [];
    }

    /** GL3_UseProgram */
    method UseProgram(shaderProgram: nat)
      requires Valid()
      modifies this
      ensures Valid()
      ensures currentShaderProgram == shaderProgram
      ensures currentVAO == old(currentVAO)
      ensures trace == old(trace) + BindCalls(Program, old(currentShaderProgram), shaderProgram)
    {
      if shaderProgram != currentShaderProgram {
        currentShaderProgram := shaderProgram;
        trace := trace + [BindEvent(Program, shaderProgram)];
      }
    }

    /** GL3_BindVAO */
    method BindVAO(vao: nat)
      requires Valid()
      modifies this
      ensures Valid()
      ensures currentVAO == vao
      ensures currentShaderProgram == old(currentShaderProgram)
      ensures trace == old(trace) + BindCalls(VertexArray, old(currentVAO), vao)
    {
      if vao != currentVAO {
        currentVAO := vao;
        trace := trace + [BindEvent(VertexArray, vao)];
      }
    }

    /** Idempotence of GL3_UseProgram: a repeated request adds nothing to the first one's calls. */
    method UseProgramTwice(shaderProgram: nat)
      requires Valid()
      modifies this
      ensures Valid()
      ensures currentShaderProgram == shaderProgram && Current(trace, Program) == shaderProgram
      ensures |trace| <= |old(trace)| + 1
      ensures trace == old(trace) + BindCalls(Program, old(currentShaderProgram), shaderProgram)
    {
      UseProgram(shaderProgram);
      UseProgram(shaderProgram);
    }

    /** Idempotence of GL3_BindVAO: a repeated request adds nothing to the first one's calls. */
    method BindVAOTwice(vao: nat)
      requires Valid()
      modifies this
      ensures Valid()
      ensures currentVAO == vao && Current(trace, VertexArray) == vao
      ensures |trace| <= |old(trace)| + 1
      ensures trace == old(trace) + BindCalls(VertexArray, old(currentVAO), vao)
    {
      BindVAO(vao);
      BindVAO(vao);
    }

    /**
     * Records a call that goes straight to OpenGL or the allocator. Binding
     * a program or a vertex array this way would bypass the cache, so it is
     * not allowed.
     */
    ghost method Issue(e: Event)
      requires Valid()
      requires !Binds(e, Program) && !Binds(e, VertexArray)
      modifies this`trace
      ensures Valid()
      ensures trace == old(trace) + [e]
    {
      trace := trace + [e];
    }
  }
}
