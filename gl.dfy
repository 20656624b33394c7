/** The slice of OpenGL the loader talks to: a log of the calls it issues and the
    two bindings those calls change. Object names that `glGen*` hands out are
    supplied by the caller; nothing here models the driver's own bookkeeping. */
module Gl {

  /** A `glm.vec3`. */
  datatype Vec3 = Vec3(x: real, y: real, z: real)

  /** One GL call, with the arguments the loader passes. A uniform is named by its
      program and its name; the `glGetUniformLocation` lookup is folded into it. */
  datatype Call =
    | GenVertexArrays(name: nat)
    | GenBuffers(name: nat)
    | BindVertexArray(name: nat)
    | BindArrayBuffer(name: nat)
    | BufferData(byteSize: nat, data: seq<real>)
    | VertexAttribPointer(index: nat, size: nat, byteStride: nat, byteOffset: nat)
    | EnableVertexAttribArray(index: nat)
    | Uniform3fv(program: nat, uniform: string, vector: Vec3)
    | Uniform1f(program: nat, uniform: string, scalar: real)
    | DrawTriangles(first: nat, count: nat)
    | DeleteBuffers(name: nat)
    | DeleteVertexArrays(name: nat)

  /** The vertex-array binding after `c`: binding 0 unbinds, and deleting the
      bound vertex array reverts the binding to 0. */
  function VertexArrayBindingAfter(binding: nat, c: Call): nat {
    match c
    case BindVertexArray(name) => name
    case DeleteVertexArrays(name) => if binding == name then 0 else binding
    case _ => binding
  }

  /** The `GL_ARRAY_BUFFER` binding after `c`, with the same deletion rule. */
  function ArrayBufferBindingAfter(binding: nat, c: Call): nat {
    match c
    case BindArrayBuffer(name) => name
    case DeleteBuffers(name) => if binding == name then 0 else binding
    case _ => binding
  }

  /** The current GL context, made explicit and passed to every operation that issues calls. */
  class Context {
    ghost var calls: seq<Call>
    var vertexArrayBinding: nat
    var arrayBufferBinding: nat

    constructor ()
      ensures calls == [] && vertexArrayBinding == 0 && arrayBufferBinding == 0
    {
      calls := [];
      vertexArrayBinding := 0;
      arrayBufferBinding := 0;
    }

    /** Issues `c`: it is logged and the bindings move as GL moves them. */
    method Issue(c: Call)
      modifies this
      ensures calls == old(calls) + [c]
      ensures vertexArrayBinding == VertexArrayBindingAfter(old(vertexArrayBinding), c)
      ensures arrayBufferBinding == ArrayBufferBindingAfter(old(arrayBufferBinding), c)
    {
      calls := calls + [c];
      vertexArrayBinding := VertexArrayBindingAfter(vertexArrayBinding, c);
      arrayBufferBinding := ArrayBufferBindingAfter(arrayBufferBinding, c);
    }
  }
}
