/** A drawable made of a mesh and a transform. Its draw sets the shared shader's
    "model" uniform to the transform's matrix, draws the mesh, and resets the
    uniform to the identity so that other objects sharing the shader see no
    stale model matrix. */
module GameObjects {
  import opened Mgl
  import opened Transforms

  /** What the backend receives at one draw call: every matrix uniform as set
      at that moment. */
  datatype Submission = Submission(uniforms: map<string, Mat4>)

  /** A shader program, shared by every mesh that uses it: its matrix uniforms
      and the draw calls issued while it was bound. */
  class Shader {
    var uniforms: map<string, Mat4>
    ghost var submitted: seq<Submission>

    constructor ()
      ensures uniforms == map[] && submitted == []
    {
      uniforms := map[];
      submitted := [];
    }

    /** SetMat4 */
    method SetMat4(name: string, value: Mat4)
      modifies this`uniforms
      ensures uniforms == old(uniforms)[name := value]
    {
      uniforms := uniforms[name := value];
    }
  }

  /** The part of a mesh the draw needs: the shader it was created with. */
  datatype Mesh = Mesh(shader: Shader)

  /** Mesh.Draw: sets the view and projection uniforms and issues one draw call. */
  method DrawMesh(mesh: Mesh, view: Mat4, projection: Mat4)
    modifies mesh.shader
    ensures mesh.shader.uniforms == old(mesh.shader.uniforms)["view" := view]["projection" := projection]
    ensures mesh.shader.submitted == old(mesh.shader.submitted) + [Submission(mesh.shader.uniforms)]
  {
    mesh.shader.SetMat4("view", view);
    mesh.shader.SetMat4("projection", projection);
    mesh.shader.submitted := mesh.shader.submitted + [Submission(mesh.shader.uniforms)];
  }

  /** The uniforms the mesh's draw call sees inside GameObject.Draw. */
  function UniformsAtDraw(before: map<string, Mat4>, model: Mat4, view: Mat4, projection: Mat4): map<string, Mat4>
  {
    before["model" := model]["view" := view]["projection" := projection]
  }

  /** The draw call sees the model, view and projection it was given, and every
      other uniform as it was. */
  lemma UniformsAtDrawSeeArguments(before: map<string, Mat4>, model: Mat4, view: Mat4, projection: Mat4)
    ensures var u := UniformsAtDraw(before, model, view, projection);
            "model" in u && u["model"] == model &&
            "view" in u && u["view"] == view &&
            "projection" in u && u["projection"] == projection &&
            forall name :: name in before && name != "model" && name != "view" && name != "projection"
                           ==> name in u && u[name] == before[name]
  {
  }

  class GameObject {
    var transform: Transform
    const mesh: Mesh

    /** NewGameObject: the given mesh and the default transform. */
    constructor (mesh: Mesh)
      ensures this.mesh == mesh && transform == NewTransform()
    {
      this.mesh := mesh;
      transform := NewTransform();
    }

    method Draw(lib: MathLib, view: Mat4, projection: Mat4)
      modifies mesh.shader
      ensures mesh.shader.submitted
              == old(mesh.shader.submitted)
                 + [Submission(UniformsAtDraw(old(mesh.shader.uniforms), GetTransformationMatrix(lib, transform), view, projection))]
      ensures mesh.shader.uniforms
              == UniformsAtDraw(old(mesh.shader.uniforms), GetTransformationMatrix(lib, transform), view, projection)["model" := Ident4()]
      ensures "model" in mesh.shader.uniforms && mesh.shader.uniforms["model"] == Ident4()
      ensures transform == old(transform)
    {
      mesh.shader.SetMat4("model", GetTransformationMatrix(lib, transform));
      DrawMesh(mesh, view, projection);
      mesh.shader.SetMat4("model", Ident4());
    }
  }
}
