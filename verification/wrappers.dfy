/** Failure-compatible result types shared by every module of the model. */
module Wrappers {

  datatype Option<+T> = None | Some(value: T)

  datatype Result<+R, +E> = Success(value: R) | Failure(error: E) {
    predicate IsFailure() {
      Failure?
    }

    function PropagateFailure<U>(): Result<U, E>
      requires Failure?
    {
      Failure(error)
    }

    function Extract(): R
      requires Success?
    {
      value
    }
  }

  /** The two ways the renderer stops abnormally: `Shader::Bind` throws on a
      program id of 0, and `Texture2D::Bind` fails its debug assertion on a
      texture whose image never decoded. */
  datatype Fault = ShaderNotInitialized | TextureNotInitialized
}
