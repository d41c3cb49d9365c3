/** Values shared by the render sub-app and its producers: the failure
    wrappers, transforms, asset handles and the render-command stream
    items that the vector and text producers emit. */
module Common {

  /** Rust's `Option`. */
  datatype Option<+T> = None | Some(value: T)

  /** The outcome of a step that may panic (an `unwrap` on an error or on a
      missing resource). A panic ends the frame; nothing is retried. */
  datatype Result<+T, +E> = Ok(value: T) | Err(error: E) {
    predicate IsFailure() { Err? }

    function PropagateFailure<U>(): Result<U, E>
      requires Err?
    {
      Err(error)
    }

    function Extract(): T
      requires Ok?
    {
      value
    }
  }

  /** A three-component vector of the scene graph. Coordinates are reals:
      NaN and the other floating-point edge cases are not modelled. */
  datatype Vec3 = Vec3(x: real, y: real, z: real)

  datatype Quat = Quat(x: real, y: real, z: real, w: real)

  /** Bevy's `GlobalTransform`: the resolved world transform of an entity. */
  datatype GlobalTransform = GlobalTransform(translation: Vec3, rotation: Quat, scale: Vec3)

  /** Bevy's asset `HandleId`, modelled by its total order only. */
  type HandleId = nat

  /** A parsed SVG document (`PicoSvg`); its contents are opaque here. */
  datatype Svg = Svg(id: nat)

  /** The coarse draw-order bucket a render command is tagged with. */
  datatype RenderLayer = Background | Middle | Foreground

  /** What a render command draws. The vector producer's payload is the
      SVG and the instance transform. */
  datatype RenderType =
    | Text(text: string, transform: GlobalTransform)
    | SvgImage(svg: Svg, transform: GlobalTransform)

  datatype RenderCommand = RenderCommand(kind: RenderType, layer: RenderLayer)
}
