/**
 * The animation script's vocabulary. In the program an entry of the sequence is either an object
 * tagged by its `type` field (`rotate`, `scale`, `bounce`) or a bare string such as `'center'`;
 * here the two forms become one closed sum type.
 */
module Actions {
  import opened Wrappers

  datatype Action =
    /** `{type: 'rotate', axis, degrees}`; any character can stand as the axis, only X, Y and Z act. */
    | Rotate(axis: char, degrees: real)
    /** `{type: 'scale', scale}`: grow or shrink towards `scale`. */
    | Scale(scale: real)
    /** A bounce. `Some(d)` is `{type: 'bounce', duration: d}`; `None` is the bare string `'bounce'`,
        whose duration is undefined, so it never finishes. */
    | Bounce(duration: Option<real>)
    /** Any other bare string, such as `'center'`. */
    | Named(name: string)

  /** The built-in script: four half turns about Z, grow to twice the size, bounce with no end,
      return to the centre. */
  const DEFAULT_SEQUENCE: seq<Action> := [
    Rotate('Z', 180.0),
    Rotate('Z', -180.0),
    Rotate('Z', -180.0),
    Rotate('Z', 180.0),
    Scale(2.0),
    Bounce(None),
    Named("center")
  ]
}
