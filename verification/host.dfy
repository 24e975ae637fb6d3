/** What the core calls on its host and cannot be computed exactly here:
    the transcendental functions of JavaScript's `Math` (and GLSL's `sin`),
    and three.js's conversion of a colour description to linear RGB.
    They are passed in as function values; `Lawful` states the only facts
    about them that the model relies on. */
module Host {
  import opened Geometry

  /** `Math.PI` as a decimal; it only ever feeds the abstract `sin` and `cos`. */
  const Pi: real := 3.141592653589793

  /** A colour as the generator describes it to three.js: an HSL triple or a CSS hex code. */
  datatype Swatch = Hsl(h: real, s: real, l: real) | Hex(code: string)

  datatype Runtime = Runtime(
    sin: real -> real,
    cos: real -> real,
    acos: real -> real,
    cbrt: real -> real,
    pow: (real, real) -> real,
    rgb: Swatch -> Vec3)

  /** The range facts the model may use about the host functions. */
  ghost predicate Lawful(rt: Runtime) {
    && (forall a: real :: rt.sin(a) * rt.sin(a) + rt.cos(a) * rt.cos(a) == 1.0)
    && (forall a: real :: -1.0 <= rt.sin(a) <= 1.0)
    && (forall a: real :: -1.0 <= rt.cos(a) <= 1.0)
    && rt.sin(0.0) == 0.0 && rt.cos(0.0) == 1.0
    && (forall u: real :: 0.0 <= u < 1.0 ==> 0.0 <= rt.cbrt(u) < 1.0)
    && (forall u: real :: 0.0 <= u < 1.0 ==> 0.0 <= rt.pow(u, 0.9) < 1.0)
  }
}
