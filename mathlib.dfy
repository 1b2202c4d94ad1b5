/**
  The small part of the C++ standard library the renderer leans on:
  the constant M_PI, the libm functions sin, cos and tan, and std::clamp.
 */
module MathLib {

  /** M_PI, with the digits <math.h> spells it with. */
  const Pi: real := 3.14159265358979323846

  /**
    std::sin, std::cos and std::tan. Their values are not modelled: every
    operation that needs one receives the library as a parameter, and a lemma
    that needs an identity of trigonometry states it as a hypothesis about
    the angles it uses.
   */
  datatype Libm = Libm(sin: real -> real, cos: real -> real, tan: real -> real)

  /** sin(a)^2 + cos(a)^2 == 1 at the angle a. */
  predicate Pythagorean(m: Libm, a: real)
  {
    m.sin(a) * m.sin(a) + m.cos(a) * m.cos(a) == 1.0
  }

  /** sin is odd and cos is even at the angle a. */
  predicate Parity(m: Libm, a: real)
  {
    m.sin(-a) == -m.sin(a) && m.cos(-a) == m.cos(a)
  }

  /**
    std::clamp(v, lo, hi). The standard leaves the call undefined when
    hi < lo, so that is the caller's obligation here.
   */
  function Clamp(v: real, lo: real, hi: real): (r: real)
    requires lo <= hi
    ensures lo <= r <= hi
    ensures lo <= v <= hi ==> r == v
    ensures v < lo ==> r == lo
    ensures hi < v ==> r == hi
  {
    if v < lo then lo else if hi < v then hi else v
  }
}
