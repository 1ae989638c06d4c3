/** The argument guards applied by the Video constructor. Each returns its
    argument unchanged when it is acceptable and otherwise fails with the name
    of the parameter it was given, the way an invalid-argument exception
    carries its parameter name. */
module Guards {
  import opened Wrappers

  /** A .NET TimeSpan: a signed 64-bit count of 100-nanosecond ticks. */
  const MinTicks: int := -0x8000_0000_0000_0000
  const MaxTicks: int := 0x7FFF_FFFF_FFFF_FFFF
  type TimeSpan = t: int | MinTicks <= t <= MaxTicks

  /** A TimeSpan that passed the non-negative guard (zero included). */
  type NonNegativeTimeSpan = t: TimeSpan | 0 <= t

  /** Passes a non-null reference through; a null one is blamed on `name`. */
  function GuardNotNull<T, N>(o: Option<T>, name: N): (r: Result<T, N>)
    ensures r.Success? <==> o.Some?
    ensures r.Success? ==> Some(r.value) == o
    ensures r.Failure? ==> r.error == name
  {
    match o
    case Some(v) => Success(v)
    case None => Failure(name)
  }

  /** Passes a zero or positive span through; a negative one is blamed on `name`. */
  function GuardNotNegative<N>(t: TimeSpan, name: N): (r: Result<NonNegativeTimeSpan, N>)
    ensures r.Success? <==> t >= 0
    ensures r.Success? ==> r.value == t
    ensures r.Failure? ==> r.error == name
  {
    if t < 0 then Failure(name) else Success(t)
  }
}
