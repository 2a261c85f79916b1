/** Decoding the loosely typed argument map of a tool call. */
module Arguments {
  import opened Wrappers
  import opened Values

  /** `n` is `f` with its fraction dropped, rounding toward zero as Go's `int(f)` does. */
  predicate TruncatedTowardZero(f: real, n: int) {
    (0.0 <= f ==> n as real <= f < n as real + 1.0) &&
    (f < 0.0 ==> n as real - 1.0 < f <= n as real)
  }

  function Truncate(f: real): (n: int)
    ensures TruncatedTowardZero(f, n)
  {
    if f >= 0.0 then f.Floor else -((-f).Floor)
  }

  /** Only one integer is `f` truncated toward zero. */
  lemma TruncationIsUnique(f: real, m: int, n: int)
    requires TruncatedTowardZero(f, m) && TruncatedTowardZero(f, n)
    ensures m == n
  {
  }

  /** `getIntFromArgs`: a float argument truncated toward zero, an int argument as
      it is, and `default` when the key is absent or holds anything else. */
  function GetInt(args: Args, key: string, default: int): (n: int)
    ensures key !in args || !(args[key].ArgInt? || args[key].ArgFloat?) ==> n == default
    ensures key in args && args[key].ArgInt? ==> n == args[key].i
    ensures key in args && args[key].ArgFloat? ==> TruncatedTowardZero(args[key].f, n)
  {
    if key in args then
      match args[key]
      case ArgFloat(f) => Truncate(f)
      case ArgInt(i) => i
      case _ => default
    else default
  }

  /** The validation error naming a missing required argument. */
  function Missing(key: string): Error {
    Validation(key + " parameter is required")
  }

  /** The check every handler makes of its required text arguments: present, a
      string, and not empty; otherwise "<key> parameter is required". */
  function RequiredString(args: Args, key: string): (r: Result<string, Error>)
    ensures r.Success? <==> key in args && args[key].ArgString? && args[key].s != ""
    ensures r.Success? ==> r.value == args[key].s
    ensures r.Failure? ==> r.error == Missing(key)
  {
    if key in args && args[key].ArgString? && args[key].s != "" then Success(args[key].s)
    else Failure(Validation(key + " parameter is required"))
  }
}
