/** Machine integers, addresses, the ledger environment and the shape of a contract call. */
module Base {
  const U32_MAX: int := 0xFFFF_FFFF
  const U64_MAX: int := 0xFFFF_FFFF_FFFF_FFFF
  const I128_MAX: int := 0x7FFF_FFFF_FFFF_FFFF_FFFF_FFFF_FFFF_FFFF
  const I128_MIN: int := -0x8000_0000_0000_0000_0000_0000_0000_0000

  type U32 = x: int | 0 <= x <= U32_MAX
  type U64 = x: int | 0 <= x <= U64_MAX
  type I128 = x: int | I128_MIN <= x <= I128_MAX

  datatype Option<+T> = None | Some(value: T)

  datatype Address = Address(id: nat)

  /** What a call can observe of the ledger: its close time, its sequence number, and who signed. */
  datatype Env = Env(timestamp: U64, sequence: U32, auths: set<Address>)

  /** The effect of one atomic call on a world: a new world and a value, an error code, or a panic.
      The host keeps the old world in the last two cases. */
  datatype Outcome<+W, +R, +E> = Done(world: W, value: R) | Failed(error: E) | Aborted

  /** What the caller of a contract method sees. */
  datatype Reply<+R, +E> = Ok(value: R) | Err(error: E) | Panic

  function WorldAfter<W, R, E>(before: W, o: Outcome<W, R, E>): W {
    if o.Done? then o.world else before
  }

  function ReplyOf<W, R, E>(o: Outcome<W, R, E>): Reply<R, E> {
    match o
    case Done(_, v) => Ok(v)
    case Failed(e) => Err(e)
    case Aborted => Panic
  }

  predicate FitsI128(x: int) {
    I128_MIN <= x <= I128_MAX
  }

  function Checked(x: int): (r: Option<I128>)
    ensures r.Some? <==> FitsI128(x)
    ensures r.Some? ==> r.value == x
  {
    if FitsI128(x) then Some(x) else None
  }

  function CheckedAdd(a: I128, b: I128): Option<I128> { Checked(a + b) }

  function CheckedSub(a: I128, b: I128): Option<I128> { Checked(a - b) }

  function CheckedMul(a: I128, b: I128): Option<I128> { Checked(a * b) }

  /** Rust division truncates toward zero; Dafny's is Euclidean. The two agree on the
      non-negative operands, so the sign is split out. */
  function CheckedDiv(a: I128, b: I128): Option<I128> {
    var x: int, y: int := a, b;
    if y == 0 then None
    else if x >= 0 then Checked(x / y)
    else Checked(-((-x) / y))
  }
}
