/** The constants of common/constants.hpp and common/protocol.hpp. */
module Constants {
  const DT_SECONDS: real := 1.0 / 60.0
  const TICKS_PER_SNAPSHOT := 3

  const ARENA_WIDTH: real := 1280.0
  const ARENA_HEIGHT: real := 720.0
  const PLAYER_SPEED: real := 240.0

  const PROTOCOL_VERSION := 2
  const MAX_PLAYERS := 8
  const MAX_SNAPSHOT_BYTES := 1 + 4 + 2 + MAX_PLAYERS * (2 + 4 + 4 + 4 + 4 + 4)

  const INPUT_HISTORY_SIZE := 120
  const SNAPSHOT_HISTORY_SIZE := 32
  const INTERP_DELAY_MS := 100

  const CLIENT_TIMEOUT_NS := 3_000_000_000
  const ENTITY_STALE_MS := 2000

  const PENDING_LIMIT := 256
  const PENDING_AGE_MS := 2000

  const RECV_GUARD := 256
}

/** Machine integers, vectors and the records shared by server and client. */
module Types {
  const TWO16 := 0x1_0000
  const TWO32 := 0x1_0000_0000
  const TWO64 := 0x1_0000_0000_0000_0000

  type byte = x: int | 0 <= x < 0x100
  type u16 = x: int | 0 <= x < TWO16
  type u32 = x: int | 0 <= x < TWO32
  type u64 = x: int | 0 <= x < TWO64
  type i8 = x: int | -128 <= x < 128

  datatype Option<+T> = None | Some(value: T)

  datatype Vec2 = Vec2(x: real, y: real)

  /** `normalize_dir`, `Vec2`'s `*` and `+`, and the cast to `float`, as whatever functions they are. */
  datatype VectorOps = VectorOps(
    direction: (i8, i8) -> Vec2, scale: (Vec2, real) -> Vec2, add: (Vec2, Vec2) -> Vec2, narrow: real -> real)

  datatype Axis = X | Y

  function Coord(v: Vec2, a: Axis): real {
    match a
    case X => v.x
    case Y => v.y
  }

  datatype PlayerState = PlayerState(id: u16, pos: Vec2, vel: Vec2, lastProcessedInputSeq: u32)

  datatype Endpoint = Endpoint(ip: u32, port: u16)

  /** A datagram handed to, or taken from, the socket layer. */
  datatype Datagram = Datagram(peer: Endpoint, bytes: seq<byte>)

  /** Subtraction of `std::uint64_t` values: it wraps. */
  function Sub64(a: u64, b: u64): u64 {
    (a - b) % TWO64
  }

  lemma WrappedDifference(a: u64, b: u64)
    ensures Sub64(a, b) == if a >= b then a - b else TWO64 + a - b
  {
  }

  function Min(a: int, b: int): int { if a <= b then a else b }

  function Max(a: int, b: int): int { if a >= b then a else b }

  function Abs(r: real): real { if r < 0.0 then -r else r }
}
