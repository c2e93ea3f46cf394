/** The three non-blocking channel operations of one delivery: send; if the channel is full, drop the oldest; send
    again (internal/observability/sse.go). */
module Delivery {
  import opened Collections

  /** Per-subscriber channel depth. */
  const SUB_BUF := 64

  datatype Stage = Try | Drop | Retry

  /** The channel after the operation of `stage`, for event `ev`. */
  function ChanAfter<E>(chan: seq<E>, ev: E, stage: Stage, cap: nat): seq<E> {
    match stage
    case Try | Retry => if |chan| < cap then chan + [ev] else chan
    case Drop => if chan == [] then [] else chan[1..]
  }

  /** The operation that follows, None when the delivery is over. */
  function StageAfter<E>(chan: seq<E>, stage: Stage, cap: nat): Option<Stage> {
    match stage
    case Try => if |chan| < cap then None else Some(Drop)
    case Drop => Some(Retry)
    case Retry => None
  }
}
