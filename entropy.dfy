/** The secure random source the generators draw from: Node's
    `crypto.randomBytes`, `crypto.randomInt` and `crypto.randomUUID`.
    Their contracts promise only ranges and shapes; a ghost transcript
    records every answer so that the generators' results can be tied to
    the draws they were built from. */
module Entropy {
  import opened Js
  import opened Codec
  import Uuid

  /** One answer of the source. */
  datatype Draw =
    | BytesDraw(bytes: seq<byte>)
    | IntDraw(lo: int, hi: int, value: int)
    | UuidDraw(uuid: string)

  /** The message `crypto.randomInt` throws for a bound that is not an integer. */
  function SafeIntegerMessage(name: string): string {
    "The \"" + name + "\" argument must be a safe integer"
  }

  class CryptoSource {
    /** The platform's secure byte stream: fixed, but unknown to the model. */
    const stream: nat -> byte
    /** How much of the stream has been consumed. */
    var position: nat
    /** Every answer given so far, oldest first. */
    ghost var log: seq<Draw>

    constructor (stream: nat -> byte)
      ensures this.stream == stream && position == 0 && log == []
    {
      this.stream := stream;
      position := 0;
      log := [];
    }

    /** The next `n` bytes of the stream. */
    method NextBytes(n: nat) returns (b: seq<byte>)
      modifies this
      ensures |b| == n && position == old(position) + n && log == old(log)
    {
      var s, p := stream, position;
      b := seq(n, i requires 0 <= i < n => s(p + i));
      position := position + n;
    }

    /** `crypto.randomBytes(size)`: `size` random bytes. What a fractional
        size yields is left to the platform. */
    method RandomBytes(size: real) returns (b: seq<byte>)
      requires size >= 0.0
      modifies this
      ensures IsInteger(size) ==> |b| == size.Floor
      ensures log == old(log) + [BytesDraw(b)]
    {
      b := NextBytes(size.Floor);
      log := log + [BytesDraw(b)];
    }

    /** `crypto.randomInt(min, max)`: an integer in `[min, max)`. It throws,
        drawing nothing, when `min` or (then) `max` is not an integer. */
    method RandomInt(min: real, max: real) returns (r: Result<int>)
      requires min < max
      modifies this
      ensures r.Ok? <==> IsInteger(min) && IsInteger(max)
      ensures !IsInteger(min) ==> r == Err(SafeIntegerMessage("min"))
      ensures IsInteger(min) && !IsInteger(max) ==> r == Err(SafeIntegerMessage("max"))
      ensures r.Ok? ==> min <= r.value as real < max
      ensures r.Ok? ==> log == old(log) + [IntDraw(min.Floor, max.Floor, r.value)]
      ensures r.Err? ==> log == old(log) && position == old(position)
    {
      if !IsInteger(min) {
        return Err(SafeIntegerMessage("min"));
      }
      if !IsInteger(max) {
        return Err(SafeIntegerMessage("max"));
      }
      var raw := NextBytes(6);
      var x: int := 0;
      for k := 0 to 6 {
        x := x * 0x100 + raw[k];
      }
      var v := min.Floor + x % (max.Floor - min.Floor);  // Node rejects biased values; see README
      log := log + [IntDraw(min.Floor, max.Floor, v)];
      r := Ok(v);
    }

    /** `crypto.randomUUID()`: a fresh version 4 UUID. */
    method RandomUuid() returns (u: string)
      modifies this
      ensures Uuid.IsUuidV4(u)
      ensures log == old(log) + [UuidDraw(u)]
    {
      var b := NextBytes(16);
      u := Uuid.Format(Uuid.SetVersionAndVariant(b));
      Uuid.FormatIsUuidV4(b);
      log := log + [UuidDraw(u)];
    }
  }
}
