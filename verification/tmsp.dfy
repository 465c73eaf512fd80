/**
  The vocabulary the application shares with the consensus engine over the TMSP
  request/response protocol: bytes, heights, validators, result codes and results.
*/
module Tmsp {

  type Byte = b: int | 0 <= b < 0x100
  type Bytes = seq<Byte>

  /** Block heights are unsigned 64-bit integers on the wire. */
  type Uint64 = n: int | 0 <= n < 0x1_0000_0000_0000_0000

  /** A validator as the consensus engine describes it; its fields are never inspected here. */
  type Validator(==)

  /**
    Result codes. The four the façade produces itself are named; every other error code
    a collaborator may report is `OtherCode`, told apart by an abstract tag that is not
    its wire number. Only `OK` is a success.
  */
  datatype Code = OK | EncodingError | BaseEncodingError | BaseUnknownPlugin | OtherCode(tag: nat)

  /**
    A protocol result: a code, a binary payload (a state hash, a query answer) and a log.
    The log is kept as the ordered list of its segments; how the protocol library joins
    segments into one string is not part of this model.
  */
  datatype Result = Result(code: Code, data: Bytes, log: seq<string>) {

    predicate IsErr() {
      code != OK
    }

    /** Replaces the whole log. */
    function SetLog(s: string): Result {
      this.(log := [s])
    }

    /** Adds a segment after the existing log. */
    function AppendLog(s: string): Result {
      this.(log := log + [s])
    }

    /** Adds a segment in front of the existing log. */
    function PrependLog(s: string): Result {
      this.(log := [s] + log)
    }
  }

  /** The predefined results: a code with no payload and no log. */
  const Ok := Result(OK, [], [])
  const ErrEncodingError := Result(EncodingError, [], [])
  const ErrBaseEncodingError := Result(BaseEncodingError, [], [])
  const ErrBaseUnknownPlugin := Result(BaseUnknownPlugin, [], [])
}
