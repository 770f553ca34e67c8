/**
 The collaborators the validation core consumes but does not define: the
 signable object, its programs, the code-hash function, the NeoVM execution
 engine and the signature primitive. Each external computation is a
 function-typed field of `Services`, so the model says nothing about how it
 works, only how the core uses it.
 */
module Collaborators {
  import opened Wrappers

  newtype byte = x: int | 0 <= x < 256

  type Bytes = seq<byte>

  /** A 160-bit code hash (the source's `Uint160`): exactly twenty bytes. */
  type Uint160 = s: Bytes | |s| == 20 witness seq(20, _ => 0)

  /** The all-zero `Uint160`, the value a failed hash computation yields. */
  const ZeroHash: Uint160 := seq(20, _ => 0)

  /** A witness script: the code that is hashed and run, and its parameters. */
  datatype Program = Program(code: Bytes, parameter: Bytes)

  /** The error `GetProgramHashes` may report; its contents are opaque here. */
  datatype SourceError = SourceError(message: string)

  /** The error the signature primitive may report; opaque here. */
  datatype CryptoError = CryptoError(message: string)

  /** An elliptic-curve public key, as the pair of its point coordinates. */
  datatype PubKey = PubKey(x: int, y: int)

  /**
   A signable object, given by what its accessors return:
   `GetProgramHashes` (which may fail), `GetPrograms`, and the unsigned
   serialisation that `GetHashData` produces. Accessors are pure, so every
   call returns the same value.
   */
  datatype SignableData = SignableData(
    programHashes: Result<seq<Uint160>, SourceError>,
    programs: seq<Program>,
    hashData: Bytes)

  /** Final machine state of a NeoVM run. */
  datatype VMState = NONE | HALT | FAULT | BREAK

  /** One code segment loaded into the engine; `isParameter` is the second argument of `LoadCode`. */
  datatype Segment = Segment(script: Bytes, isParameter: bool)

  /** An execution engine before it runs: the object it verifies and the segments loaded so far. */
  datatype Engine = Engine(container: SignableData, loaded: seq<Segment>)

  /** What the core reads back after `Execute`: state, evaluation-stack depth and the boolean result. */
  datatype ExecutionRecord = ExecutionRecord(state: VMState, stackCount: nat, result: bool)

  /**
   The external computations: `toCodeHash` is `ToCodeHash` (None when it
   reports an error), `execute` runs an engine over the object with the
   loaded segments (its crypto and state-reader capabilities are the same on
   every call, so they are folded into it), and `cryptoVerify` is
   `crypto.Verify` (None when it reports no error).
   */
  datatype Services = Services(
    toCodeHash: Bytes -> Option<Uint160>,
    execute: (SignableData, seq<Segment>) -> ExecutionRecord,
    cryptoVerify: (PubKey, Bytes, Bytes) -> Option<CryptoError>)

  /** A fresh engine for one program: it sees the signable object and holds no code yet. */
  function NewEngine(data: SignableData): Engine
  {
    Engine(data, [])
  }

  /** Appends a code segment to the engine, keeping the earlier ones and their order. */
  function LoadCode(e: Engine, script: Bytes, isParameter: bool): Engine
  {
    Engine(e.container, e.loaded + [Segment(script, isParameter)])
  }

  /** Runs the engine to its final state. */
  function Execute(sv: Services, e: Engine): ExecutionRecord
  {
    sv.execute(e.container, e.loaded)
  }

  /**
   The code hash compared against a claim. A failing `ToCodeHash` is not
   reported; the zero hash it returns alongside the error is compared instead.
   */
  function CodeHash(sv: Services, code: Bytes): Uint160
  {
    match sv.toCodeHash(code)
    case Some(v) => v
    case None => ZeroHash
  }
}
