# Authorisation check of the Ontology_Zero validation package, in Dafny

This project models `VerifySignableData` and `VerifySignature` from
`core/validation/validation.go`. `VerifySignableData` checks a signable
object (a transaction or block header). It fetches the object's claimed
program hashes and its attached programs. Each program is a `Code` and a
`Parameter` byte string. The check demands equal counts. Then, index by index,
the code hash of each program must equal its claim. Each program is then run
on a fresh NeoVM engine, loaded with `Code` and then with `Parameter`. The
engine must end in `HALT` with exactly one stack item, and that item must be
true. The first failure stops the check. `VerifySignature` passes the bytes
`GetHashData` produces for the object (its unsigned serialisation) to
`crypto.Verify`, with the public key and the signature.

Layout:

- `wrappers.dfy`: `Option`, `Result` and `Outcome`.
- `collaborators.dfy`: the things the core uses but does not define. These are
  the signable object (the record of its accessor results), `Program`,
  `Uint160`, the engine's load/execute steps and `Services`. `Services` holds
  the three external computations as function-typed fields: `ToCodeHash`, the
  engine run and `crypto.Verify`.
- `validation.dfy`: the check. It has a classified error (`VerifyError`) and
  an event trace, which records each code hash computed and each engine run.
  It also holds the reference definitions (`Accepts`, `Authorized`,
  `Schedule`) that the contracts are stated against.
- `properties.dfy`: lemmas that relate several calls or hold for all inputs.

`VerifySignableData` returns a `Run`. Its outcome `Pass` stands for the
source's `(true, nil)` and `Fail(e)` for `(false, e)`. Its trace is the list of
steps the source takes. The source reports only error messages. `VerifyError`
classifies them by the branch that raises them, and the index is the program's
position in the object.

A failing `ToCodeHash` (line 49) is not reported and is not a distinct error:
its result is compared as is, and the model does the same. The value `ToCodeHash` returns with its error is taken to be
the zero `Uint160`. `common/ToCodeHash` is not part of this model.

## Model

| member | source | states |
|---|---|---|
| Validation.VerifySignableData | core/validation/validation.go:34-77 | The object passes exactly when the hashes are fetched, the counts agree and every claim/program pair is accepted. A fetch error is returned as is and no step is taken. A count mismatch fails before any hash is computed or any engine runs. Once the hashes are fetched and the counts agree, every failure is indexed: it carries the class that index's program check gives, it is at the lowest index that fails, and every earlier pair is accepted. The trace is the prefix of the full in-order schedule that ends at the failing step. |
| Validation.CheckFrom | core/validation/validation.go:47-76 | The loop from index i passes exactly when every pair from i on is accepted. Otherwise it reports the first failing index at or after i, classified as that index's check classifies it. Its trace is the matching prefix of the schedule from i. |
| Validation.CheckProgram | core/validation/validation.go:49-73 | One index fails in a fixed priority: hash mismatch, then state not HALT, then stack count not 1, then a false result. Each class occurs exactly when its condition holds and no earlier one does. The program is accepted exactly when none holds. A hash mismatch records only the hash step. Otherwise one engine run follows, with the code segment and then the parameter segment. |
| Validation.VerifySignature | core/validation/validation.go:79-86 | Passes exactly when the primitive reports no error for (pubkey, hash data, signature). Otherwise it fails with that error wrapped as a signature failure. |
| ValidationProperties.ScheduleOrder | core/validation/validation.go:48-60 | A full check visits indices in order. For each it computes the code hash and then runs one engine loaded with Code (not a parameter) and then Parameter (a parameter). |
| ValidationProperties.ScheduleFromAt | core/validation/validation.go:48-60 | Within the steps from index k, program i's hash step is at offset 2(i-k) and its engine run right after. |
| ValidationProperties.NothingRunsAfterFailure | core/validation/validation.go:36-73 | A structural failure takes no step. After a failure at index i, no step for a later index was taken. After a hash mismatch at i, no engine ran for i. |
| ValidationProperties.HashDiffersNoEngineFromI | core/validation/validation.go:48-60 | If program i does not hash to its claim, the check fails and no engine runs for index i or any later index, whichever index the failure reports. |
| ValidationProperties.ReorderKeepsAcceptance | core/validation/validation.go:48-76 | If the engine cannot tell two objects apart, holding the same claim/program pairs in another order carries authorisation from one to the other. |
| ValidationProperties.PairedReorderPreservesVerdict | core/validation/validation.go:48-76 | Reordering claims and programs together does not change whether the object passes, provided the engine cannot tell the two objects apart. |
| ValidationProperties.UnhashableCodeMatchesOnlyZero | core/validation/validation.go:49-52 | A program whose code cannot be hashed passes the hash comparison exactly when its claim is the zero hash. |
| ValidationProperties.VerifySignatureReadsOnlyHashData | core/validation/validation.go:79-80 | The signature verdict depends only on the object's hash data, the key and the signature, and not on its programs. |
| ValidationProperties.SingleProgramVerified | core/validation/validation.go:48-76 | One claim and one program that hashes to it and halts with a single true: the object passes. |
| ValidationProperties.SecondHashMismatchReported | core/validation/validation.go:48-52 | The first pair is accepted and the second program does not hash to its claim: the failure is a hash mismatch at index 1. |
| ValidationProperties.TwoStackValuesRejected | core/validation/validation.go:66-67 | The hash matches and the engine halts with two stack items: the failure is a stack-count failure at index 0. |

## Left out

- The NeoVM instruction set and execution loop (`Execute`, `GetState`, `GetEvaluationStack`, `GetExecuteResult`): the engine is one uninterpreted function from the object and the loaded segments to its final state, stack depth and boolean result.
- The ECDSA crypto object and the state reader given to each engine are built the same way on every iteration. They are folded into that function, and ledger state is read-only.
- `crypto.Verify`, the hash algorithm behind `ToCodeHash` and the serialisation behind `sig.GetHashData` are uninterpreted. The hash data is a field of the signable object.
- A nil `pubkey` in `VerifySignature` would make the source panic. The model takes the key by value.
- Error message strings and `NewDetailErr` wrapping: only the error class (and the index) is modelled.
- `net/httpjsonrpc/TransPayloadToHex.go`: a display-format mapping over payload types that are not part of this model.
- ValidationProperties.PairedReorderPreservesVerdict: assumes the engine gives the same record for both objects. The source hands the whole object to the engine, so a script that reads the order of the object's programs could tell the two apart.
- That a signature with a flipped bit is rejected depends on the crypto primitive. The primitive is uninterpreted here, so this is not stated.
