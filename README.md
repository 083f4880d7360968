# rustpython_jit argument harness, modelled in Dafny

RustPython's JIT compiles type-annotated Python functions to native code.
Calling such a function from the interpreter crosses into machine code that
is unsafe to enter with the wrong number of arguments or a value of the
wrong kind in any position. This project models the harness that guards
that crossing:

- `AbiValue`, a tagged `Int`/`Float` value, and `AbiType`, its kind;
- the signature of a compiled function: ordered parameter kinds and an
  optional return kind;
- the bulk entry point `CompiledCode::invoke(&[AbiValue])`, which checks the
  arity first, then each position's kind in order, and only then calls;
- `ArgsBuilder`, a class over an `array<Option<AbiValue>>` with one slot per
  parameter, filled in place by `set`, observed by `is_set` and consumed by
  `into_args`;
- `Args`, a subset type that only admits a fully populated, well-typed
  argument tuple, and `Args::invoke`;
- the trampoline, which reaches the native code (an abstract function from
  argument registers to the return register) and tags the returned register
  with the declared return kind.

Files: `wrappers.dfy` (Option, Result), `abi.dfy` (kinds, values, errors,
register form), `compiled_code.dfy` (signature, bulk invoke, trampoline,
`Args`), `args_builder.dfy` (the builder and the builder-based invocation),
`misc_tests.dfy` (the two test scenarios on `def func(a: int, b: float): return 1`).

The model follows the public contract asserted in `jit/tests/misc_tests.rs`.
Invariants proved:

1. anything about to be invoked has exactly one value per parameter
   (`WellTyped`, the constraint of the `Args` type and the precondition of
   `Trampoline`);
2. the value at each position has the declared kind (same);
3. a refused `set` or `invoke` changes nothing (`ArgsBuilder.Set`'s last
   postcondition; `Invoke` is a function).

## Model

| member | source | states |
|---|---|---|
| `Abi.FromRaw` | jit/tests/misc_tests.rs:33-36 | a returned register read as kind `t` gives a value of kind `t`; a float keeps its bits; a small non-negative integer keeps its value |
| `Abi.RawRoundTrip` | jit/tests/misc_tests.rs:33-36 | a value written to a register and read back with its own kind is the same value (two's complement for negative integers) |
| `Abi.RawTagRoundTrip` | jit/tests/misc_tests.rs:33-36 | tagging a register and writing the value back gives the same register |
| `CompiledCodes.CalleeSeesArguments` | jit/tests/misc_tests.rs:33-36 | on a well-typed call there is one argument register per parameter, and reading each at its parameter's kind gives back exactly the argument in that position |
| `CompiledCodes.Trampoline` | jit/tests/misc_tests.rs:33-36 | only callable on well-typed arguments; yields a value exactly when a return kind is declared, of that kind, carrying the native code's return register |
| `CompiledCodes.FirstMismatch` | jit/tests/misc_tests.rs:29-32 | finds no position exactly when every kind matches; otherwise a position whose kind differs, with every earlier position matching |
| `CompiledCodes.Invoke` | jit/tests/misc_tests.rs:21-36 | `WrongNumberOfArguments` exactly when the count differs; `ArgumentTypeMismatch` exactly when the count matches and some position's kind differs; `Ok` exactly when well-typed, with the trampoline's result; never `IndexOutOfRange` |
| `CompiledCodes.ArityCheckedFirst` | jit/tests/misc_tests.rs:21-28 | a wrong count is reported even when every supplied position has the right kind, for too few and too many arguments alike |
| `CompiledCodes.WellTypedCallSucceeds` | jit/tests/misc_tests.rs:33-36 | a well-typed call succeeds, with `None` when no return kind is declared and otherwise a value of the declared kind |
| `CompiledCodes.InvokeArgs` | jit/tests/misc_tests.rs:64-66 | invoking an `Args` has the outcome of the bulk entry point on the same code and values, with a result of the declared return kind |
| `ArgsBuilders.ArgsBuilder.constructor` | jit/tests/misc_tests.rs:46 | a new builder has one slot per parameter, all unset |
| `ArgsBuilders.ArgsBuilder.Set` | jit/tests/misc_tests.rs:47-55 | `Ok` exactly when the slot exists and the kind matches, and then only that slot changes, to the value; otherwise `IndexOutOfRange` or `ArgumentTypeMismatch` and no slot changes; the slot invariant is kept |
| `ArgsBuilders.ArgsBuilder.IsSet` | jit/tests/misc_tests.rs:48-49 | true exactly when the slot exists and holds a value |
| `ArgsBuilders.ArgsBuilder.IntoArgs` | jit/tests/misc_tests.rs:56-65 | consumes the builder; `None` exactly when some slot is unset, otherwise `Args` for the same code holding the slots' values in order |
| `ArgsBuilders.InvokeThroughBuilder` | jit/tests/misc_tests.rs:58-66 | setting every slot from the slice in order, finalising and invoking gives exactly `Invoke`'s outcome on the slice, errors included |
| `MiscTests.Func` | jit/tests/misc_tests.rs:16-19 | the compiled test function has parameters (int, float) and returns int |
| `MiscTests.TestInvoke` | jit/tests/misc_tests.rs:14-37 | the four outcomes of `test_invoke`: two arity errors, a type mismatch, and `Ok(Some(Int(1)))` |
| `MiscTests.TestArgsBuilderIncomplete` | jit/tests/misc_tests.rs:46-56 | `set(0, Int(1))` is `Ok`, `set(1, Int(1))` is `ArgumentTypeMismatch`, slot 0 stays set and slot 1 unset, and `into_args` yields nothing |
| `MiscTests.TestArgsBuilderComplete` | jit/tests/misc_tests.rs:58-66 | both `set` calls are `Ok`, both slots are set, and invoking the built `Args` gives `Some(Int(1))` |

## Left out

- The code generator and the `jit_function!` macro that compile the Python body: the native code is the abstract `native` field of `CompiledCode`, a function from argument registers to the return register.
- Floating-point semantics: a float is its 64-bit pattern; only its kind takes part in validation.
- The zero-argument, no-return test (jit/tests/misc_tests.rs:3-12) is disabled in the source as broken; the model states only the signature-level rule that no declared return kind yields `None` (`Trampoline`, `WellTypedCallSucceeds`).
- Sharing compiled code across threads: nothing in the modelled logic is concurrent.
- Ownership transfer: `into_args` takes the builder by value in Rust; the model marks the builder with a ghost `consumed` flag that every operation requires to be false.
- `ArgsBuilders.ArgsBuilder.Set`: an out-of-range index returns `IndexOutOfRange`; this is the model's own choice for an index the tests never pass.
- `ArgsBuilders.ArgsBuilder.IsSet`: an out-of-range index reports `false`; the tests never pass one.
- wasm/lib/src/browser_module.rs and wasm/demo/snippets/dom.py: browser host glue and a demo script driving JavaScript objects, with no logic of the harness.
