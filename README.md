# rust-hwi: the subprocess backend, modelled in Dafny

rust-hwi drives hardware signing devices through the external `hwi` tool.
This project models the crate's subprocess backend, `BinaryHWIImplementation`.
Each client operation builds a vector of string tokens. `run_hwi_command`
checks the fingerprint guard and puts the global flags in front of the tokens.
The executor then receives the result.

The project also models the older `HWICommand` builder with its subcommand
and flag renderings. Last, it models the descriptor normalisation the crate's
tests apply before `display_address`: strip the checksum, then replace
wildcards.

Modules:

- `Wrappers` (wrappers.dfy): `Option` and `Result`.
- `Types` (types.dfy): the domain values and the string renderings the
  backend puts on the command line. The address type, chain, decimal and
  fingerprint renderings each have a parser and a round-trip lemma; the PSBT
  is passed on as its own text.
- `Argv` (argv.dfy): the guard and the global flags of `run_hwi_command`, as a
  function `Invoke`, with a reader `ParseInvocation` that inverts `Render`.
- `Requests` (requests.dfy): one `Request` value per operation and its token
  vector `RequestArgs`. The reader `ParseRequest` inverts `RequestArgs`. The
  lemmas say when the guard applies to each operation.
- `Binary` (binary.dfy): the `Executor` as a recorder of the vectors it
  receives, and the `BinaryClient` class with every operation as a method.
  Each method builds its tokens step by step, as the source does. Its
  postcondition ties the executor log and the result to `Invoke` of the
  operation's `RequestArgs`. The module also holds the device selection of
  `find_device`.
- `Commands` (commands.dfy): `HWISubcommand`, `HWIFlag` with its `Display`,
  lower-casing, and the `HwiCommand` builder class.
- `Descriptor` (descriptor.dfy): checksum strip and wildcard replacement.

Facts about the code that the model keeps:

- Subcommand tokens are the lower-cased variant names, such as
  `getmasterxpub` (src/commands.rs:64).
- `add_flag` appends a single token holding flag name and value, lower-cased
  as a whole (src/commands.rs:42-44, 69).
- `run_hwi_command` puts the fingerprint, expert and chain flags before the
  operation's tokens (src/implementations/binary_implementation.rs:303-322).
- The fingerprint guard looks at every token of the operation, caller-supplied
  strings included (src/implementations/binary_implementation.rs:305).
- The descriptor normalisation strips the checksum and then replaces every
  `*` with `1` (src/lib.rs:86-87).

The crate's `error.rs` lists only `JSON`, `Utf8` and `IOError`, but the
backend also constructs `Error::Hwi(message, code)` and
`Error::NotImplemented`. The model's `Error` has all five.

## Model

| member | source | states |
|---|---|---|
| Types.AddressTypeIsNotGuardWord | src/implementations/binary_implementation.rs:82-84 | no address-type token is `enumerate` or `--version`, so it never switches off the guard at line 305 |
| Types.AddressTypeRoundTrip | src/implementations/binary_implementation.rs:82-84 | the address-type token names its address type unambiguously (parsed back to the same value) |
| Types.ChainRoundTrip | src/implementations/binary_implementation.rs:317-320 | the chain token names its chain unambiguously |
| Types.Decimal | src/implementations/binary_implementation.rs:83 | `to_string` of an integer is non-empty and starts with a digit |
| Types.DecimalRoundTrip | src/implementations/binary_implementation.rs:83-85 | reading back a decimal rendering yields the number rendered |
| Types.DecimalIsNotFlag | src/implementations/binary_implementation.rs:305 | a decimal token is never `enumerate`, `--version` or any `-`-prefixed flag |
| Types.FingerprintRoundTrip | src/implementations/binary_implementation.rs:306-310 | the eight-digit fingerprint token is read back to the same fingerprint |
| Types.FingerprintStringInjective | src/implementations/binary_implementation.rs:72 | two fingerprints render equal strings exactly when they are equal, so comparing renderings compares fingerprints |
| Argv.NeedsFingerprint | src/implementations/binary_implementation.rs:305 | defines the guard: no token is `enumerate` and no token is `--version`; its effect is stated by Argv.Invoke and Requests.GuardByRequest |
| Argv.Render | src/implementations/binary_implementation.rs:313-322 | defines the executor's vector: fingerprint pair, `--expert`, chain pair, then the operation's tokens; its layout is stated by Argv.RenderedLayout and its inverse by Argv.ParseRenderRoundTrip |
| Argv.ParseRenderRoundTrip | src/implementations/binary_implementation.rs:313-322 | the global flags are read back from the vector in the order written, and the operation's tokens are the unchanged rest, whenever those tokens do not start with a global flag |
| Argv.Invoke | src/implementations/binary_implementation.rs:305-311 | the call is rejected with "Device fingerprint not set" exactly when no device is given and no token is `enumerate` or `--version`; otherwise the operation's tokens, the expert switch and the chain's rendering are kept, and the fingerprint is present exactly when the guard applies, and is then the device's fingerprint |
| Argv.RenderedLayout | src/implementations/binary_implementation.rs:303-322 | layout of the executor's vector: the fingerprint pair first, exactly when the guard applies; then `--expert` exactly when asked for; then the chain pair exactly when a chain is given; then the operation's tokens unchanged as a suffix |
| Requests.RequestArgs | src/implementations/binary_implementation.rs:29-289 | defines each operation's token vector; that it is injective is stated by Requests.ParseRequestRoundTrip, that it never starts with a global flag by Requests.RequestArgsAfterGlobalFlags, and when the guard applies by Requests.GuardByRequest |
| Requests.U32RoundTrip | src/implementations/binary_implementation.rs:154-162 | a `u32` token is read back to the same `u32` |
| Requests.U8RoundTrip | src/implementations/binary_implementation.rs:252-253 | the restore word count is read back to the same `u8` |
| Requests.KeypoolPushOrder | src/implementations/binary_implementation.rs:141-162 | the `getkeypool` tokens are the pieces in the order they are pushed: optional `--keypool`, optional `--internal`, `--addr-type t`, optional `--addr-all`, `--account n`, optional `--path p`, start, end |
| Requests.KeypoolRoundTrip | src/implementations/binary_implementation.rs:141-162 | every combination of `getkeypool` options is read back from its tokens, so no two combinations share a vector |
| Requests.ParseRequestRoundTrip | src/implementations/binary_implementation.rs:29-289 | every operation's token vector is read back as the same operation with the same arguments (argument-vector builders are injective) |
| Requests.GuardByRequest | src/implementations/binary_implementation.rs:305-311 | the guard applies to an operation exactly when it is neither enumerate nor `--version` and none of the caller's strings is `enumerate` or `--version` |
| Requests.RequestArgsAfterGlobalFlags | src/implementations/binary_implementation.rs:313-322 | no operation's tokens are empty or start with a global flag, so the global flags can always be read back |
| Binary.Executor.ExecuteCommand | src/implementations/binary_implementation.rs:324 | the executor receives the vector exactly once, appended to its log, and its answer is the call's result |
| Binary.Matches | src/implementations/binary_implementation.rs:70-73 | defines the two filters: the device type, when given, is equal, and the fingerprint's rendering, when given, is equal; Binary.SelectByFingerprint states that the second compares fingerprints |
| Binary.FirstMatch | src/implementations/binary_implementation.rs:68-74 | the index found passes both filters and every earlier device fails one; no index means no device passes |
| Binary.SelectDevice | src/implementations/binary_implementation.rs:68-74 | the device found is among the devices, passes both filters, and stands at a position before which no device passes; none is found exactly when no device passes |
| Binary.SelectByFingerprint | src/implementations/binary_implementation.rs:68-74 | filtering by a fingerprint's own rendering selects a device with exactly that fingerprint (and the requested type); none is found exactly when no device has both |
| Binary.FindOutcome | src/implementations/binary_implementation.rs:64-75 | the executor's error and then the decoder's error are passed on unchanged; otherwise a device is returned exactly when some decoded device passes the filters, and it is the first such device; else the error is "No matching device found" |
| Binary.BinaryClient.RunHwiCommand | src/implementations/binary_implementation.rs:297-325 | on a guard error the executor is not called and the error is returned; otherwise the executor receives `Render(Invoke(...))` once and its answer is returned |
| Binary.BinaryClient.Enumerate | src/implementations/binary_implementation.rs:29-33 | the executor receives exactly `["enumerate"]`, with no fingerprint, expert switch or chain |
| Binary.BinaryClient.GetClient | src/implementations/binary_implementation.rs:35-42 | always succeeds with a new client holding the device, expert switch and chain given |
| Binary.BinaryClient.FindDevice | src/implementations/binary_implementation.rs:44-78 | sends the enumerate vector without a fingerprint but with the caller's expert switch and chain; passes on the executor's and the decoder's errors; fails with "No matching device found" or returns a new client bound to the first matching device |
| Binary.BinaryClient.GetMasterXpub | src/implementations/binary_implementation.rs:80-93 | the executor outcome is that of `Invoke` on `getmasterxpub --addr-type t --account n` with the client's device, expert switch and chain |
| Binary.BinaryClient.SignTx | src/implementations/binary_implementation.rs:95-106 | likewise for `signtx psbt` |
| Binary.BinaryClient.GetXpub | src/implementations/binary_implementation.rs:108-117 | likewise for `getxpub path`, using the expert argument instead of the client's switch |
| Binary.BinaryClient.SignMessage | src/implementations/binary_implementation.rs:119-128 | likewise for `signmessage message path` |
| Binary.BinaryClient.GetKeypool | src/implementations/binary_implementation.rs:130-170 | likewise for the `getkeypool` tokens pushed in source order |
| Binary.BinaryClient.GetDescriptors | src/implementations/binary_implementation.rs:172-183 | likewise for `getdescriptors --account n` |
| Binary.BinaryClient.DisplayAddressWithDesc | src/implementations/binary_implementation.rs:185-196 | likewise for `displayaddress --desc d` |
| Binary.BinaryClient.DisplayAddressWithPath | src/implementations/binary_implementation.rs:198-214 | likewise for `displayaddress --path p --addr-type t` |
| Binary.BinaryClient.InstallUdevRules | src/implementations/binary_implementation.rs:216-221 | as written: `Invoke` without a device, expert switch or chain, on `installudevrules --location l`; the source argument is ignored |
| Binary.BinaryClient.SetLogLevel | src/implementations/binary_implementation.rs:223-225 | always fails with `NotImplemented` |
| Binary.BinaryClient.TogglePassphrase | src/implementations/binary_implementation.rs:227-235 | likewise for `togglepassphrase` |
| Binary.BinaryClient.SetupDevice | src/implementations/binary_implementation.rs:237-248 | likewise for `setup --label l --backup_passphrase p` |
| Binary.BinaryClient.RestoreDevice | src/implementations/binary_implementation.rs:250-261 | likewise for `restore --word_count n --label l` |
| Binary.BinaryClient.BackupDevice | src/implementations/binary_implementation.rs:263-274 | likewise for `backup --label l --backup_passphrase p` |
| Binary.BinaryClient.WipeDevice | src/implementations/binary_implementation.rs:276-284 | likewise for `wipe` |
| Binary.BinaryClient.GetVersion | src/implementations/binary_implementation.rs:286-289 | the executor receives exactly `["--version"]` |
| Binary.BinaryClient.InstallHwilib | src/implementations/binary_implementation.rs:291-293 | always fails with `NotImplemented` |
| Binary.SentVectorDecodes | src/implementations/binary_implementation.rs:297-325 | from the executor's vector one reads back the operation and its arguments, the expert switch and the chain, and the fingerprint is present exactly when the guard applies, in which case it is the device's |
| Binary.RejectedWithoutDevice | src/implementations/binary_implementation.rs:305-311 | without a device, an operation is rejected before the executor exactly when it is not enumerate or `--version` and none of the caller's strings is a guard word |
| Binary.GuardWordMessageDropsFingerprint | src/implementations/binary_implementation.rs:119-128 | a message reading `enumerate` makes `signmessage` go out without any fingerprint, whatever the device |
| Binary.FindDeviceArgvDecodes | src/implementations/binary_implementation.rs:58-65 | `find_device` enumerates with no fingerprint, its own expert switch and chain, and the optional password pair |
| Binary.InstallUdevRulesRejected | src/implementations/binary_implementation.rs:216-221 | as written, `install_udev_rules` is rejected with "Device fingerprint not set" exactly when the location is not a guard word |
| Binary.InvokeIntended | src/implementations/binary_implementation.rs:305-311 | the corrected guard rejects a call exactly when no device is given, no token is `enumerate` or `--version`, and the vector does not start with `installudevrules`; an accepted call keeps the tokens, the expert switch and the chain's rendering, and carries the device's fingerprint exactly when the corrected guard applies |
| Binary.InvokeIntendedAgrees | src/implementations/binary_implementation.rs:216-221 | with the corrected guard `install_udev_rules` reaches the executor with no fingerprint and exactly its own tokens, and every other operation behaves as written |
| Binary.InstallUdevRulesIntended | src/implementations/binary_implementation.rs:216-221 | the corrected `install_udev_rules` sends exactly `installudevrules --location l` |
| Commands.Lower | src/commands.rs:64 | lower-casing keeps the length |
| Commands.LowerIsIdempotent | src/commands.rs:64 | ASCII lower-casing leaves no upper-case letter, keeps a string without one, and is idempotent |
| Commands.LowerAppend | src/commands.rs:69 | ASCII lower-casing a concatenation lower-cases each part |
| Commands.SubcommandToken | src/commands.rs:64 | defines the subcommand token as the lower-cased variant name; its spelling is stated by Commands.SubcommandTokenSpelling, its injectivity by Commands.SubcommandTokenRoundTrip and its shape by Commands.SubcommandTokenShape |
| Commands.SubcommandTokenSpelling | src/commands.rs:63-65 | the token of each subcommand is its variant name lower-cased, for example `getmasterxpub` |
| Commands.SubcommandTokenRoundTrip | src/commands.rs:7-22 | every subcommand token names its subcommand, so no two subcommands share a token |
| Commands.SubcommandTokenShape | src/commands.rs:63-65 | a subcommand token has no upper-case letter and does not start with `-` |
| Commands.FlagDisplay | src/commands.rs:39-48 | defines the `Display` of a flag; Commands.FlagDisplayDashes states that it starts with `--` |
| Commands.FlagToken | src/commands.rs:69 | defines the flag token as the lower-cased `Display`; its content is stated by Commands.ValuedFlagToken, Commands.FingerprintFlagToken and Commands.UnitFlagToken, its shape by Commands.FlagTokenShape |
| Commands.ValuedFlagToken | src/commands.rs:42-44 | `DevicePath`, `DeviceType` and `Password` become one token: flag name, space and the lower-cased value |
| Commands.PasswordCaseIsLost | src/commands.rs:44 | `Password("AbC")` becomes the single token `--password abc` |
| Commands.FingerprintFlagToken | src/commands.rs:45 | the fingerprint flag becomes `--fingerprint` followed by the unchanged hex fingerprint |
| Commands.UnitFlagToken | src/commands.rs:46 | a flag without a value becomes `--` and its lower-cased variant name |
| Commands.UnitFlagExamples | src/commands.rs:46 | `Expert` becomes `--expert` and `StdinPass` becomes `--stdinpass` |
| Commands.FlagTokenShape | src/commands.rs:68-70 | a flag token has no upper-case letter and starts with `--` |
| Commands.TokensInOrder | src/commands.rs:63-70 | after n builder calls there are n arguments, the i-th written by the i-th call |
| Commands.HwiCommand.constructor | src/commands.rs:57-61 | a new builder is for program `hwi`, with no arguments |
| Commands.HwiCommand.AddSubcommand | src/commands.rs:63-66 | appends exactly the subcommand's token and keeps the earlier ones |
| Commands.HwiCommand.AddFlag | src/commands.rs:68-71 | appends exactly the flag's token and keeps the earlier ones |
| Descriptor.StripChecksum | src/lib.rs:86 | the result is a prefix of the input with no `#`, followed in the input by `#` when shorter, so it is the text before the first `#` |
| Descriptor.StripChecksumAt | src/lib.rs:86 | when the first `#` is at position k, the result is the first k characters |
| Descriptor.ReplaceWildcards | src/lib.rs:87 | keeps the length, leaves every other character in place, puts `1` at every former `*`, and leaves no `*` |
| Descriptor.NormalizeDescriptor | src/lib.rs:86-87 | the result has no `#` and no `*`, and is the text before the first `#` with each `*` replaced by `1` |
| Descriptor.NormalizeIdempotent | src/lib.rs:86-87 | normalising a normalised descriptor changes nothing |
| Descriptor.NormalizeExample | src/lib.rs:86-87 | `/0/*#4ncdm8ue` becomes `/0/1` |

## Findings

| source | as written | input that shows it | evidently intended | confidence | as-written member | corrected member |
|---|---|---|---|---|---|---|
| src/implementations/binary_implementation.rs:216-221 | `install_udev_rules` passes no device to `run_hwi_command`, whose guard demands a fingerprint unless a token is `enumerate` or `--version` | `install_udev_rules("", "/lib/udev/rules.d/")` returns "Device fingerprint not set" without calling `hwi` | installing udev rules concerns the host, not a device, so the call should reach `hwi installudevrules --location l` | not executed | Binary.InstallUdevRulesRejected | Binary.InvokeIntendedAgrees |

## Left out

- The Python backend (`python_implementation.rs`) and `interface.rs` are not part of this model: they are foreign calls into the Python `hwilib` package.
- `signer.rs` is not part of this model: it implements bdk's signer traits (`SignerCommon`, `TransactionSigner`) over an `HWIClient`, outside the subprocess backend.
- Spawning the `hwi` process, its output and its exit status are not modelled. The executor is a recorder whose answer is a fixed function of the vector it receives.
- JSON decoding of the enumerate answer is a parameter of `FindDevice` (`decode`), not a model of serde.
- Binary.BinaryClient.FindDevice: passes on the executor's error as it is; how the real executor maps exit codes to `ErrorCode` is not modelled.
- `HWIAddressType` and `HWIChain` are declared in src/types.rs, whose `Display` impls are not part of this model; `Fingerprint::to_string`, `Psbt::to_string` and `u32::to_string` live in other crates. All are given concrete spellings (`legacy`/`sh_wit`/`wit`/`tap`, `main`/`test`/`regtest`/`signet`, eight lower-case hex digits, the PSBT text, shortest decimal). The proofs rely on the round trips of the address type, chain, decimal and fingerprint renderings, on the decimal rendering starting with a digit, and on no address-type name being `enumerate` or `--version`, which Types.AddressTypeIsNotGuardWord proves of the spellings chosen (Requests.GuardWordsKeys and Requests.GuardWordsKeypool use this, and through them Requests.GuardByRequest, Binary.SentVectorDecodes and Binary.RejectedWithoutDevice). The PSBT text is passed through unchanged and is treated as a caller string that may itself be a guard word.
- Commands.FingerprintFlagToken: takes `{:?}` of a fingerprint to be the same hex text as its `Display`.
- Commands.Lower: lower-cases ASCII `A`–`Z` only; Rust's `to_lowercase` also maps other Unicode letters, may change a string's length, and lower-cases `Σ` by its context, so Commands.LowerIsIdempotent and Commands.LowerAppend hold for this ASCII lower-casing and not for `to_lowercase` in general.
- The `HWICommand` builder's wrapped `std::process::Command` is reduced to its program name and argument list; the `&Self` that the builder methods return for chaining is not modelled.
- `set_log_level` and `install_hwilib` take arguments they ignore; the model keeps the arguments but has no behaviour for them beyond `NotImplemented`.
- The hardware-dependent tests in `lib.rs` (enumerate, sign, and so on) are not modelled; only the descriptor expression at lines 86-87 is.
