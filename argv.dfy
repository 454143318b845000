/**
 * The global part of every `hwi` command line built by the subprocess
 * backend (`run_hwi_command`): the fingerprint guard and the global flags
 * `--fingerprint fp`, `--expert`, `--chain c` placed before the operation's
 * own tokens.
 */
module Argv {
  import opened Wrappers
  import opened Types

  /** An argument vector split into its global flags and the operation's tokens. */
  datatype Invocation = Invocation(
    fingerprint: Option<string>,
    expert: bool,
    chain: Option<string>,
    args: seq<string>)

  /** `[token]` when `on`, else nothing: a switch flag. */
  function Switch(on: bool, token: string): seq<string>
  {
    if on then [token] else []
  }

  /** `[flag, value]` when a value is given, else nothing. */
  function Valued(flag: string, value: Option<string>): seq<string>
  {
    if value.Some? then [flag, value.value] else []
  }

  /** Consumes a leading switch flag, if present. */
  function TakeSwitch(tokens: seq<string>, flag: string): (bool, seq<string>)
  {
    if |tokens| > 0 && tokens[0] == flag then (true, tokens[1..]) else (false, tokens)
  }

  /** Consumes a leading `flag value` pair, if present. */
  function TakeValued(tokens: seq<string>, flag: string): (Option<string>, seq<string>)
  {
    if |tokens| >= 2 && tokens[0] == flag then (Some(tokens[1]), tokens[2..]) else (None, tokens)
  }

  /** A switch written by `Switch` is read back by `TakeSwitch`. */
  lemma TakeSwitchRoundTrip(on: bool, flag: string, rest: seq<string>)
    requires |rest| == 0 || rest[0] != flag
    ensures TakeSwitch(Switch(on, flag) + rest, flag) == (on, rest)
  {
    var tokens := Switch(on, flag) + rest;
    if on {
      assert tokens[0] == flag && tokens[1..] == rest;
    } else {
      assert tokens == rest;
    }
  }

  /** A pair written by `Valued` is read back by `TakeValued`. */
  lemma TakeValuedRoundTrip(flag: string, value: Option<string>, rest: seq<string>)
    requires |rest| == 0 || rest[0] != flag
    ensures TakeValued(Valued(flag, value) + rest, flag) == (value, rest)
  {
    var tokens := Valued(flag, value) + rest;
    if value.Some? {
      assert tokens[0] == flag && tokens[1] == value.value && tokens[2..] == rest;
    } else {
      assert tokens == rest;
    }
  }

  /** The vector handed to the executor: global flags in their fixed order, then `args`. */
  function Render(inv: Invocation): seq<string>
  {
    Valued("--fingerprint", inv.fingerprint)
    + (Switch(inv.expert, "--expert")
    + (Valued("--chain", inv.chain)
    + inv.args))
  }

  /** Reads the global flags off the front of a vector, in the order `Render` writes them. */
  function ParseInvocation(argv: seq<string>): Invocation
  {
    var (fp, afterFp) := TakeValued(argv, "--fingerprint");
    var (expert, afterExpert) := TakeSwitch(afterFp, "--expert");
    var (chain, rest) := TakeValued(afterExpert, "--chain");
    Invocation(fp, expert, chain, rest)
  }

  /** True when the first operation token could be mistaken for a global flag. */
  predicate LeadsWithGlobalFlag(args: seq<string>)
  {
    |args| > 0 && (args[0] == "--fingerprint" || args[0] == "--expert" || args[0] == "--chain")
  }

  /**
   * The global flags are unambiguous: as long as the operation's tokens do not
   * themselves start with a global flag, the executor's vector determines the
   * fingerprint, the expert switch, the chain and the operation's tokens.
   */
  lemma ParseRenderRoundTrip(inv: Invocation)
    requires !LeadsWithGlobalFlag(inv.args)
    ensures ParseInvocation(Render(inv)) == inv
  {
    var afterExpert := Valued("--chain", inv.chain) + inv.args;
    var afterFp := Switch(inv.expert, "--expert") + afterExpert;
    TakeValuedRoundTrip("--chain", inv.chain, inv.args);
    TakeSwitchRoundTrip(inv.expert, "--expert", afterExpert);
    TakeValuedRoundTrip("--fingerprint", inv.fingerprint, afterFp);
  }

  /**
   * The guard of `run_hwi_command`: a fingerprint is demanded unless some
   * token, at any position, is `enumerate` or `--version`.
   */
  predicate NeedsFingerprint(args: seq<string>)
  {
    "enumerate" !in args && "--version" !in args
  }

  const FingerprintNotSet: Error := Hwi("Device fingerprint not set", None)

  /** What `run_hwi_command` does before it calls the executor. */
  function Invoke(device: Option<Device>, expert: bool, chain: Option<Chain>, args: seq<string>)
    : (r: Result<Invocation, Error>)
    ensures r.Err? <==> device.None? && NeedsFingerprint(args)
    ensures r.Err? ==> r.error == FingerprintNotSet
    ensures r.Ok? ==> r.value.args == args && r.value.expert == expert && r.value.chain == chain.Map(ChainString)
    ensures r.Ok? ==> (r.value.fingerprint.Some? <==> NeedsFingerprint(args))
    ensures r.Ok? && r.value.fingerprint.Some? ==>
              device.Some? && r.value.fingerprint.value == FingerprintString(device.value.fingerprint)
  {
    if NeedsFingerprint(args) && device.None? then Err(FingerprintNotSet)
    else
      Ok(Invocation(
        if NeedsFingerprint(args) then Some(FingerprintString(device.value.fingerprint)) else None,
        expert,
        chain.Map(ChainString),
        args))
  }

  /**
   * The layout of the vector `run_hwi_command` hands to the executor: the
   * fingerprint pair exactly when the guard applies, then `--expert` exactly
   * when asked for, then the chain pair exactly when a chain is given, then
   * the operation's tokens unchanged as a suffix.
   */
  lemma RenderedLayout(device: Option<Device>, expert: bool, chain: Option<Chain>, args: seq<string>)
    requires Invoke(device, expert, chain, args).Ok?
    ensures var argv := Render(Invoke(device, expert, chain, args).value);
            var k := if NeedsFingerprint(args) then 2 else 0;
            var m := k + (if expert then 1 else 0);
            var n := m + (if chain.Some? then 2 else 0);
            && |argv| == n + |args|
            && argv[n..] == args
            && (NeedsFingerprint(args) ==>
                  device.Some? && argv[..2] == ["--fingerprint", FingerprintString(device.value.fingerprint)])
            && (expert ==> argv[k] == "--expert")
            && (chain.Some? ==> argv[m..n] == ["--chain", ChainString(chain.value)])
  {
    var inv := Invoke(device, expert, chain, args).value;
    var fpPart := Valued("--fingerprint", inv.fingerprint);
    var exPart := Switch(inv.expert, "--expert");
    var chPart := Valued("--chain", inv.chain);
    var argv := Render(inv);
    assert argv == fpPart + exPart + chPart + args;
  }
}
