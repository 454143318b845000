/**
 * The subprocess backend, `BinaryHWIImplementation`: a client holding an
 * optional device, an expert switch and a chain, whose operations build the
 * operation's tokens and pass them through `run_hwi_command` to the executor.
 */
module Binary {
  import opened Wrappers
  import opened Types
  import opened Argv
  import opened Requests

  /**
   * The executor (`HWIBinaryExecutor::execute_command`) seen as a recorder:
   * every argument vector it receives is appended to `sent`, and its answer is
   * a fixed function of the vector. Spawning the process is not modelled.
   */
  class Executor {
    var sent: seq<seq<string>>
    const reply: seq<string> -> Result<string, Error>

    constructor (reply: seq<string> -> Result<string, Error>)
      ensures sent == [] && this.reply == reply
    {
      sent := [];
      this.reply := reply;
    }

    method ExecuteCommand(argv: seq<string>) returns (r: Result<string, Error>)
      modifies this
      ensures sent == old(sent) + [argv]
      ensures r == reply(argv)
    {
      sent := sent + [argv];
      r := reply(argv);
    }
  }

  /**
   * How a call through `run_hwi_command` ends, given the log before it: a
   * guard error leaves the executor untouched; otherwise the executor received
   * exactly the rendered vector, once, and its answer is the result.
   */
  ghost predicate Executed(exec: Executor, before: seq<seq<string>>, r: Result<string, Error>,
                           outcome: Result<Invocation, Error>)
    reads exec
  {
    match outcome
    case Err(e) => exec.sent == before && r == Err(e)
    case Ok(inv) => exec.sent == before + [Render(inv)] && r == exec.reply(Render(inv))
  }

  const NoMatchingDevice: Error := Hwi("No matching device found", None)

  /** The filters of `find_device`; an absent filter accepts every device. */
  predicate Matches(d: Device, deviceType: Option<DeviceType>, fingerprint: Option<string>)
  {
    && (deviceType.None? || d.deviceType == deviceType.value)
    && (fingerprint.None? || FingerprintString(d.fingerprint) == fingerprint.value)
  }

  /** The position of the first device that passes both filters. */
  function FirstMatch(devices: seq<Device>, deviceType: Option<DeviceType>, fingerprint: Option<string>)
    : (r: Option<nat>)
    ensures r.Some? ==> r.value < |devices| && Matches(devices[r.value], deviceType, fingerprint)
    ensures r.Some? ==> forall j | 0 <= j < r.value :: !Matches(devices[j], deviceType, fingerprint)
    ensures r.None? ==> forall j | 0 <= j < |devices| :: !Matches(devices[j], deviceType, fingerprint)
  {
    if |devices| == 0 then None
    else if Matches(devices[0], deviceType, fingerprint) then Some(0)
    else
      match FirstMatch(devices[1..], deviceType, fingerprint)
      case None => None
      case Some(i) => Some(i + 1)
  }

  /** `d` stands at a position of `devices` before which no device passes both filters. */
  ghost predicate FirstPassing(devices: seq<Device>, d: Device, deviceType: Option<DeviceType>, fingerprint: Option<string>)
  {
    exists i | 0 <= i < |devices| ::
      devices[i] == d && forall j | 0 <= j < i :: !Matches(devices[j], deviceType, fingerprint)
  }

  /** `devices.into_iter().find(...)`: the first device passing both filters, if any. */
  function SelectDevice(devices: seq<Device>, deviceType: Option<DeviceType>, fingerprint: Option<string>)
    : (r: Option<Device>)
    ensures r.Some? ==> r.value in devices && Matches(r.value, deviceType, fingerprint)
    ensures r.Some? ==> FirstPassing(devices, r.value, deviceType, fingerprint)
    ensures r.None? <==> forall d | d in devices :: !Matches(d, deviceType, fingerprint)
  {
    match FirstMatch(devices, deviceType, fingerprint)
    case None => None
    case Some(i) => Some(devices[i])
  }

  /**
   * Filtering on a fingerprint's own rendering selects a device with exactly
   * that fingerprint, and it is the first such device of the right type.
   */
  lemma SelectByFingerprint(devices: seq<Device>, deviceType: Option<DeviceType>, fp: Fingerprint)
    ensures var found := SelectDevice(devices, deviceType, Some(FingerprintString(fp)));
            && (found.Some? ==> found.value in devices && found.value.fingerprint == fp
                                && (deviceType.Some? ==> found.value.deviceType == deviceType.value))
            && (found.None? <==>
                  forall d | d in devices :: d.fingerprint != fp || (deviceType.Some? && d.deviceType != deviceType.value))
  {
    var f := Some(FingerprintString(fp));
    forall d | d in devices
      ensures Matches(d, deviceType, f) <==> d.fingerprint == fp && (deviceType.None? || d.deviceType == deviceType.value)
    {
      FingerprintStringInjective(d.fingerprint, fp);
    }
    var i := FirstMatch(devices, deviceType, f);
    if i.None? {
      forall d | d in devices
        ensures d.fingerprint != fp || (deviceType.Some? && d.deviceType != deviceType.value)
      {
        var j :| 0 <= j < |devices| && devices[j] == d;
        assert !Matches(devices[j], deviceType, f);
      }
    }
  }

  /**
   * What `find_device` makes of the executor's answer to its enumerate call:
   * the executor's error, the decoder's error, no matching device, or the
   * first matching device.
   */
  function FindOutcome(answer: Result<string, Error>, decode: string -> Result<seq<Device>, Error>,
                       deviceType: Option<DeviceType>, fingerprint: Option<string>)
    : (r: Result<Device, Error>)
    ensures answer.Err? ==> r == Err(answer.error)
    ensures answer.Ok? && decode(answer.value).Err? ==> r == Err(decode(answer.value).error)
    ensures r.Ok? ==> && answer.Ok? && decode(answer.value).Ok?
                      && r.value in decode(answer.value).value
                      && Matches(r.value, deviceType, fingerprint)
                      && FirstPassing(decode(answer.value).value, r.value, deviceType, fingerprint)
    ensures answer.Ok? && decode(answer.value).Ok? ==>
              && (r.Ok? <==> exists d | d in decode(answer.value).value :: Matches(d, deviceType, fingerprint))
              && (r.Err? ==> r.error == NoMatchingDevice)
  {
    match answer
    case Err(e) => Err(e)
    case Ok(output) =>
      match decode(output)
      case Err(e) => Err(e)
      case Ok(devices) =>
        match SelectDevice(devices, deviceType, fingerprint)
        case None => Err(NoMatchingDevice)
        case Some(d) => Ok(d)
  }

  /** The vector `find_device` hands to the executor: never a fingerprint, the caller's expert switch and chain. */
  function FindDeviceArgv(password: Option<string>, expert: bool, chain: Chain): seq<string>
  {
    Render(Invocation(None, expert, Some(ChainString(chain)), RequestArgs(Request.Enumerate(password))))
  }

  class BinaryClient {
    var device: Option<Device>
    var expert: bool
    var chain: Chain

    constructor (device: Option<Device>, expert: bool, chain: Chain)
      ensures this.device == device && this.expert == expert && this.chain == chain
    {
      this.device := device;
      this.expert := expert;
      this.chain := chain;
    }

    /** The outcome of running `q` with this client's device, expert switch and chain. */
    ghost function Bound(q: Request): Result<Invocation, Error>
      reads this
    {
      Invoke(device, expert, Some(chain), RequestArgs(q))
    }

    /**
     * `run_hwi_command`: the fingerprint guard, then the global flags pushed
     * in their fixed order, then the operation's tokens, then the executor.
     */
    static method RunHwiCommand(exec: Executor, device: Option<Device>, expert: bool,
                                chain: Option<Chain>, args: seq<string>)
      returns (r: Result<string, Error>)
      modifies exec
      ensures Executed(exec, old(exec.sent), r, Invoke(device, expert, chain, args))
    {
      var commandArgs: seq<string> := [];
      if !("enumerate" in args) && !("--version" in args) {
        if device.None? {
          return Err(Hwi("Device fingerprint not set", None));
        }
        commandArgs := commandArgs + ["--fingerprint", FingerprintString(device.value.fingerprint)];
      }
      if expert {
        commandArgs := commandArgs + ["--expert"];
      }
      if chain.Some? {
        commandArgs := commandArgs + ["--chain", ChainString(chain.value)];
      }
      commandArgs := commandArgs + args;
      assert commandArgs == Render(Invoke(device, expert, chain, args).value);
      r := exec.ExecuteCommand(commandArgs);
    }

    static method Enumerate(exec: Executor) returns (r: Result<string, Error>)
      modifies exec
      ensures exec.sent == old(exec.sent) + [["enumerate"]]
      ensures r == exec.reply(["enumerate"])
    {
      r := RunHwiCommand(exec, None, false, None, ["enumerate"]);
      assert Render(Invocation(None, false, None, ["enumerate"])) == ["enumerate"];
    }

    static method GetClient(device: Device, expert: bool, chain: Chain) returns (r: Result<BinaryClient, Error>)
      ensures r.Ok? && fresh(r.value)
      ensures r.value.device == Some(device) && r.value.expert == expert && r.value.chain == chain
    {
      var client := new BinaryClient(Some(device), expert, chain);
      r := Ok(client);
    }

    static method FindDevice(exec: Executor, decode: string -> Result<seq<Device>, Error>,
                             password: Option<string>, deviceType: Option<DeviceType>,
                             fingerprint: Option<string>, expert: bool, chain: Chain)
      returns (r: Result<BinaryClient, Error>)
      modifies exec
      ensures var argv := FindDeviceArgv(password, expert, chain);
              && exec.sent == old(exec.sent) + [argv]
              && match FindOutcome(exec.reply(argv), decode, deviceType, fingerprint)
                 case Err(e) => r == Err(e)
                 case Ok(d) =>
                   && r.Ok? && fresh(r.value)
                   && r.value.device == Some(d) && r.value.expert == expert && r.value.chain == chain
    {
      var client := new BinaryClient(None, expert, chain);
      var args := ["enumerate"];
      if password.Some? {
        args := args + ["--password", password.value];
      }
      assert args == RequestArgs(Request.Enumerate(password));
      var output := RunHwiCommand(exec, None, expert, Some(client.chain), args);
      if output.Err? {
        return Err(output.error);
      }
      var devices := decode(output.value);
      if devices.Err? {
        return Err(devices.error);
      }
      var found := SelectDevice(devices.value, deviceType, fingerprint);
      if found.None? {
        return Err(Hwi("No matching device found", None));
      }
      client.device := found;
      r := Ok(client);
    }

    method GetMasterXpub(exec: Executor, addrType: AddressType, account: u32) returns (r: Result<string, Error>)
      modifies exec
      ensures Executed(exec, old(exec.sent), r, Bound(Request.GetMasterXpub(addrType, account)))
    {
      var args := ["getmasterxpub"];
      args := args + ["--addr-type", AddressTypeString(addrType)];
      args := args + ["--account", Decimal(account)];
      assert args == RequestArgs(Request.GetMasterXpub(addrType, account));
      r := RunHwiCommand(exec, device, expert, Some(chain), args);
    }

    method SignTx(exec: Executor, psbt: Psbt) returns (r: Result<string, Error>)
      modifies exec
      ensures Executed(exec, old(exec.sent), r, Bound(Request.SignTx(PsbtString(psbt))))
    {
      var args := ["signtx", PsbtString(psbt)];
      assert args == RequestArgs(Request.SignTx(PsbtString(psbt)));
      r := RunHwiCommand(exec, device, expert, Some(chain), args);
    }

    /** Uses the `expert` argument, not the client's own switch. */
    method GetXpub(exec: Executor, path: string, expert: bool) returns (r: Result<string, Error>)
      modifies exec
      ensures Executed(exec, old(exec.sent), r,
                       Invoke(device, expert, Some(chain), RequestArgs(Request.GetXpub(path))))
    {
      var args := ["getxpub", path];
      assert args == RequestArgs(Request.GetXpub(path));
      r := RunHwiCommand(exec, device, expert, Some(chain), args);
    }

    method SignMessage(exec: Executor, message: string, path: string) returns (r: Result<string, Error>)
      modifies exec
      ensures Executed(exec, old(exec.sent), r, Bound(Request.SignMessage(message, path)))
    {
      var args := ["signmessage", message, path];
      assert args == RequestArgs(Request.SignMessage(message, path));
      r := RunHwiCommand(exec, device, expert, Some(chain), args);
    }

    method GetKeypool(exec: Executor, keypool: bool, internal: bool, addrType: AddressType,
                      addrAll: bool, account: u32, path: Option<string>, start: u32, end: u32)
      returns (r: Result<string, Error>)
      modifies exec
      ensures Executed(exec, old(exec.sent), r,
                       Bound(Request.GetKeypool(keypool, internal, addrType, addrAll, account, path, start, end)))
    {
      var args := ["getkeypool"];
      if keypool {
        args := args + ["--keypool"];
      }
      ghost var a1 := args;
      assert a1 == ["getkeypool"] + Switch(keypool, "--keypool");
      if internal {
        args := args + ["--internal"];
      }
      ghost var a2 := args;
      assert a2 == a1 + Switch(internal, "--internal");
      args := args + ["--addr-type", AddressTypeString(addrType)];
      if addrAll {
        args := args + ["--addr-all"];
      }
      ghost var a4 := args;
      assert a4 == a2 + ["--addr-type", AddressTypeString(addrType)] + Switch(addrAll, "--addr-all");
      args := args + ["--account", Decimal(account)];
      if path.Some? {
        args := args + ["--path", path.value];
      }
      ghost var a6 := args;
      assert a6 == a4 + ["--account", Decimal(account)] + Valued("--path", path);
      args := args + [Decimal(start)];
      args := args + [Decimal(end)];
      KeypoolPushOrder(Request.GetKeypool(keypool, internal, addrType, addrAll, account, path, start, end));
      r := RunHwiCommand(exec, device, expert, Some(chain), args);
    }

    method GetDescriptors(exec: Executor, account: u32) returns (r: Result<string, Error>)
      modifies exec
      ensures Executed(exec, old(exec.sent), r, Bound(Request.GetDescriptors(account)))
    {
      var args := ["getdescriptors"];
      args := args + ["--account", Decimal(account)];
      assert args == RequestArgs(Request.GetDescriptors(account));
      r := RunHwiCommand(exec, device, expert, Some(chain), args);
    }

    method DisplayAddressWithDesc(exec: Executor, descriptor: string) returns (r: Result<string, Error>)
      modifies exec
      ensures Executed(exec, old(exec.sent), r, Bound(Request.DisplayAddressWithDesc(descriptor)))
    {
      var args := ["displayaddress"];
      args := args + ["--desc"];
      args := args + [descriptor];
      assert args == RequestArgs(Request.DisplayAddressWithDesc(descriptor));
      r := RunHwiCommand(exec, device, expert, Some(chain), args);
    }

    method DisplayAddressWithPath(exec: Executor, path: string, addrType: AddressType)
      returns (r: Result<string, Error>)
      modifies exec
      ensures Executed(exec, old(exec.sent), r, Bound(Request.DisplayAddressWithPath(path, addrType)))
    {
      var args := ["displayaddress"];
      args := args + ["--path", path];
      args := args + ["--addr-type", AddressTypeString(addrType)];
      assert args == RequestArgs(Request.DisplayAddressWithPath(path, addrType));
      r := RunHwiCommand(exec, device, expert, Some(chain), args);
    }

    /** As written: no device is passed, so the fingerprint guard rejects the call (see `InstallUdevRulesRejected`). */
    static method InstallUdevRules(exec: Executor, source: string, location: string) returns (r: Result<string, Error>)
      modifies exec
      ensures Executed(exec, old(exec.sent), r, Invoke(None, false, None, RequestArgs(Request.InstallUdevRules(location))))
    {
      var args := ["installudevrules"];
      args := args + ["--location", location];
      assert args == RequestArgs(Request.InstallUdevRules(location));
      r := RunHwiCommand(exec, None, false, None, args);
    }

    static function SetLogLevel(level: LogLevel): (r: Result<(), Error>)
      ensures r == Err(NotImplemented)
    {
      Err(NotImplemented)
    }

    method TogglePassphrase(exec: Executor) returns (r: Result<string, Error>)
      modifies exec
      ensures Executed(exec, old(exec.sent), r, Bound(Request.TogglePassphrase))
    {
      var args := ["togglepassphrase"];
      assert args == RequestArgs(Request.TogglePassphrase);
      r := RunHwiCommand(exec, device, expert, Some(chain), args);
    }

    method SetupDevice(exec: Executor, deviceLabel: string, passphrase: string) returns (r: Result<string, Error>)
      modifies exec
      ensures Executed(exec, old(exec.sent), r, Bound(Request.SetupDevice(deviceLabel, passphrase)))
    {
      var args := ["setup"];
      args := args + ["--label", deviceLabel];
      args := args + ["--backup_passphrase", passphrase];
      assert args == RequestArgs(Request.SetupDevice(deviceLabel, passphrase));
      r := RunHwiCommand(exec, device, expert, Some(chain), args);
    }

    method RestoreDevice(exec: Executor, deviceLabel: string, wordCount: u8) returns (r: Result<string, Error>)
      modifies exec
      ensures Executed(exec, old(exec.sent), r, Bound(Request.RestoreDevice(deviceLabel, wordCount)))
    {
      var args := ["restore"];
      args := args + ["--word_count", Decimal(wordCount)];
      args := args + ["--label", deviceLabel];
      assert args == RequestArgs(Request.RestoreDevice(deviceLabel, wordCount));
      r := RunHwiCommand(exec, device, expert, Some(chain), args);
    }

    method BackupDevice(exec: Executor, deviceLabel: string, backupPassphrase: string)
      returns (r: Result<string, Error>)
      modifies exec
      ensures Executed(exec, old(exec.sent), r, Bound(Request.BackupDevice(deviceLabel, backupPassphrase)))
    {
      var args := ["backup"];
      args := args + ["--label", deviceLabel];
      args := args + ["--backup_passphrase", backupPassphrase];
      assert args == RequestArgs(Request.BackupDevice(deviceLabel, backupPassphrase));
      r := RunHwiCommand(exec, device, expert, Some(chain), args);
    }

    method WipeDevice(exec: Executor) returns (r: Result<string, Error>)
      modifies exec
      ensures Executed(exec, old(exec.sent), r, Bound(Request.WipeDevice))
    {
      var args := ["wipe"];
      assert args == RequestArgs(Request.WipeDevice);
      r := RunHwiCommand(exec, device, expert, Some(chain), args);
    }

    static method GetVersion(exec: Executor) returns (r: Result<string, Error>)
      modifies exec
      ensures exec.sent == old(exec.sent) + [["--version"]]
      ensures r == exec.reply(["--version"])
    {
      var args := ["--version"];
      r := RunHwiCommand(exec, None, false, None, args);
      assert Render(Invocation(None, false, None, ["--version"])) == ["--version"];
    }

    static function InstallHwilib(version: string): (r: Result<(), Error>)
      ensures r == Err(NotImplemented)
    {
      Err(NotImplemented)
    }
  }

  // ---------------------------------------------------------------------
  // What the executor receives

  /**
   * The vector handed to the executor for an operation determines the call:
   * the global flags read back as `run_hwi_command` wrote them, the remaining
   * tokens read back as the operation, and a fingerprint is present exactly
   * when the guard applies, in which case it is the device's.
   */
  lemma {:induction false} SentVectorDecodes(device: Option<Device>, expert: bool, chain: Option<Chain>, q: Request)
    requires Invoke(device, expert, chain, RequestArgs(q)).Ok?
    ensures var inv := ParseInvocation(Render(Invoke(device, expert, chain, RequestArgs(q)).value));
            && ParseRequest(inv.args) == Some(q)
            && inv.expert == expert
            && inv.chain == chain.Map(ChainString)
            && (inv.fingerprint.Some? <==>
                  !q.Enumerate? && !q.GetVersion? && forall s | s in CallerStrings(q) :: !GuardWord(s))
            && (inv.fingerprint.Some? ==>
                  device.Some? && inv.fingerprint.value == FingerprintString(device.value.fingerprint))
  {
    RequestArgsAfterGlobalFlags(q);
    ParseRenderRoundTrip(Invoke(device, expert, chain, RequestArgs(q)).value);
    ParseRequestRoundTrip(q);
    GuardByRequest(q);
  }

  /**
   * Without a device an operation is rejected before the executor is reached
   * exactly when the guard applies: for every operation but enumerate and
   * `--version`, unless one of the caller's strings is a guard word.
   */
  lemma {:induction false} RejectedWithoutDevice(expert: bool, chain: Option<Chain>, q: Request)
    ensures Invoke(None, expert, chain, RequestArgs(q)) == Err(FingerprintNotSet) <==>
            !q.Enumerate? && !q.GetVersion? && forall s | s in CallerStrings(q) :: !GuardWord(s)
  {
    GuardByRequest(q);
  }

  /**
   * The guard inspects every token, so a message that reads `enumerate` sends
   * `signmessage` without any fingerprint, whatever device the client holds.
   */
  lemma {:induction false} GuardWordMessageDropsFingerprint(device: Option<Device>, expert: bool, chain: Option<Chain>,
                                                            path: string)
    ensures var r := Invoke(device, expert, chain, RequestArgs(Request.SignMessage("enumerate", path)));
            r.Ok? && r.value.fingerprint.None?
  {
    assert RequestArgs(Request.SignMessage("enumerate", path))[1] == "enumerate";
  }

  /**
   * `find_device` enumerates without a fingerprint (the filters are applied to
   * the answer, not passed to the tool) but with the caller's expert switch
   * and chain.
   */
  lemma {:induction false} FindDeviceArgvDecodes(password: Option<string>, expert: bool, chain: Chain)
    ensures var inv := ParseInvocation(FindDeviceArgv(password, expert, chain));
            && inv == Invocation(None, expert, Some(ChainString(chain)), RequestArgs(Request.Enumerate(password)))
            && ParseRequest(inv.args) == Some(Request.Enumerate(password))
  {
    RequestArgsAfterGlobalFlags(Request.Enumerate(password));
    ParseRenderRoundTrip(Invocation(None, expert, Some(ChainString(chain)), RequestArgs(Request.Enumerate(password))));
    ParseRequestRoundTrip(Request.Enumerate(password));
  }

  // ---------------------------------------------------------------------
  // install_udev_rules

  /**
   * As written, `install_udev_rules` passes no device to `run_hwi_command`,
   * and its tokens hold no guard word unless the location is one, so the call
   * is rejected with "Device fingerprint not set" before the executor is reached.
   */
  lemma {:induction false} InstallUdevRulesRejected(location: string)
    ensures Invoke(None, false, None, RequestArgs(Request.InstallUdevRules(location))) == Err(FingerprintNotSet)
            <==> !GuardWord(location)
  {
    RejectedWithoutDevice(false, None, Request.InstallUdevRules(location));
    assert CallerStrings(Request.InstallUdevRules(location)) == [location];
  }

  /**
   * The evidently intended guard: installing udev rules concerns the host,
   * not a device, so `installudevrules` is exempt like enumerate and
   * `--version`; every other vector is treated as `run_hwi_command` treats it.
   */
  function InvokeIntended(device: Option<Device>, expert: bool, chain: Option<Chain>, args: seq<string>)
    : (r: Result<Invocation, Error>)
    ensures r.Err? <==> device.None? && NeedsFingerprint(args) && !(|args| > 0 && args[0] == "installudevrules")
    ensures r.Err? ==> r.error == FingerprintNotSet
    ensures r.Ok? ==> r.value.args == args && r.value.expert == expert && r.value.chain == chain.Map(ChainString)
    ensures r.Ok? ==>
              (r.value.fingerprint.Some? <==> NeedsFingerprint(args) && !(|args| > 0 && args[0] == "installudevrules"))
    ensures r.Ok? && r.value.fingerprint.Some? ==>
              device.Some? && r.value.fingerprint.value == FingerprintString(device.value.fingerprint)
  {
    if |args| > 0 && args[0] == "installudevrules" then Ok(Invocation(None, expert, chain.Map(ChainString), args))
    else Invoke(device, expert, chain, args)
  }

  /**
   * With the intended guard `install_udev_rules` reaches the executor with
   * exactly its own tokens, and every other operation behaves as written.
   */
  lemma {:induction false} InvokeIntendedAgrees(device: Option<Device>, expert: bool, chain: Option<Chain>, q: Request)
    ensures q.InstallUdevRules? ==>
              var r := InvokeIntended(device, expert, chain, RequestArgs(q));
              r.Ok? && r.value.fingerprint.None? && (!expert && chain.None? ==> Render(r.value) == RequestArgs(q))
    ensures !q.InstallUdevRules? ==>
              InvokeIntended(device, expert, chain, RequestArgs(q)) == Invoke(device, expert, chain, RequestArgs(q))
  {
    var args := RequestArgs(q);
    if q.InstallUdevRules? {
      assert args[0] == "installudevrules";
    } else {
      SubcommandIsNotInstall(q);
    }
  }

  lemma SubcommandIsNotInstall(q: Request)
    requires !q.InstallUdevRules?
    ensures |RequestArgs(q)| > 0 && RequestArgs(q)[0] != "installudevrules"
  {
  }

  /** `install_udev_rules` with the intended guard: the tokens go to the executor unchanged. */
  method InstallUdevRulesIntended(exec: Executor, source: string, location: string) returns (r: Result<string, Error>)
    modifies exec
    ensures Executed(exec, old(exec.sent), r,
                     InvokeIntended(None, false, None, RequestArgs(Request.InstallUdevRules(location))))
    ensures exec.sent == old(exec.sent) + [["installudevrules", "--location", location]]
  {
    var args := ["installudevrules"];
    args := args + ["--location", location];
    assert args == RequestArgs(Request.InstallUdevRules(location));
    assert Render(Invocation(None, false, None, args)) == args;
    r := exec.ExecuteCommand(args);
  }
}
