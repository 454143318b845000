/**
 * The operation tokens that each operation of the subprocess backend
 * (`BinaryHWIImplementation`) hands to `run_hwi_command`, one constructor
 * per operation that reaches the executor.
 */
module Requests {
  import opened Wrappers
  import opened Types
  import opened Argv

  datatype Request =
    /** `enumerate()` (no password) and the first step of `find_device`. */
    | Enumerate(password: Option<string>)
    | GetMasterXpub(addrType: AddressType, account: u32)
    /** `sign_tx`; the PSBT travels as its textual encoding. */
    | SignTx(psbt: string)
    | GetXpub(path: string)
    | SignMessage(message: string, path: string)
    | GetKeypool(keypool: bool, internal: bool, addrType: AddressType, addrAll: bool,
                 account: u32, keypoolPath: Option<string>, start: u32, end: u32)
    | GetDescriptors(account: u32)
    | DisplayAddressWithDesc(descriptor: string)
    | DisplayAddressWithPath(path: string, addrType: AddressType)
    | InstallUdevRules(location: string)
    | TogglePassphrase
    | SetupDevice(deviceLabel: string, passphrase: string)
    | RestoreDevice(deviceLabel: string, wordCount: u8)
    | BackupDevice(deviceLabel: string, passphrase: string)
    | WipeDevice
    | GetVersion

  /** The tokens each operation builds, in the order the backend pushes them. */
  function RequestArgs(q: Request): seq<string>
  {
    match q
    case Enumerate(password) => ["enumerate"] + Valued("--password", password)
    case GetMasterXpub(t, account) =>
      ["getmasterxpub", "--addr-type", AddressTypeString(t), "--account", Decimal(account)]
    case SignTx(psbt) => ["signtx", psbt]
    case GetXpub(path) => ["getxpub", path]
    case SignMessage(message, path) => ["signmessage", message, path]
    case GetKeypool(keypool, internal, t, addrAll, account, path, start, end) =>
      ["getkeypool"] + (Switch(keypool, "--keypool") + (Switch(internal, "--internal")
      + (["--addr-type", AddressTypeString(t)] + (Switch(addrAll, "--addr-all")
      + (["--account", Decimal(account)] + (Valued("--path", path)
      + [Decimal(start), Decimal(end)]))))))
    case GetDescriptors(account) => ["getdescriptors", "--account", Decimal(account)]
    case DisplayAddressWithDesc(descriptor) => ["displayaddress", "--desc", descriptor]
    case DisplayAddressWithPath(path, t) =>
      ["displayaddress", "--path", path, "--addr-type", AddressTypeString(t)]
    case InstallUdevRules(location) => ["installudevrules", "--location", location]
    case TogglePassphrase => ["togglepassphrase"]
    case SetupDevice(deviceLabel, passphrase) =>
      ["setup", "--label", deviceLabel, "--backup_passphrase", passphrase]
    case RestoreDevice(deviceLabel, wordCount) =>
      ["restore", "--word_count", Decimal(wordCount), "--label", deviceLabel]
    case BackupDevice(deviceLabel, passphrase) =>
      ["backup", "--label", deviceLabel, "--backup_passphrase", passphrase]
    case WipeDevice => ["wipe"]
    case GetVersion => ["--version"]
  }

  function ParseU32(s: string): Option<u32>
  {
    match ParseDecimal(s)
    case Some(v) => if v < 0x1_0000_0000 then Some(v) else None
    case None => None
  }

  function ParseU8(s: string): Option<u8>
  {
    match ParseDecimal(s)
    case Some(v) => if v < 256 then Some(v) else None
    case None => None
  }

  /** The `getkeypool` tokens after the subcommand, read in the order they are written. */
  function ParseKeypool(rest: seq<string>): Option<Request>
  {
    var (keypool, r1) := TakeSwitch(rest, "--keypool");
    var (internal, r2) := TakeSwitch(r1, "--internal");
    var (tName, r3) := TakeValued(r2, "--addr-type");
    var (addrAll, r4) := TakeSwitch(r3, "--addr-all");
    var (accountStr, r5) := TakeValued(r4, "--account");
    var (path, r6) := TakeValued(r5, "--path");
    if tName.None? || accountStr.None? || |r6| != 2 then None
    else
      match (ParseAddressType(tName.value), ParseU32(accountStr.value), ParseU32(r6[0]), ParseU32(r6[1]))
      case (Some(t), Some(account), Some(start), Some(end)) =>
        Some(GetKeypool(keypool, internal, t, addrAll, account, path, start, end))
      case _ => None
  }

  /** Reads an operation back from its tokens; the inverse of `RequestArgs`. */
  function ParseRequest(args: seq<string>): Option<Request>
  {
    if |args| == 0 then None
    else
      var sub, n := args[0], |args|;
      if sub == "enumerate" then
        if n == 1 then Some(Enumerate(None))
        else if n == 3 && args[1] == "--password" then Some(Enumerate(Some(args[2])))
        else None
      else if sub == "getmasterxpub" then
        if n == 5 && args[1] == "--addr-type" && args[3] == "--account" then
          match (ParseAddressType(args[2]), ParseU32(args[4]))
          case (Some(t), Some(account)) => Some(GetMasterXpub(t, account))
          case _ => None
        else None
      else if sub == "signtx" then
        if n == 2 then Some(SignTx(args[1])) else None
      else if sub == "getxpub" then
        if n == 2 then Some(GetXpub(args[1])) else None
      else if sub == "signmessage" then
        if n == 3 then Some(SignMessage(args[1], args[2])) else None
      else if sub == "getkeypool" then
        ParseKeypool(args[1..])
      else if sub == "getdescriptors" then
        if n == 3 && args[1] == "--account" then
          match ParseU32(args[2])
          case Some(account) => Some(GetDescriptors(account))
          case None => None
        else None
      else if sub == "displayaddress" then
        if n == 3 && args[1] == "--desc" then Some(DisplayAddressWithDesc(args[2]))
        else if n == 5 && args[1] == "--path" && args[3] == "--addr-type" then
          match ParseAddressType(args[4])
          case Some(t) => Some(DisplayAddressWithPath(args[2], t))
          case None => None
        else None
      else if sub == "installudevrules" then
        if n == 3 && args[1] == "--location" then Some(InstallUdevRules(args[2])) else None
      else if sub == "togglepassphrase" then
        if n == 1 then Some(TogglePassphrase) else None
      else if sub == "setup" then
        if n == 5 && args[1] == "--label" && args[3] == "--backup_passphrase" then
          Some(SetupDevice(args[2], args[4]))
        else None
      else if sub == "restore" then
        if n == 5 && args[1] == "--word_count" && args[3] == "--label" then
          match ParseU8(args[2])
          case Some(w) => Some(RestoreDevice(args[4], w))
          case None => None
        else None
      else if sub == "backup" then
        if n == 5 && args[1] == "--label" && args[3] == "--backup_passphrase" then
          Some(BackupDevice(args[2], args[4]))
        else None
      else if sub == "wipe" then
        if n == 1 then Some(WipeDevice) else None
      else if sub == "--version" then
        if n == 1 then Some(GetVersion) else None
      else None
  }

  lemma U32RoundTrip(n: u32)
    ensures ParseU32(Decimal(n)) == Some(n)
  {
    DecimalRoundTrip(n);
  }

  lemma U8RoundTrip(n: u8)
    ensures ParseU8(Decimal(n)) == Some(n)
  {
    DecimalRoundTrip(n);
  }

  /** The `getkeypool` tokens after the subcommand, as the nested pieces `ParseKeypool` consumes. */
  lemma KeypoolTokens(q: Request)
    requires q.GetKeypool?
    ensures RequestArgs(q)[1..] ==
      Switch(q.keypool, "--keypool") + (Switch(q.internal, "--internal")
      + (Valued("--addr-type", Some(AddressTypeString(q.addrType))) + (Switch(q.addrAll, "--addr-all")
      + (Valued("--account", Some(Decimal(q.account))) + (Valued("--path", q.keypoolPath)
      + [Decimal(q.start), Decimal(q.end)])))))
  {
  }

  /** The `getkeypool` tokens as they are pushed one after another onto the vector. */
  lemma KeypoolPushOrder(q: Request)
    requires q.GetKeypool?
    ensures RequestArgs(q) ==
      ["getkeypool"] + Switch(q.keypool, "--keypool") + Switch(q.internal, "--internal")
      + ["--addr-type", AddressTypeString(q.addrType)] + Switch(q.addrAll, "--addr-all")
      + ["--account", Decimal(q.account)] + Valued("--path", q.keypoolPath)
      + [Decimal(q.start)] + [Decimal(q.end)]
  {
    var a, b, c := Switch(q.keypool, "--keypool"), Switch(q.internal, "--internal"), ["--addr-type", AddressTypeString(q.addrType)];
    var d, e := Switch(q.addrAll, "--addr-all"), ["--account", Decimal(q.account)];
    var p, t := Valued("--path", q.keypoolPath), [Decimal(q.start), Decimal(q.end)];
    assert [Decimal(q.start)] + [Decimal(q.end)] == t;
    AppendRegroup(a, b, c, d, e, p + t);
    assert ["getkeypool"] + a + b + c + d + e + p + t == ["getkeypool"] + (a + (b + (c + (d + (e + (p + t))))));
  }

  /** `ParseKeypool` reads back any fields written in the `getkeypool` order. */
  lemma ParseKeypoolFields(keypool: bool, internal: bool, tName: string, addrAll: bool,
                           accountStr: string, path: Option<string>, startStr: string, endStr: string,
                           t: AddressType, account: u32, start: u32, end: u32)
    requires ParseAddressType(tName) == Some(t)
    requires ParseU32(accountStr) == Some(account)
    requires ParseU32(startStr) == Some(start) && ParseU32(endStr) == Some(end)
    requires startStr != "--path"
    ensures ParseKeypool(
      Switch(keypool, "--keypool") + (Switch(internal, "--internal")
      + (Valued("--addr-type", Some(tName)) + (Switch(addrAll, "--addr-all")
      + (Valued("--account", Some(accountStr)) + (Valued("--path", path)
      + [startStr, endStr]))))))
      == Some(GetKeypool(keypool, internal, t, addrAll, account, path, start, end))
  {
    var r6 := [startStr, endStr];
    var r5 := Valued("--path", path) + r6;
    var r4 := Valued("--account", Some(accountStr)) + r5;
    var r3 := Switch(addrAll, "--addr-all") + r4;
    var r2 := Valued("--addr-type", Some(tName)) + r3;
    var r1 := Switch(internal, "--internal") + r2;
    TakeValuedRoundTrip("--path", path, r6);
    TakeValuedRoundTrip("--account", Some(accountStr), r5);
    TakeSwitchRoundTrip(addrAll, "--addr-all", r4);
    TakeValuedRoundTrip("--addr-type", Some(tName), r3);
    TakeSwitchRoundTrip(internal, "--internal", r2);
    TakeSwitchRoundTrip(keypool, "--keypool", r1);
  }

  lemma KeypoolRoundTrip(q: Request)
    requires q.GetKeypool?
    ensures ParseKeypool(RequestArgs(q)[1..]) == Some(q)
  {
    KeypoolTokens(q);
    AddressTypeRoundTrip(q.addrType);
    U32RoundTrip(q.account);
    U32RoundTrip(q.start);
    U32RoundTrip(q.end);
    DecimalIsNotFlag(q.start);
    ParseKeypoolFields(q.keypool, q.internal, AddressTypeString(q.addrType), q.addrAll,
                       Decimal(q.account), q.keypoolPath, Decimal(q.start), Decimal(q.end),
                       q.addrType, q.account, q.start, q.end);
  }

  /** Operations without caller-supplied numbers or address types. */
  lemma RoundTripPlain(q: Request)
    requires q.Enumerate? || q.SignTx? || q.GetXpub? || q.SignMessage? || q.TogglePassphrase?
    ensures ParseRequest(RequestArgs(q)) == Some(q)
  {
  }

  lemma RoundTripKeys(q: Request)
    requires q.GetMasterXpub? || q.GetKeypool? || q.GetDescriptors?
    ensures ParseRequest(RequestArgs(q)) == Some(q)
  {
    if q.GetMasterXpub? {
      AddressTypeRoundTrip(q.addrType);
      U32RoundTrip(q.account);
    } else if q.GetKeypool? {
      KeypoolRoundTrip(q);
    } else {
      U32RoundTrip(q.account);
    }
  }

  lemma RoundTripDisplay(q: Request)
    requires q.DisplayAddressWithDesc? || q.DisplayAddressWithPath? || q.InstallUdevRules?
    ensures ParseRequest(RequestArgs(q)) == Some(q)
  {
    if q.DisplayAddressWithPath? {
      AddressTypeRoundTrip(q.addrType);
    }
  }

  lemma RoundTripLifecycle(q: Request)
    requires q.SetupDevice? || q.BackupDevice? || q.WipeDevice?
    ensures ParseRequest(RequestArgs(q)) == Some(q)
  {
  }

  lemma RoundTripRestore(q: Request)
    requires q.RestoreDevice? || q.GetVersion?
    ensures ParseRequest(RequestArgs(q)) == Some(q)
  {
    if q.RestoreDevice? {
      U8RoundTrip(q.wordCount);
    }
  }

  /**
   * Every operation's tokens can be read back into the operation: no two
   * operations, and no two argument choices of one operation, put the same
   * tokens on the command line.
   */
  lemma ParseRequestRoundTrip(q: Request)
    ensures ParseRequest(RequestArgs(q)) == Some(q)
  {
    if q.Enumerate? || q.SignTx? || q.GetXpub? || q.SignMessage? || q.TogglePassphrase? {
      RoundTripPlain(q);
    } else if q.GetMasterXpub? || q.GetKeypool? || q.GetDescriptors? {
      RoundTripKeys(q);
    } else if q.DisplayAddressWithDesc? || q.DisplayAddressWithPath? || q.InstallUdevRules? {
      RoundTripDisplay(q);
    } else if q.SetupDevice? || q.BackupDevice? || q.WipeDevice? {
      RoundTripLifecycle(q);
    } else {
      RoundTripRestore(q);
    }
  }

  /** The caller-supplied strings each operation copies verbatim into its tokens. */
  function CallerStrings(q: Request): seq<string>
  {
    match q
    case Enumerate(password) => if password.Some? then [password.value] else []
    case SignTx(psbt) => [psbt]
    case GetXpub(path) => [path]
    case SignMessage(message, path) => [message, path]
    case GetKeypool(_, _, _, _, _, path, _, _) => if path.Some? then [path.value] else []
    case DisplayAddressWithDesc(descriptor) => [descriptor]
    case DisplayAddressWithPath(path, _) => [path]
    case InstallUdevRules(location) => [location]
    case SetupDevice(deviceLabel, passphrase) => [deviceLabel, passphrase]
    case RestoreDevice(deviceLabel, _) => [deviceLabel]
    case BackupDevice(deviceLabel, passphrase) => [deviceLabel, passphrase]
    case _ => []
  }

  /** A token that switches the fingerprint guard off. */
  predicate GuardWord(s: string)
  {
    s == "enumerate" || s == "--version"
  }

  /**
   * The guard outcome of an operation follows from its tokens: apart from the
   * caller's strings, the only token that is a guard word is the subcommand
   * of enumerate and of `--version`.
   */
  predicate GuardWordsAre(q: Request)
  {
    && (forall s | s in CallerStrings(q) :: s in RequestArgs(q))
    && (forall s | s in RequestArgs(q) && GuardWord(s) ::
          s in CallerStrings(q) || q.Enumerate? || q.GetVersion?)
  }

  lemma GuardWordsPlain(q: Request)
    requires q.Enumerate? || q.SignTx? || q.GetXpub? || q.SignMessage? || q.TogglePassphrase?
             || q.DisplayAddressWithDesc? || q.InstallUdevRules?
    ensures GuardWordsAre(q)
  {
  }

  lemma GuardWordsKeys(q: Request)
    requires q.GetMasterXpub? || q.GetDescriptors? || q.DisplayAddressWithPath?
    ensures GuardWordsAre(q)
  {
    if !q.GetDescriptors? {
      AddressTypeIsNotGuardWord(q.addrType);
    }
    if !q.DisplayAddressWithPath? {
      DecimalIsNotFlag(q.account);
    }
  }

  /** No token of `xs` is a guard word. */
  predicate GuardFree(xs: seq<string>)
  {
    forall s | s in xs :: !GuardWord(s)
  }

  lemma GuardFreeAppend(a: seq<string>, b: seq<string>)
    ensures GuardFree(a + b) <==> GuardFree(a) && GuardFree(b)
  {
    if GuardFree(a) && GuardFree(b) {
      forall s | s in a + b
        ensures !GuardWord(s)
      {
        assert s in a || s in b;
      }
    }
    if GuardFree(a + b) {
      forall s | s in a
        ensures !GuardWord(s)
      {
        assert s in a + b;
      }
      forall s | s in b
        ensures !GuardWord(s)
      {
        assert s in a + b;
      }
    }
  }

  lemma GuardFreeSwitch(on: bool, token: string)
    requires !GuardWord(token)
    ensures GuardFree(Switch(on, token))
  {
  }

  /** The fixed `getkeypool` fields before the optional path hold no guard word. */
  lemma KeypoolFrontGuardFree(keypool: bool, internal: bool, tName: string, addrAll: bool, accountStr: string)
    requires !GuardWord(tName) && !GuardWord(accountStr)
    ensures GuardFree(Switch(keypool, "--keypool") + (Switch(internal, "--internal")
      + (Valued("--addr-type", Some(tName)) + (Switch(addrAll, "--addr-all")
      + Valued("--account", Some(accountStr))))))
  {
    var r4 := Valued("--account", Some(accountStr));
    assert GuardFree(r4) by {
      assert !GuardWord("--account") by { assert "--account"[2] != "--version"[2]; }
    }
    var r3 := Switch(addrAll, "--addr-all") + r4;
    assert GuardFree(r3) by {
      GuardFreeSwitch(addrAll, "--addr-all");
      GuardFreeAppend(Switch(addrAll, "--addr-all"), r4);
    }
    var r2 := Valued("--addr-type", Some(tName)) + r3;
    assert GuardFree(r2) by {
      GuardFreeAppend(Valued("--addr-type", Some(tName)), r3);
    }
    var r1 := Switch(internal, "--internal") + r2;
    assert GuardFree(r1) by {
      GuardFreeSwitch(internal, "--internal");
      GuardFreeAppend(Switch(internal, "--internal"), r2);
    }
    assert !GuardWord("--keypool") by { assert "--keypool"[2] != "--version"[2]; }
    GuardFreeSwitch(keypool, "--keypool");
    GuardFreeAppend(Switch(keypool, "--keypool"), r1);
  }

  lemma AppendRegroup(a: seq<string>, b: seq<string>, c: seq<string>, d: seq<string>,
                       e: seq<string>, t: seq<string>)
    ensures (a + (b + (c + (d + e)))) + t == a + (b + (c + (d + (e + t))))
  {
  }

  /** In a `getkeypool` vector whose fixed fields hold no guard word, only the path can be one. */
  lemma KeypoolGuardWords(args: seq<string>, front: seq<string>, path: Option<string>,
                          startStr: string, endStr: string)
    requires GuardFree(front) && !GuardWord(startStr) && !GuardWord(endStr)
    requires args == ["getkeypool"] + (front + (Valued("--path", path) + [startStr, endStr]))
    ensures forall s | s in args && GuardWord(s) :: path.Some? && s == path.value
    ensures path.Some? ==> path.value in args
  {
    var pathPart := Valued("--path", path);
    forall s | s in args && GuardWord(s)
      ensures path.Some? && s == path.value
    {
      assert s == "getkeypool" || s in front || s in pathPart || s in [startStr, endStr];
    }
    if path.Some? {
      assert args[|front| + 2] == path.value;
    }
  }

  lemma GuardWordsKeypool(q: Request)
    requires q.GetKeypool?
    ensures GuardWordsAre(q)
  {
    DecimalIsNotFlag(q.account);
    DecimalIsNotFlag(q.start);
    DecimalIsNotFlag(q.end);
    AddressTypeIsNotGuardWord(q.addrType);
    var tName := AddressTypeString(q.addrType);
    var a, b, c := Switch(q.keypool, "--keypool"), Switch(q.internal, "--internal"), Valued("--addr-type", Some(tName));
    var d, e := Switch(q.addrAll, "--addr-all"), Valued("--account", Some(Decimal(q.account)));
    var t := Valued("--path", q.keypoolPath) + [Decimal(q.start), Decimal(q.end)];
    KeypoolFrontGuardFree(q.keypool, q.internal, tName, q.addrAll, Decimal(q.account));
    AppendRegroup(a, b, c, d, e, t);
    KeypoolGuardWords(RequestArgs(q), a + (b + (c + (d + e))), q.keypoolPath, Decimal(q.start), Decimal(q.end));
  }

  lemma GuardWordsLifecycle(q: Request)
    requires q.SetupDevice? || q.RestoreDevice? || q.BackupDevice? || q.WipeDevice? || q.GetVersion?
    ensures GuardWordsAre(q)
  {
    if q.RestoreDevice? {
      DecimalIsNotFlag(q.wordCount);
    }
  }

  /**
   * When the fingerprint guard of `run_hwi_command` applies to an operation:
   * never to enumerate or `--version`, and to every other operation exactly
   * when none of the caller's strings is `enumerate` or `--version` (the guard
   * looks at every token, not only at the subcommand).
   */
  lemma GuardByRequest(q: Request)
    ensures NeedsFingerprint(RequestArgs(q)) <==>
            !q.Enumerate? && !q.GetVersion? && forall s | s in CallerStrings(q) :: !GuardWord(s)
  {
    if q.Enumerate? || q.SignTx? || q.GetXpub? || q.SignMessage? || q.TogglePassphrase?
       || q.DisplayAddressWithDesc? || q.InstallUdevRules? {
      GuardWordsPlain(q);
    } else if q.GetMasterXpub? || q.GetDescriptors? || q.DisplayAddressWithPath? {
      GuardWordsKeys(q);
    } else if q.GetKeypool? {
      GuardWordsKeypool(q);
    } else {
      GuardWordsLifecycle(q);
    }
    var args := RequestArgs(q);
    if q.Enumerate? {
      assert args[0] == "enumerate";
    } else if q.GetVersion? {
      assert args[0] == "--version";
    }
  }

  /** No operation's tokens begin with a global flag, so the global flags can always be read back. */
  lemma RequestArgsAfterGlobalFlags(q: Request)
    ensures |RequestArgs(q)| > 0 && !LeadsWithGlobalFlag(RequestArgs(q))
  {
  }
}
