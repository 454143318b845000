/**
 * The older command builder: `HWISubcommand`, `HWIFlag` with its `Display`,
 * and `HWICommand`, which wraps the `hwi` program and appends one lower-cased
 * token per builder call.
 */
module Commands {
  import opened Wrappers
  import Types

  // ---------------------------------------------------------------------
  // Lower-casing

  /** ASCII lower-casing of one character; every other character is kept. */
  function LowerChar(c: char): (r: char)
    ensures 'A' <= c <= 'Z' ==> r as int == c as int + 32
    ensures !('A' <= c <= 'Z') ==> r == c
    ensures !('A' <= r <= 'Z')
  {
    if 'A' <= c <= 'Z' then (c as int + 32) as char else c
  }

  /** `to_lowercase`, character by character. */
  function Lower(s: string): (r: string)
    ensures |r| == |s|
  {
    seq(|s|, i requires 0 <= i < |s| => LowerChar(s[i]))
  }

  predicate HasNoUpper(s: string)
  {
    forall i | 0 <= i < |s| :: !('A' <= s[i] <= 'Z')
  }

  /** Lower-casing yields no upper-case letter and leaves a string without one unchanged. */
  lemma LowerIsIdempotent(s: string)
    ensures HasNoUpper(Lower(s))
    ensures HasNoUpper(s) ==> Lower(s) == s
    ensures Lower(Lower(s)) == Lower(s)
  {
    if HasNoUpper(s) {
      assert forall i | 0 <= i < |s| :: Lower(s)[i] == s[i];
    }
    var l := Lower(s);
    assert forall i | 0 <= i < |l| :: Lower(l)[i] == l[i];
  }

  /** Lower-casing a concatenation lower-cases each part. */
  lemma LowerAppend(a: string, b: string)
    ensures Lower(a + b) == Lower(a) + Lower(b)
  {
    var l := Lower(a + b);
    forall i | 0 <= i < |a + b|
      ensures l[i] == (Lower(a) + Lower(b))[i]
    {
      if i < |a| {
        assert (a + b)[i] == a[i];
      } else {
        assert (a + b)[i] == b[i - |a|];
      }
    }
  }

  // ---------------------------------------------------------------------
  // Subcommands

  datatype Subcommand =
    | Enumerate | GetMasterXpub | SignTx | GetXpub | SignMessage | GetKeypool | GetDescriptors
    | DisplayAddress | Setup | Wipe | Restore | Backup | PromptPin | SendPin

  /** The derived `Display` of a subcommand: its variant name. */
  function SubcommandName(s: Subcommand): string
  {
    match s
    case Enumerate => "Enumerate"
    case GetMasterXpub => "GetMasterXpub"
    case SignTx => "SignTx"
    case GetXpub => "GetXpub"
    case SignMessage => "SignMessage"
    case GetKeypool => "GetKeypool"
    case GetDescriptors => "GetDescriptors"
    case DisplayAddress => "DisplayAddress"
    case Setup => "Setup"
    case Wipe => "Wipe"
    case Restore => "Restore"
    case Backup => "Backup"
    case PromptPin => "PromptPin"
    case SendPin => "SendPin"
  }

  /** The token `add_subcommand` appends: the variant name, lower-cased. */
  function SubcommandToken(s: Subcommand): string
  {
    Lower(SubcommandName(s))
  }

  /** The subcommand a token names, as the `hwi` tool reads it. */
  function ParseSubcommand(t: string): Option<Subcommand>
  {
    if t == "enumerate" then Some(Enumerate)
    else if t == "getmasterxpub" then Some(GetMasterXpub)
    else if t == "signtx" then Some(SignTx)
    else if t == "getxpub" then Some(GetXpub)
    else if t == "signmessage" then Some(SignMessage)
    else if t == "getkeypool" then Some(GetKeypool)
    else if t == "getdescriptors" then Some(GetDescriptors)
    else if t == "displayaddress" then Some(DisplayAddress)
    else if t == "setup" then Some(Setup)
    else if t == "wipe" then Some(Wipe)
    else if t == "restore" then Some(Restore)
    else if t == "backup" then Some(Backup)
    else if t == "promptpin" then Some(PromptPin)
    else if t == "sendpin" then Some(SendPin)
    else None
  }

  /**
   * The tokens as the `hwi` tool spells its subcommands, written out
   * independently of `Lower` as the reference SubcommandTokenSpelling checks
   * SubcommandToken against.
   */
  function SubcommandSpelling(s: Subcommand): string
  {
    match s
    case Enumerate => "enumerate"
    case GetMasterXpub => "getmasterxpub"
    case SignTx => "signtx"
    case GetXpub => "getxpub"
    case SignMessage => "signmessage"
    case GetKeypool => "getkeypool"
    case GetDescriptors => "getdescriptors"
    case DisplayAddress => "displayaddress"
    case Setup => "setup"
    case Wipe => "wipe"
    case Restore => "restore"
    case Backup => "backup"
    case PromptPin => "promptpin"
    case SendPin => "sendpin"
  }

  /*
   * SubcommandTokenSpelling, split over the variants in declaration order,
   * four, four, three and three at a time; the split only keeps each proof
   * small for the solver.
   */

  lemma SpellingFirstFour(s: Subcommand)
    requires s.Enumerate? || s.GetMasterXpub? || s.SignTx? || s.GetXpub?
    ensures SubcommandToken(s) == SubcommandSpelling(s)
  {
  }

  lemma SpellingSecondFour(s: Subcommand)
    requires s.SignMessage? || s.GetKeypool? || s.GetDescriptors? || s.DisplayAddress?
    ensures SubcommandToken(s) == SubcommandSpelling(s)
  {
  }

  lemma SpellingNextThree(s: Subcommand)
    requires s.Setup? || s.Wipe? || s.Restore?
    ensures SubcommandToken(s) == SubcommandSpelling(s)
  {
  }

  lemma SpellingLastThree(s: Subcommand)
    requires s.Backup? || s.PromptPin? || s.SendPin?
    ensures SubcommandToken(s) == SubcommandSpelling(s)
  {
  }

  /** Lower-casing a variant name gives the subcommand as the `hwi` tool spells it. */
  lemma SubcommandTokenSpelling(s: Subcommand)
    ensures SubcommandToken(s) == SubcommandSpelling(s)
  {
    if s.Enumerate? || s.GetMasterXpub? || s.SignTx? || s.GetXpub? {
      SpellingFirstFour(s);
    } else if s.SignMessage? || s.GetKeypool? || s.GetDescriptors? || s.DisplayAddress? {
      SpellingSecondFour(s);
    } else if s.Setup? || s.Wipe? || s.Restore? {
      SpellingNextThree(s);
    } else {
      SpellingLastThree(s);
    }
  }

  lemma SubcommandSpellingRoundTrip(s: Subcommand)
    ensures ParseSubcommand(SubcommandSpelling(s)) == Some(s)
  {
  }
  /** Each subcommand's token is the `hwi` command of that name, so no two subcommands share a token. */
  lemma SubcommandTokenRoundTrip(s: Subcommand)
    ensures ParseSubcommand(SubcommandToken(s)) == Some(s)
  {
    SubcommandTokenSpelling(s);
    SubcommandSpellingRoundTrip(s);
  }

  // ---------------------------------------------------------------------
  // Flags

  datatype Flag =
    | DevicePath(path: string)
    | DeviceType(deviceType: string)
    | Password(password: string)
    | StdinPass
    | Testnet
    | Debug
    | Fingerprint(fingerprint: Types.Fingerprint)
    | Version
    | Stdin
    | Interactive
    | Expert
  {
    predicate IsUnit()
    {
      !DevicePath? && !DeviceType? && !Password? && !Fingerprint?
    }
  }

  /** The derived `Debug` name of a flag without a value. */
  function UnitName(f: Flag): string
    requires f.IsUnit()
  {
    match f
    case StdinPass => "StdinPass"
    case Testnet => "Testnet"
    case Debug => "Debug"
    case Version => "Version"
    case Stdin => "Stdin"
    case Interactive => "Interactive"
    case Expert => "Expert"
  }

  /** `Display` of a flag: a valued flag and its value in one string, separated by a space. */
  function FlagDisplay(f: Flag): string
  {
    match f
    case DevicePath(p) => "--device-path " + p
    case DeviceType(t) => "--device-type " + t
    case Password(p) => "--password " + p
    case Fingerprint(fp) => "--fingerprint " + Types.FingerprintString(fp)
    case _ => "--" + UnitName(f)
  }

  /** The token `add_flag` appends: the displayed flag, lower-cased as a whole. */
  function FlagToken(f: Flag): string
  {
    Lower(FlagDisplay(f))
  }

  /**
   * A valued flag becomes one token holding the flag name, a space and the
   * lower-cased value: the value is never a separate argument, and its case
   * is lost.
   */
  lemma ValuedFlagToken(f: Flag)
    requires f.DevicePath? || f.DeviceType? || f.Password?
    ensures f.DevicePath? ==> FlagToken(f) == "--device-path " + Lower(f.path)
    ensures f.DeviceType? ==> FlagToken(f) == "--device-type " + Lower(f.deviceType)
    ensures f.Password? ==> FlagToken(f) == "--password " + Lower(f.password)
  {
    match f
    case DevicePath(p) => LowerPrefixed("--device-path ", p);
    case DeviceType(t) => LowerPrefixed("--device-type ", t);
    case Password(p) => LowerPrefixed("--password ", p);
  }

  /** A flag name without upper-case letters is kept as it is in front of a lower-cased value. */
  lemma LowerPrefixed(name: string, value: string)
    requires HasNoUpper(name)
    ensures Lower(name + value) == name + Lower(value)
  {
    LowerAppend(name, value);
    LowerIsIdempotent(name);
  }

  /** `Password("AbC")` is passed as the single token `--password abc`. */
  lemma PasswordCaseIsLost()
    ensures FlagToken(Password("AbC")) == "--password abc"
  {
    ValuedFlagToken(Password("AbC"));
    assert Lower("AbC") == "abc";
  }

  /** Hexadecimal digits are already lower case, so the fingerprint survives `add_flag` unchanged. */
  lemma FingerprintFlagToken(fp: Types.Fingerprint)
    ensures FlagToken(Fingerprint(fp)) == "--fingerprint " + Types.FingerprintString(fp)
  {
    var s := Types.FingerprintString(fp);
    LowerAppend("--fingerprint ", s);
    LowerIsIdempotent("--fingerprint ");
    LowerIsIdempotent(s);
  }

  /** A flag without a value becomes `--` followed by its lower-cased variant name. */
  lemma UnitFlagToken(f: Flag)
    requires f.IsUnit()
    ensures FlagToken(f) == "--" + Lower(UnitName(f))
  {
    LowerAppend("--", UnitName(f));
    LowerIsIdempotent("--");
  }

  lemma UnitFlagExamples()
    ensures FlagToken(Expert) == "--expert"
    ensures FlagToken(StdinPass) == "--stdinpass"
  {
    UnitFlagToken(Expert);
    UnitFlagToken(StdinPass);
  }

  // ---------------------------------------------------------------------
  // The builder

  /** One builder call. */
  datatype Call = AddSubcommandCall(subcommand: Subcommand) | AddFlagCall(flag: Flag)

  function CallToken(c: Call): string
  {
    match c
    case AddSubcommandCall(s) => SubcommandToken(s)
    case AddFlagCall(f) => FlagToken(f)
  }

  /** A subcommand token has no upper-case letter and, unlike every flag, does not start with `-`. */
  lemma SubcommandTokenShape(s: Subcommand)
    ensures HasNoUpper(SubcommandToken(s))
    ensures |SubcommandToken(s)| > 0 && SubcommandToken(s)[0] != '-'
  {
    LowerIsIdempotent(SubcommandName(s));
    SubcommandTokenSpelling(s);
  }

  /** Every flag's `Display` starts with `--`. */
  lemma FlagDisplayDashes(f: Flag)
    ensures |FlagDisplay(f)| >= 2 && FlagDisplay(f)[0] == '-' && FlagDisplay(f)[1] == '-'
  {
  }

  /** A flag token has no upper-case letter and starts with `--`. */
  lemma FlagTokenShape(f: Flag)
    ensures HasNoUpper(FlagToken(f))
    ensures |FlagToken(f)| >= 2 && FlagToken(f)[..2] == "--"
  {
    var d := FlagDisplay(f);
    LowerIsIdempotent(d);
    FlagDisplayDashes(f);
    assert Lower(d)[0] == LowerChar(d[0]) && Lower(d)[1] == LowerChar(d[1]);
  }

  /** The arguments a sequence of builder calls leaves behind when each call appends `token(call)`. */
  function Tokens(calls: seq<Call>, token: Call -> string): seq<string>
  {
    if |calls| == 0 then [] else Tokens(calls[..|calls| - 1], token) + [token(calls[|calls| - 1])]
  }

  lemma {:induction false} TokensLength(calls: seq<Call>, token: Call -> string)
    ensures |Tokens(calls, token)| == |calls|
  {
    if |calls| > 0 {
      TokensLength(calls[..|calls| - 1], token);
    }
  }

  lemma {:induction false} TokensAt(calls: seq<Call>, token: Call -> string, i: nat)
    requires i < |calls|
    ensures |Tokens(calls, token)| == |calls|
    ensures Tokens(calls, token)[i] == token(calls[i])
  {
    var init := calls[..|calls| - 1];
    TokensLength(calls, token);
    TokensLength(init, token);
    if i < |init| {
      TokensAt(init, token, i);
      assert calls[i] == init[i];
    }
  }

  /** After n builder calls there are n arguments, the i-th one written by the i-th call. */
  lemma TokensInOrder(calls: seq<Call>)
    ensures |Tokens(calls, CallToken)| == |calls|
    ensures forall i | 0 <= i < |calls| :: Tokens(calls, CallToken)[i] == CallToken(calls[i])
  {
    TokensLength(calls, CallToken);
    forall i | 0 <= i < |calls|
      ensures Tokens(calls, CallToken)[i] == CallToken(calls[i])
    {
      TokensAt(calls, CallToken, i);
    }
  }

  /** `HWICommand`: the `hwi` program and the arguments appended so far. */
  class HwiCommand {
    const program: string
    var args: seq<string>
    ghost var calls: seq<Call>

    ghost predicate Valid()
      reads this
    {
      args == Tokens(calls, CallToken)
    }

    constructor ()
      ensures program == "hwi" && args == [] && calls == []
      ensures Valid()
    {
      program := "hwi";
      args := [];
      calls := [];
    }

    method AddSubcommand(s: Subcommand)
      requires Valid()
      modifies this
      ensures Valid()
      ensures calls == old(calls) + [AddSubcommandCall(s)]
      ensures args == old(args) + [SubcommandToken(s)]
    {
      args := args + [SubcommandToken(s)];
      calls := calls + [AddSubcommandCall(s)];
      assert calls[..|calls| - 1] == old(calls);
    }

    method AddFlag(f: Flag)
      requires Valid()
      modifies this
      ensures Valid()
      ensures calls == old(calls) + [AddFlagCall(f)]
      ensures args == old(args) + [FlagToken(f)]
    {
      args := args + [FlagToken(f)];
      calls := calls + [AddFlagCall(f)];
      assert calls[..|calls| - 1] == old(calls);
    }
  }
}
