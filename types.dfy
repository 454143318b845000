/**
 * Domain values of the hardware-wallet interface and the string renderings
 * that the subprocess backend puts on the `hwi` command line.
 *
 * The `Display` impls of HWIAddressType and HWIChain are not part of this
 * model, and `Fingerprint::to_string`, `Psbt::to_string` and `u32::to_string`
 * belong to other crates; all of them are given concrete bodies here. The address-type,
 * chain, decimal and fingerprint renderings can each be parsed back, so they
 * are injective, and a decimal rendering starts with a digit. The guard
 * lemmas of the requests also use the concrete address-type spellings: none
 * of them is `enumerate` or `--version` (AddressTypeIsNotGuardWord). The
 * PSBT is passed on as its own text.
 */
module Types {
  import opened Wrappers

  /** Rust's `u32` and `u8`. */
  type u32 = x: nat | x < 0x1_0000_0000
  type u8 = x: nat | x < 256

  /** The 18 symbolic error codes of the external tool. */
  datatype ErrorCode =
    | NoDeviceType | MissingArguments | DeviceConnError | UnknownDeviceType
    | InvalidTx | NoPassword | BadArgument | NotImplementedCode
    | UnavailableAction | DeviceAlreadyInit | DeviceAlreadyUnlocked
    | DeviceNotReady | UnknownError | ActionCanceled | DeviceBusy
    | NeedToBeRoot | HelpText | DeviceNotInitialized

  /** The errors the subprocess backend can return. */
  datatype Error =
    | Json(message: string)
    | Utf8(message: string)
    | IoError(message: string)
    | Hwi(message: string, code: Option<ErrorCode>)
    | NotImplemented

  datatype AddressType = Legacy | ShWit | Wit | Tap

  datatype Chain = Main | Test | RegTest | SigNet

  datatype LogLevel = Debug | Info | Warning | ErrorLevel | Critical

  /** HWIDeviceType: only compared for equality by the backend. */
  datatype DeviceType = DeviceType(name: string)

  /** A four-byte master-key fingerprint. */
  datatype Fingerprint = Fingerprint(b0: u8, b1: u8, b2: u8, b3: u8)

  datatype Device = Device(
    deviceType: DeviceType,
    model: string,
    path: string,
    needsPinSent: bool,
    needsPassphraseSent: bool,
    fingerprint: Fingerprint)

  /** A partially signed transaction, kept as its textual (base64) encoding. */
  datatype Psbt = Psbt(encoded: string)

  function PsbtString(p: Psbt): string
  {
    p.encoded
  }

  // ---------------------------------------------------------------------
  // Address type and chain names

  function AddressTypeString(t: AddressType): string
  {
    match t
    case Legacy => "legacy"
    case ShWit => "sh_wit"
    case Wit => "wit"
    case Tap => "tap"
  }

  function ParseAddressType(s: string): Option<AddressType>
  {
    if s == "legacy" then Some(Legacy)
    else if s == "sh_wit" then Some(ShWit)
    else if s == "wit" then Some(Wit)
    else if s == "tap" then Some(Tap)
    else None
  }

  /** The address-type token names its address type unambiguously. */
  /** No address-type token is one of the words the fingerprint guard looks for. */
  lemma AddressTypeIsNotGuardWord(t: AddressType)
    ensures AddressTypeString(t) != "enumerate" && AddressTypeString(t) != "--version"
  {
    match t
    case Legacy => assert "legacy"[0] != "enumerate"[0];
    case ShWit => assert "sh_wit"[0] != "enumerate"[0];
    case Wit => assert "wit"[0] != "enumerate"[0];
    case Tap => assert "tap"[0] != "enumerate"[0];
  }

  lemma AddressTypeRoundTrip(t: AddressType)
    ensures ParseAddressType(AddressTypeString(t)) == Some(t)
  {
    match t
    case Legacy =>
    case ShWit =>
      assert "sh_wit" != "legacy";
    case Wit =>
      assert "wit" != "legacy" && "wit" != "sh_wit";
    case Tap =>
      assert "tap" != "legacy" && "tap" != "sh_wit" && "tap" != "wit";
  }

  function ChainString(c: Chain): string
  {
    match c
    case Main => "main"
    case Test => "test"
    case RegTest => "regtest"
    case SigNet => "signet"
  }

  function ParseChain(s: string): Option<Chain>
  {
    if s == "main" then Some(Main)
    else if s == "test" then Some(Test)
    else if s == "regtest" then Some(RegTest)
    else if s == "signet" then Some(SigNet)
    else None
  }

  /** The chain token names its chain unambiguously. */
  lemma ChainRoundTrip(c: Chain)
    ensures ParseChain(ChainString(c)) == Some(c)
  {
    match c
    case Main =>
    case Test =>
      assert "test" != "main";
    case RegTest =>
      assert "regtest" != "main" && "regtest" != "test";
    case SigNet =>
      assert "signet" != "main" && "signet" != "test" && "signet" != "regtest";
  }

  // ---------------------------------------------------------------------
  // Decimal rendering of unsigned integers (`to_string` on u8 / u32)

  predicate IsDigit(c: char)
  {
    '0' <= c <= '9'
  }

  function DigitChar(d: nat): (c: char)
    requires d < 10
    ensures IsDigit(c)
  {
    (48 + d) as char
  }

  function DigitValue(c: char): (r: Option<nat>)
    ensures r.Some? <==> IsDigit(c)
    ensures r.Some? ==> r.value < 10 && DigitChar(r.value) == c
  {
    if IsDigit(c) then Some(c as int - 48) else None
  }

  /** The shortest base-10 rendering of `n`: never empty, and it starts with a digit. */
  function Decimal(n: nat): (s: string)
    ensures |s| > 0 && IsDigit(s[0])
    decreases n
  {
    if n < 10 then [DigitChar(n)] else Decimal(n / 10) + [DigitChar(n % 10)]
  }

  function ParseDecimal(s: string): Option<nat>
    decreases |s|
  {
    if |s| == 0 then None
    else if |s| == 1 then DigitValue(s[0])
    else
      match ParseDecimal(s[..|s| - 1])
      case None => None
      case Some(high) =>
        match DigitValue(s[|s| - 1])
        case None => None
        case Some(low) => Some(high * 10 + low)
  }

  /** Reading back a decimal rendering yields the number rendered. */
  lemma {:induction false} DecimalRoundTrip(n: nat)
    ensures ParseDecimal(Decimal(n)) == Some(n)
    decreases n
  {
    if n >= 10 {
      var high, c := Decimal(n / 10), DigitChar(n % 10);
      DecimalRoundTrip(n / 10);
      var s := high + [c];
      assert s[..|s| - 1] == high;
      assert s[|s| - 1] == c;
      assert DigitValue(c) == Some(n % 10);
    } else {
      assert DigitValue(DigitChar(n)) == Some(n);
    }
  }

  /** A decimal rendering starts with a digit, so it is never a `--` flag. */
  lemma DecimalIsNotFlag(n: nat)
    ensures Decimal(n) != "enumerate" && Decimal(n) != "--version"
    ensures Decimal(n)[0] != '-'
  {
    assert IsDigit(Decimal(n)[0]);
  }

  // ---------------------------------------------------------------------
  // Fingerprint rendering: eight lower-case hexadecimal digits

  function HexDigit(d: nat): char
    requires d < 16
  {
    if d < 10 then (48 + d) as char else (87 + d) as char
  }

  function HexValue(c: char): (r: Option<nat>)
    ensures r.Some? ==> r.value < 16
  {
    if '0' <= c <= '9' then Some(c as int - 48)
    else if 'a' <= c <= 'f' then Some(c as int - 87)
    else None
  }

  lemma HexDigitRoundTrip(d: nat)
    requires d < 16
    ensures HexValue(HexDigit(d)) == Some(d)
  {
  }

  function FingerprintString(f: Fingerprint): (s: string)
    ensures |s| == 8
  {
    [HexDigit(f.b0 / 16), HexDigit(f.b0 % 16), HexDigit(f.b1 / 16), HexDigit(f.b1 % 16),
     HexDigit(f.b2 / 16), HexDigit(f.b2 % 16), HexDigit(f.b3 / 16), HexDigit(f.b3 % 16)]
  }

  function ParseHexByte(hi: char, lo: char): Option<u8>
  {
    match (HexValue(hi), HexValue(lo))
    case (Some(h), Some(l)) => Some(h * 16 + l)
    case _ => None
  }

  lemma HexByteRoundTrip(b: u8)
    ensures ParseHexByte(HexDigit(b / 16), HexDigit(b % 16)) == Some(b)
  {
    HexDigitRoundTrip(b / 16);
    HexDigitRoundTrip(b % 16);
  }

  function ParseFingerprint(s: string): Option<Fingerprint>
  {
    if |s| != 8 then None
    else
      match (ParseHexByte(s[0], s[1]), ParseHexByte(s[2], s[3]),
             ParseHexByte(s[4], s[5]), ParseHexByte(s[6], s[7]))
      case (Some(a), Some(b), Some(c), Some(d)) => Some(Fingerprint(a, b, c, d))
      case _ => None
  }

  /** The fingerprint token names its fingerprint unambiguously. */
  lemma FingerprintRoundTrip(f: Fingerprint)
    ensures ParseFingerprint(FingerprintString(f)) == Some(f)
  {
    HexByteRoundTrip(f.b0);
    HexByteRoundTrip(f.b1);
    HexByteRoundTrip(f.b2);
    HexByteRoundTrip(f.b3);
  }

  /** Two devices render the same fingerprint string only if their fingerprints are equal. */
  lemma FingerprintStringInjective(f: Fingerprint, g: Fingerprint)
    ensures FingerprintString(f) == FingerprintString(g) <==> f == g
  {
    FingerprintRoundTrip(f);
    FingerprintRoundTrip(g);
  }
}
