/** The encryption methods for swap devices: a swap device is encrypted
    with a volatile key read from a key file at every boot. A method of this
    family recognises its own devices by the `swap` crypt option together
    with its key file. */
module SwapEncryption {
  import opened Wrappers

  const SwapOption := "swap"
  const NoKeyFileMessage := "No key file indicated!"

  /** The constants a concrete swap method may define; `None` when it does
      not define one. */
  datatype SwapConstants = SwapConstants(
    keyFile: Option<string>,
    cipher: Option<string>,
    keySize: Option<string>,
    sectorSize: Option<string>)

  /** An encryption device: the key file it uses and its crypt options. */
  datatype Encryption = Encryption(keyFile: Option<string>, cryptOptions: seq<string>)

  /** A line of /etc/crypttab: its password field and its options. */
  datatype CrypttabEntry = CrypttabEntry(password: Option<string>, cryptOptions: seq<string>)

  /** The key file of the method; a method without one is an error. */
  function KeyFile(c: SwapConstants): (r: Result<string, string>)
    ensures r.Ok? <==> c.keyFile.Some?
    ensures r.Ok? ==> r.value == c.keyFile.value
    ensures r.Err? ==> r.error == NoKeyFileMessage
  {
    if c.keyFile.Some? then Ok(c.keyFile.value) else Err(NoKeyFileMessage)
  }

  /** Case folding of one character, for the characters whose folding can
      make a string equal to "swap": ASCII capitals and the long s. */
  function FoldCase(ch: char): char
  {
    if 'A' <= ch <= 'Z' then (ch as int + 32) as char
    else if ch == 'ſ' then 's'
    else ch
  }

  /** `casecmp?`: equal once both strings are case folded. */
  predicate CaseEqual(a: string, b: string)
  {
    |a| == |b| && forall i :: 0 <= i < |a| ==> FoldCase(a[i]) == FoldCase(b[i])
  }

  /** Exactly the spellings of "swap" in any mix of cases (and with the
      long s) are equal to it, case aside. */
  lemma CaseEqualSwap(o: string)
    ensures CaseEqual(o, SwapOption) <==>
      |o| == 4 && o[0] in "sSſ" && o[1] in "wW" && o[2] in "aA" && o[3] in "pP"
  {
    if |o| == 4 {
      assert FoldCase(o[0]) == 's' <==> o[0] in "sSſ";
      assert FoldCase(o[1]) == 'w' <==> o[1] in "wW";
      assert FoldCase(o[2]) == 'a' <==> o[2] in "aA";
      assert FoldCase(o[3]) == 'p' <==> o[3] in "pP";
      assert SwapOption == ['s', 'w', 'a', 'p'];
    }
  }

  /** Some crypt option is "swap", case aside. */
  function ContainSwapOption(options: seq<string>): (r: bool)
    ensures r <==> exists o :: o in options && CaseEqual(o, SwapOption)
    ensures options == [] ==> !r
  {
    if options == [] then false
    else CaseEqual(options[0], SwapOption) || ContainSwapOption(options[1..])
  }

  /** The given key file is the method's own. */
  function UseKeyFile(c: SwapConstants, keyFile: Option<string>): (r: Result<bool, string>)
    ensures r.Err? <==> c.keyFile.None?
    ensures r == Ok(true) <==> c.keyFile.Some? && keyFile == c.keyFile
  {
    match KeyFile(c)
    case Ok(k) => Ok(keyFile == Some(k))
    case Err(e) => Err(e)
  }

  /** `used?`: a swap option and this method's key file. The key file is
      only looked at when a swap option is present, so a method without a
      key file fails only then. */
  function Used(c: SwapConstants, keyFile: Option<string>, options: seq<string>): (r: Result<bool, string>)
    ensures r == Ok(true) <==> ContainSwapOption(options) && c.keyFile.Some? && keyFile == c.keyFile
    ensures r.Err? <==> ContainSwapOption(options) && c.keyFile.None?
    ensures r.Err? ==> r.error == NoKeyFileMessage
  {
    if !ContainSwapOption(options) then Ok(false) else UseKeyFile(c, keyFile)
  }

  /** An encryption device is matched on its key file. */
  function UsedFor(c: SwapConstants, enc: Encryption): (r: Result<bool, string>)
    ensures r == Ok(true) <==>
      ContainSwapOption(enc.cryptOptions) && c.keyFile.Some? && enc.keyFile == c.keyFile
  {
    Used(c, enc.keyFile, enc.cryptOptions)
  }

  /** A crypttab entry is matched on its password field, which holds the
      key file. */
  function UsedForCrypttab(c: SwapConstants, entry: CrypttabEntry): (r: Result<bool, string>)
    ensures r == UsedFor(c, Encryption(entry.password, entry.cryptOptions))
  {
    Used(c, entry.password, entry.cryptOptions)
  }

  /** A device whose only options are other than "swap" is never matched,
      whatever its key file. */
  lemma NoSwapOptionNoMatch(c: SwapConstants, enc: Encryption)
    requires forall o :: o in enc.cryptOptions ==> !CaseEqual(o, SwapOption)
    ensures UsedFor(c, enc) == Ok(false)
  {
  }

  /** The method is usable when its key file exists. */
  function Available(c: SwapConstants, fileExists: string -> bool): (r: Result<bool, string>)
    ensures r.Err? <==> c.keyFile.None?
    ensures r.Ok? ==> r.value == fileExists(c.keyFile.value)
  {
    match KeyFile(c)
    case Ok(k) => Ok(fileExists(k))
    case Err(e) => Err(e)
  }

  /** The volatile encryption process with the method's key file and its
      optional cipher, key size and sector size. */
  datatype VolatileProcess = VolatileProcess(
    keyFile: string,
    cipher: Option<string>,
    keySize: Option<string>,
    sectorSize: Option<string>)

  function EncryptionProcess(c: SwapConstants): (r: Result<VolatileProcess, string>)
    ensures r.Err? <==> c.keyFile.None?
    ensures r.Ok? ==>
      (Some(r.value.keyFile) == c.keyFile && r.value.cipher == c.cipher &&
       r.value.keySize == c.keySize && r.value.sectorSize == c.sectorSize)
  {
    match KeyFile(c)
    case Ok(k) => Ok(VolatileProcess(k, c.cipher, c.keySize, c.sectorSize))
    case Err(e) => Err(e)
  }
}
