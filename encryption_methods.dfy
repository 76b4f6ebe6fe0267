/** The catalog of encryption methods: a fixed, ordered list of the ways a
    block device can be encrypted, and first-match lookups over it. */
module EncryptionMethods {
  import opened Wrappers
  import opened Seqs
  import S = SwapEncryption

  datatype Method = Luks1 | PervasiveLuks2 | RandomSwap | ProtectedSwap | SecureSwap

  /** Every method, in the catalog's order. */
  const All: seq<Method> := [Luks1, PervasiveLuks2, RandomSwap, ProtectedSwap, SecureSwap]

  predicate IsSwapMethod(m: Method)
  {
    m.RandomSwap? || m.ProtectedSwap? || m.SecureSwap?
  }

  /** The symbol that names a method. */
  function Id(m: Method): string
  {
    match m
    case Luks1 => "luks1"
    case PervasiveLuks2 => "pervasive_luks2"
    case RandomSwap => "random_swap"
    case ProtectedSwap => "protected_swap"
    case SecureSwap => "secure_swap"
  }

  /** What the methods outside the swap family answer, the constants each
      swap method defines, and whether a file exists. */
  datatype Ops = Ops(
    swapConstants: Method -> S.SwapConstants,
    otherUsedFor: (Method, S.Encryption) -> bool,
    otherUsedForCrypttab: (Method, S.CrypttabEntry) -> bool,
    otherAvailable: Method -> bool,
    fileExists: string -> bool)

  /** Every method is in the catalog exactly once; the LUKS methods come
      first and the three swap methods last. */
  lemma AllSpec()
    ensures |All| == 5 && NoDuplicates(All)
    ensures forall m: Method :: m in All
    ensures forall i :: 0 <= i < |All| ==> (IsSwapMethod(All[i]) <==> i >= 2)
  {
    forall m: Method ensures m in All {
      match m
      case Luks1 => assert All[0] == m;
      case PervasiveLuks2 => assert All[1] == m;
      case RandomSwap => assert All[2] == m;
      case ProtectedSwap => assert All[3] == m;
      case SecureSwap => assert All[4] == m;
    }
  }

  /** `all` hands out a copy; as a value, the catalog itself. */
  function AllMethods(): (r: seq<Method>)
    ensures |r| == 5 && NoDuplicates(r) && forall m: Method :: m in r
  {
    AllSpec();
    All
  }

  /** Whether method `m` encrypted `enc`. */
  function UsedFor(ops: Ops, m: Method, enc: S.Encryption): Result<bool, string>
  {
    if IsSwapMethod(m) then S.UsedFor(ops.swapConstants(m), enc) else Ok(ops.otherUsedFor(m, enc))
  }

  function UsedForCrypttab(ops: Ops, m: Method, entry: S.CrypttabEntry): Result<bool, string>
  {
    if IsSwapMethod(m) then S.UsedForCrypttab(ops.swapConstants(m), entry)
    else Ok(ops.otherUsedForCrypttab(m, entry))
  }

  function IsAvailable(ops: Ops, m: Method): Result<bool, string>
  {
    if IsSwapMethod(m) then S.Available(ops.swapConstants(m), ops.fileExists) else Ok(ops.otherAvailable(m))
  }

  /** Only swap methods are restricted to swap devices. */
  function OnlyForSwap(m: Method, otherOnlyForSwap: Method -> bool): (r: bool)
    ensures IsSwapMethod(m) ==> r
    ensures !IsSwapMethod(m) ==> r == otherOnlyForSwap(m)
  {
    if IsSwapMethod(m) then true else otherOnlyForSwap(m)
  }

  /** The first method that passes `check`; an error raised by a check stops
      the search and is passed on. */
  function FirstMatch(ms: seq<Method>, check: Method -> Result<bool, string>): (r: Result<Option<Method>, string>)
    ensures r == Ok(None) <==> forall i :: 0 <= i < |ms| ==> check(ms[i]) == Ok(false)
    ensures r.Ok? && r.value.Some? ==>
      exists i :: 0 <= i < |ms| && ms[i] == r.value.value && check(ms[i]) == Ok(true) &&
                  forall j :: 0 <= j < i ==> check(ms[j]) == Ok(false)
    ensures r.Err? ==>
      exists i :: 0 <= i < |ms| && check(ms[i]) == Err(r.error) &&
                  forall j :: 0 <= j < i ==> check(ms[j]) == Ok(false)
  {
    if ms == [] then Ok(None)
    else
      match check(ms[0])
      case Err(e) => Err(e)
      case Ok(true) => Ok(Some(ms[0]))
      case Ok(false) =>
        var rest := FirstMatch(ms[1..], check);
        assert forall j :: 1 <= j < |ms| ==> ms[j] == ms[1..][j - 1];
        rest
  }

  predicate Passes(check: Method -> Result<bool, string>, m: Method)
  {
    check(m) == Ok(true)
  }

  /** The methods that pass `check`, in order; an error raised by a check is
      passed on. */
  function SelectMatching(ms: seq<Method>, check: Method -> Result<bool, string>): (r: Result<seq<Method>, string>)
    ensures r.Ok? <==> forall i :: 0 <= i < |ms| ==> check(ms[i]).Ok?
    ensures r.Ok? ==> r.value == Filter(ms, m => Passes(check, m))
    ensures r.Err? ==> exists i :: 0 <= i < |ms| && check(ms[i]) == Err(r.error)
  {
    if ms == [] then Ok([])
    else
      match check(ms[0])
      case Err(e) => Err(e)
      case Ok(b) =>
        var rest := SelectMatching(ms[1..], check);
        assert forall j :: 1 <= j < |ms| ==> ms[j] == ms[1..][j - 1];
        match rest
        case Err(e) => Err(e)
        case Ok(tail) => Ok(if b then [ms[0]] + tail else tail)
  }

  function AvailableCheck(ops: Ops): Method -> Result<bool, string>
  {
    m => IsAvailable(ops, m)
  }

  function UsedForCheck(ops: Ops, enc: S.Encryption): Method -> Result<bool, string>
  {
    m => UsedFor(ops, m, enc)
  }

  function UsedForCrypttabCheck(ops: Ops, entry: S.CrypttabEntry): Method -> Result<bool, string>
  {
    m => UsedForCrypttab(ops, m, entry)
  }

  /** The usable methods, in catalog order. */
  function Available(ops: Ops): Result<seq<Method>, string>
  {
    SelectMatching(All, AvailableCheck(ops))
  }

  /** The method that encrypted `enc`: the first in catalog order. */
  function ForDevice(ops: Ops, enc: S.Encryption): Result<Option<Method>, string>
  {
    FirstMatch(All, UsedForCheck(ops, enc))
  }

  /** The method of a crypttab entry: the first in catalog order. */
  function ForCrypttab(ops: Ops, entry: S.CrypttabEntry): Result<Option<Method>, string>
  {
    FirstMatch(All, UsedForCrypttabCheck(ops, entry))
  }

  predicate HasId(value: string, m: Method)
  {
    Id(m) == value
  }

  /** The method named `value`. */
  function FindById(value: string): (r: Option<Method>)
    ensures r.Some? ==> Id(r.value) == value
    ensures r.None? ==> forall m: Method :: Id(m) != value
  {
    AllSpec();
    Find(All, m => HasId(value, m))
  }

  /** Names and methods correspond one to one. */
  lemma FindByIdRoundTrip(m: Method)
    ensures FindById(Id(m)) == Some(m)
  {
    var r := FindById(Id(m));
    assert r.Some?;
    assert Id(r.value) == Id(m);
  }

  /** The usable methods keep the catalog order; a swap method whose key file
      exists is among them when every method could be checked. */
  lemma AvailableSpec(ops: Ops)
    ensures Available(ops).Ok? ==>
      (forall m :: m in Available(ops).value <==> IsAvailable(ops, m) == Ok(true)) &&
      NoDuplicates(Available(ops).value)
  {
    AllSpec();
    if Available(ops).Ok? {
      var p := (m: Method) => Passes(AvailableCheck(ops), m);
      FilterMembership(All, p);
      FilterNoDuplicates(All, p);
    }
  }

  /** Filtering keeps a list free of duplicates. */
  lemma {:induction false} FilterNoDuplicates<T(!new)>(s: seq<T>, p: T -> bool)
    requires NoDuplicates(s)
    ensures NoDuplicates(Filter(s, p))
  {
    if s != [] {
      assert NoDuplicates(s[1..]);
      FilterNoDuplicates(s[1..], p);
      FilterMembership(s[1..], p);
      assert s[0] !in s[1..];
    }
  }

  /** A swap device carrying only non-swap options is never attributed to a
      swap method. */
  lemma ForDeviceNeedsSwapOption(ops: Ops, enc: S.Encryption)
    requires !S.ContainSwapOption(enc.cryptOptions)
    ensures ForDevice(ops, enc).Ok? && ForDevice(ops, enc).value.Some? ==>
      !IsSwapMethod(ForDevice(ops, enc).value.value)
  {
    var r := ForDevice(ops, enc);
    if r.Ok? && r.value.Some? {
      var i :| 0 <= i < |All| && All[i] == r.value.value && UsedForCheck(ops, enc)(All[i]) == Ok(true) &&
        forall j :: 0 <= j < i ==> UsedForCheck(ops, enc)(All[j]) == Ok(false);
    }
  }
}
