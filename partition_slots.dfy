/** A slot of a partition table: a free region where a partition could be
    created, and what kind of partition it can hold. */
module PartitionSlots {
  /** A region of a disk: first block, number of blocks and block size in
      bytes. */
  datatype Region = Region(start: nat, length: nat, blockSize: nat)

  datatype Slot = Slot(
    nr: nat,
    name: string,
    region: Region,
    primarySlot: bool,
    primaryPossible: bool,
    extendedSlot: bool,
    extendedPossible: bool,
    logicalSlot: bool,
    logicalPossible: bool)

  /** The letters of the flags, in the order they are listed. */
  const FlagLetters: string := "PpEeLl"

  /** `s` with `letter` appended when `flag` is set. */
  function Append(s: string, flag: bool, letter: char): string
  {
    if flag then s + [letter] else s
  }

  /** The flags of a slot as letters: one per flag that is set, in the order
      primary slot, primary possible, extended slot, extended possible,
      logical slot, logical possible. */
  function FlagsOf(slot: Slot): string
  {
    var f := Append("", slot.primarySlot, 'P');
    var f := Append(f, slot.primaryPossible, 'p');
    var f := Append(f, slot.extendedSlot, 'E');
    var f := Append(f, slot.extendedPossible, 'e');
    var f := Append(f, slot.logicalSlot, 'L');
    Append(f, slot.logicalPossible, 'l')
  }

  /** The flags string, built by appending one letter per flag that is set. */
  method FlagsString(slot: Slot) returns (flags: string)
    ensures flags == FlagsOf(slot)
  {
    flags := "";
    if slot.primarySlot { flags := flags + "P"; }
    if slot.primaryPossible { flags := flags + "p"; }
    if slot.extendedSlot { flags := flags + "E"; }
    if slot.extendedPossible { flags := flags + "e"; }
    if slot.logicalSlot { flags := flags + "L"; }
    if slot.logicalPossible { flags := flags + "l"; }
  }

  /** `a` is `b` with some elements left out, the rest in the same order. */
  predicate IsSubsequence(a: string, b: string)
    decreases |b|
  {
    if a == [] then true
    else if b == [] then false
    else (IsSubsequence(a[..|a| - 1], b[..|b| - 1]) && a[|a| - 1] == b[|b| - 1]) ||
         IsSubsequence(a, b[..|b| - 1])
  }

  /** Appending the next letter or not keeps the string a subsequence of
      the letters seen so far. */
  lemma AppendExtends(a: string, b: string, flag: bool, letter: char)
    requires IsSubsequence(a, b)
    ensures IsSubsequence(Append(a, flag, letter), b + [letter])
    ensures |Append(a, flag, letter)| <= |a| + 1
  {
    var b' := b + [letter];
    assert b'[..|b'| - 1] == b;
    if flag {
      var a' := a + [letter];
      assert a'[..|a'| - 1] == a;
    }
  }

  /** A string holds a character after the step exactly when it held it
      before or the step appended it; it is empty exactly when it was and
      nothing was appended. */
  lemma AppendMembership(a: string, flag: bool, letter: char)
    ensures forall x :: x in Append(a, flag, letter) <==> x in a || (flag && x == letter)
    ensures Append(a, flag, letter) == [] <==> a == [] && !flag
  {
  }

  /** Every flag letter shows up in the flags string exactly when its flag is
      set, and the string is empty exactly when no flag is. */
  lemma FlagsStringMembership(slot: Slot)
    ensures var f := FlagsOf(slot);
      ('P' in f <==> slot.primarySlot) && ('p' in f <==> slot.primaryPossible) &&
      ('E' in f <==> slot.extendedSlot) && ('e' in f <==> slot.extendedPossible) &&
      ('L' in f <==> slot.logicalSlot) && ('l' in f <==> slot.logicalPossible) &&
      (f == "" <==> !(slot.primarySlot || slot.primaryPossible || slot.extendedSlot ||
                      slot.extendedPossible || slot.logicalSlot || slot.logicalPossible))
  {
    var f1 := Append("", slot.primarySlot, 'P');
    var f2 := Append(f1, slot.primaryPossible, 'p');
    var f3 := Append(f2, slot.extendedSlot, 'E');
    var f4 := Append(f3, slot.extendedPossible, 'e');
    var f5 := Append(f4, slot.logicalSlot, 'L');
    AppendMembership("", slot.primarySlot, 'P');
    AppendMembership(f1, slot.primaryPossible, 'p');
    AppendMembership(f2, slot.extendedSlot, 'E');
    AppendMembership(f3, slot.extendedPossible, 'e');
    AppendMembership(f4, slot.logicalSlot, 'L');
    AppendMembership(f5, slot.logicalPossible, 'l');
  }

  /** Six appends, each with its own letter, keep the letters' order. */
  lemma SixAppendsInOrder(c0: char, c1: char, c2: char, c3: char, c4: char, c5: char,
                          b0: bool, b1: bool, b2: bool, b3: bool, b4: bool, b5: bool)
    ensures var f := Append(Append(Append(Append(Append(Append("", b0, c0), b1, c1), b2, c2), b3, c3), b4, c4), b5, c5);
      IsSubsequence(f, [c0, c1, c2, c3, c4, c5]) && |f| <= 6
  {
    var f1 := Append("", b0, c0);
    var f2 := Append(f1, b1, c1);
    var f3 := Append(f2, b2, c2);
    var f4 := Append(f3, b3, c3);
    var f5 := Append(f4, b4, c4);
    AppendExtends("", [], b0, c0);
    assert [] + [c0] == [c0];
    AppendExtends(f1, [c0], b1, c1);
    assert [c0] + [c1] == [c0, c1];
    AppendExtends(f2, [c0, c1], b2, c2);
    assert [c0, c1] + [c2] == [c0, c1, c2];
    AppendExtends(f3, [c0, c1, c2], b3, c3);
    assert [c0, c1, c2] + [c3] == [c0, c1, c2, c3];
    AppendExtends(f4, [c0, c1, c2, c3], b4, c4);
    assert [c0, c1, c2, c3] + [c4] == [c0, c1, c2, c3, c4];
    AppendExtends(f5, [c0, c1, c2, c3, c4], b5, c5);
    assert [c0, c1, c2, c3, c4] + [c5] == [c0, c1, c2, c3, c4, c5];
  }

  /** The letters keep the order "PpEeLl", so there are at most six. */
  lemma FlagsStringOrder(slot: Slot)
    ensures IsSubsequence(FlagsOf(slot), FlagLetters)
    ensures |FlagsOf(slot)| <= |FlagLetters|
  {
    SixAppendsInOrder('P', 'p', 'E', 'e', 'L', 'l',
      slot.primarySlot, slot.primaryPossible, slot.extendedSlot,
      slot.extendedPossible, slot.logicalSlot, slot.logicalPossible);
    assert FlagLetters == ['P', 'p', 'E', 'e', 'L', 'l'];
  }

  /** The size of a slot in bytes: its length in blocks times the block size,
      so a whole number of blocks that gives the length back. */
  function SizeInBytes(slot: Slot): (r: nat)
    ensures slot.region.blockSize > 0 ==>
      r / slot.region.blockSize == slot.region.length && r % slot.region.blockSize == 0
    ensures slot.region.blockSize == 0 || slot.region.length == 0 <==> r == 0
  {
    if slot.region.blockSize == 0 then 0
    else
      MulDiv(slot.region.length, slot.region.blockSize);
      slot.region.length * slot.region.blockSize
  }

  /** Dividing a multiple of `b` by `b` gives the factor back exactly. */
  lemma MulDiv(l: nat, b: nat)
    requires b > 0
    ensures (l * b) / b == l && (l * b) % b == 0
  {
    var q := (l * b) / b;
    var m := (l * b) % b;
    assert l * b == q * b + m;
    assert (l - q) * b == m;
    if l - q >= 1 {
      MulAtLeast(l - q, b);
    } else if l - q <= -1 {
      MulAtLeast(q - l, b);
    }
  }

  lemma MulAtLeast(x: int, b: nat)
    requires x >= 1
    ensures x * b >= b
  {
    assert x * b == (x - 1) * b + b;
  }
}
