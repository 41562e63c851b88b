/** Account names of the computer-run fighters: "npc:", the week, ":", the slot. */
module NpcNames {
  import opened Decimals

  function NpcAccount(week: int, slot: int): string {
    "npc:" + IntText(week) + ":" + IntText(slot)
  }

  /** The position of the last colon, or -1. */
  function LastColon(s: string): (p: int)
    ensures -1 <= p < |s|
    ensures p >= 0 ==> s[p] == ':'
    ensures forall i :: p < i < |s| ==> s[i] != ':'
  {
    if s == [] then -1 else if s[|s| - 1] == ':' then |s| - 1 else LastColon(s[..|s| - 1])
  }

  /** The digits after the last colon as a number below 1000, or -1. */
  function NpcSlotOf(account: string): (slot: int)
    ensures -1 <= slot < 1000
  {
    var tail := account[LastColon(account) + 1..];
    if LastColon(account) >= 0 && tail != [] && AllDigits(tail) && NatValue(tail) < 1000 then NatValue(tail) else -1
  }

  /** The slot comes back out of the name, for every week. */
  lemma NpcSlotOfAccount(week: int, slot: nat)
    ensures NpcSlotOf(NpcAccount(week, slot)) == if slot < 1000 then slot else -1
  {
    hide NatValue, NatText;
    var head := "npc:" + IntText(week);
    var account := NpcAccount(week, slot);
    assert account == head + ":" + NatText(slot);
    assert account[|head|] == ':';
    assert forall i :: |head| < i < |account| ==> account[i] == NatText(slot)[i - |head| - 1];
    assert LastColon(account) == |head|;
    assert account[|head| + 1..] == NatText(slot);
    ValueOfText(slot);
  }

  /** Two slots of one week never share a name. */
  lemma NpcAccountInjective(week: int, i: int, j: int)
    requires NpcAccount(week, i) == NpcAccount(week, j)
    ensures i == j
  {
    hide IntText;
    var head := "npc:" + IntText(week) + ":";
    assert NpcAccount(week, i)[|head|..] == IntText(i);
    assert NpcAccount(week, j)[|head|..] == IntText(j);
    IntTextInjective(i, j);
  }

  /** The scan of the source: from the last colon on, giving up at the first character that is no
      digit and as soon as the number reaches 1000. */
  method NpcSlot(account: string) returns (index: int)
    ensures index == NpcSlotOf(account)
  {
    var pos := LastColon(account);
    if pos < 0 || pos + 1 >= |account| {
      return -1;
    }
    index := 0;
    ghost var tail := account[pos + 1..];
    var i := pos + 1;
    while i < |account|
      invariant pos + 1 <= i <= |account|
      invariant AllDigits(tail[..i - pos - 1]) && index == NatValue(tail[..i - pos - 1]) < 1000
    {
      var ch := account[i];
      if !IsDigit(ch) {
        assert tail[i - pos - 1] == ch;
        return -1;
      }
      ghost var upto := tail[..i - pos];
      assert upto == tail[..i - pos - 1] + [ch] && upto[..|upto| - 1] == tail[..i - pos - 1];
      index := index * 10 + DigitValue(ch);
      if index >= 1000 {
        if AllDigits(tail) {
          PrefixValue(tail, i - pos);
        }
        return -1;
      }
      i := i + 1;
    }
    assert tail[..i - pos - 1] == tail;
  }
}
