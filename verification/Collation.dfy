/** How the ladder table compares names. Two spellings name the same row when they fold to the same
    text, as under MySQL's utf8mb4_unicode_ci, which ignores case, accents and trailing blanks. */
module Collation {
  import opened Decimals
  import opened NpcNames
  import opened Ladder

  /** The names of the slots, small letters, colons and digits, stand for themselves. */
  ghost predicate KeepsSlotNames(fold: string -> string) {
    forall week: int, slot: int :: 0 <= slot < NPC_COUNT ==> fold(NpcAccount(week, slot)) == NpcAccount(week, slot)
  }

  /** What the collation compares in place of a name; the keys of the table hold it. */
  type Collation = fold: string -> string | KeepsSlotNames(fold) witness (name => name)

  // ---- one that ignores capitals

  function LowerChar(c: char): char {
    if 'A' <= c <= 'Z' then (c as int + 32) as char else c
  }

  function Lower(name: string): string {
    seq(|name|, i requires 0 <= i < |name| => LowerChar(name[i]))
  }

  lemma LowerAppend(a: string, b: string)
    ensures Lower(a + b) == Lower(a) + Lower(b)
  {}

  lemma LowerOfNumber(n: int)
    ensures Lower(IntText(n)) == IntText(n)
  {
    IntTextChars(n);
  }

  lemma LowerOfName(head: string, week: int, slot: int)
    ensures Lower(head + IntText(week) + ":" + IntText(slot)) == Lower(head) + IntText(week) + ":" + IntText(slot)
  {
    assert Lower(":") == ":";
    hide Lower, IntText;
    LowerAppend(head + IntText(week) + ":", IntText(slot));
    LowerAppend(head + IntText(week), ":");
    LowerAppend(head, IntText(week));
    LowerOfNumber(week);
    LowerOfNumber(slot);
  }

  lemma LowerKeepsSlotNames()
    ensures KeepsSlotNames(Lower)
  {
    assert Lower("npc:") == "npc:";
    hide Lower, IntText;
    forall week: int, slot: int | 0 <= slot < NPC_COUNT
      ensures Lower(NpcAccount(week, slot)) == NpcAccount(week, slot)
    {
      LowerOfName("npc:", week, slot);
    }
  }

  lemma LowerOfCapitals(week: int, slot: int)
    ensures Lower("NPC:" + IntText(week) + ":" + IntText(slot)) == NpcAccount(week, slot)
  {
    assert Lower("NPC:") == "npc:";
    hide Lower, IntText;
    LowerOfName("NPC:", week, slot);
  }
}
