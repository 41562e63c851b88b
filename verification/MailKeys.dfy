/** The keys of the mail store: "initData:", the channel, the account and the area. */
module MailKeys {
  import opened Results
  import opened Decimals

  const PREFIX := "initData:"

  predicate ValidPart(s: string) {
    s != [] && forall i :: 0 <= i < |s| ==> s[i] != ':'
  }

  function MailKey(channel: string, acc: string, area: int): string {
    PREFIX + channel + ":" + acc + ":" + IntText(area)
  }

  function GlobalKey(channel: string): string {
    PREFIX + channel + ":global"
  }

  /** The first colon at or after a position, or -1. */
  function ColonFrom(s: string, i: nat): (p: int)
    requires i <= |s|
    ensures p == -1 || (i <= p < |s| && s[p] == ':')
    ensures forall j :: i <= j < (if p == -1 then |s| else p) ==> s[j] != ':'
    decreases |s| - i
  {
    if i == |s| then -1 else if s[i] == ':' then i else ColonFrom(s, i + 1)
  }

  datatype Address = Address(channel: string, acc: string, area: int)

  /** Exactly two colons behind the prefix, three nonempty parts, the last one a positive number. */
  function ParseKey(key: string): Option<Address> {
    if |key| < |PREFIX| || key[..|PREFIX|] != PREFIX then None
    else
      var channelEnd := ColonFrom(key, |PREFIX|);
      if channelEnd == -1 then None
      else
        var accEnd := ColonFrom(key, channelEnd + 1);
        if accEnd == -1 || ColonFrom(key, accEnd + 1) != -1 then None
        else
          var channel, acc := key[|PREFIX|..channelEnd], key[channelEnd + 1..accEnd];
          if !ValidPart(channel) || !ValidPart(acc) then None
          else
            match Stoi(key[accEnd + 1..])
            case Some(area) => if area > 0 then Some(Address(channel, acc, area)) else None
            case None => None
  }

  lemma ColonAt(s: string, i: nat, p: nat)
    requires i <= p < |s| && s[p] == ':' && forall j :: i <= j < p ==> s[j] != ':'
    ensures ColonFrom(s, i) == p
  {}

  lemma NoColon(s: string, i: nat)
    requires i <= |s| && forall j :: i <= j < |s| ==> s[j] != ':'
    ensures ColonFrom(s, i) == -1
  {}

  /** A personal key gives its address back. */
  lemma ParseMailKey(channel: string, acc: string, area: int)
    requires ValidPart(channel) && ValidPart(acc) && 0 < area && InIntRange(area)
    ensures ParseKey(MailKey(channel, acc, area)) == Some(Address(channel, acc, area))
  {
    hide ColonFrom, IntText, Stoi;
    var key := MailKey(channel, acc, area);
    var channelEnd := |PREFIX| + |channel|;
    var accEnd := channelEnd + 1 + |acc|;
    assert key[..|PREFIX|] == PREFIX;
    assert key[|PREFIX|..channelEnd] == channel;
    assert key[channelEnd + 1..accEnd] == acc;
    assert key[accEnd + 1..] == IntText(area);
    IntTextChars(area);
    forall j | |PREFIX| <= j < channelEnd ensures key[j] != ':' {
      assert key[j] == channel[j - |PREFIX|];
    }
    ColonAt(key, |PREFIX|, channelEnd);
    forall j | channelEnd + 1 <= j < accEnd ensures key[j] != ':' {
      assert key[j] == acc[j - channelEnd - 1];
    }
    ColonAt(key, channelEnd + 1, accEnd);
    forall j | accEnd + 1 <= j < |key| ensures key[j] != ':' {
      assert key[j] == IntText(area)[j - accEnd - 1];
    }
    NoColon(key, accEnd + 1);
    StoiOfText(area);
  }

  lemma NoNumber(s: string)
    requires s == "global"
    ensures Stoi(s) == None
  {
    assert DigitRun(s) == "";
  }

  /** No global key reads as a personal one, whatever the channel's name. */
  lemma GlobalKeyIsNotPersonal(channel: string)
    ensures ParseKey(GlobalKey(channel)) == None
  {
    hide ColonFrom, Stoi;
    var key := GlobalKey(channel);
    var last := |PREFIX| + |channel|;
    assert key[last] == ':' && key[last + 1..] == "global";
    NoNumber("global");
    forall j | last < j < |key| ensures key[j] != ':' {
      assert key[j] == "global"[j - last - 1];
    }
    var channelEnd := ColonFrom(key, |PREFIX|);
    if channelEnd != -1 {
      var accEnd := ColonFrom(key, channelEnd + 1);
      if accEnd != -1 && ColonFrom(key, accEnd + 1) == -1 {
        assert accEnd == last;
      }
    }
  }

  lemma GlobalIsNoMailKey(channel: string, a: Address)
    requires ValidPart(a.channel) && ValidPart(a.acc) && 0 < a.area && InIntRange(a.area)
    ensures GlobalKey(channel) != MailKey(a.channel, a.acc, a.area)
  {
    GlobalKeyIsNotPersonal(channel);
    ParseMailKey(a.channel, a.acc, a.area);
  }
}
