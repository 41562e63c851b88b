/** The Redis serialization protocol: the request writer and the recursive reply reader, over a byte
    stream that arrives in pieces of any size. */
module Resp {
  import opened Results
  import opened Decimals

  const CLOSED := "Redis connection closed"
  const MAX_LINE := 1048576
  const MAX_BULK := 67108864
  const MAX_ARRAY := 1000000

  datatype Reply = Str(text: string) | Err(text: string) | Int(n: int) | Nil | Arr(items: seq<Reply>)

  /** What a reader has taken off the stream, and what is left. */
  datatype Got<T> = Got(value: T, rest: string)

  // ---- the reader as a function of the bytes to come

  /** A line of fewer than `room` characters, up to CR LF. */
  function Line(s: string, room: nat): (r: Result<Got<string>>)
    ensures r.Success? ==> |r.value.rest| + 2 <= |s|
  {
    if room == 0 then Failure("Redis response line too large")
    else if s == [] then Failure(CLOSED)
    else if s[0] == '\r' then
      if |s| == 1 then Failure(CLOSED)
      else if s[1] != '\n' then Failure("Invalid Redis response terminator")
      else Success(Got([], s[2..]))
    else
      var tail :- Line(s[1..], room - 1);
      Success(Got([s[0]] + tail.value, tail.rest))
  }

  function Number(s: string): (r: Result<Got<int>>)
    ensures r.Success? ==> |r.value.rest| < |s|
  {
    var line :- Line(s, MAX_LINE);
    match Stoll(line.value)
    case Some(n) => Success(Got(n, line.rest))
    case None => Failure("stoll")
  }

  function Bulk(s: string, length: nat): (r: Result<Got<Reply>>)
    ensures r.Success? ==> |r.value.rest| <= |s|
  {
    if |s| < length then Failure(CLOSED)
    else if |s| == length then Failure(CLOSED)
    else if s[length] != '\r' then Failure("Invalid Redis bulk response terminator")
    else if |s| == length + 1 then Failure(CLOSED)
    else if s[length + 1] != '\n' then Failure("Invalid Redis bulk response terminator")
    else Success(Got(Str(s[..length]), s[length + 2..]))
  }

  function Read(s: string): (r: Result<Got<Reply>>)
    ensures r.Success? ==> |r.value.rest| < |s|
    decreases |s|, 0
  {
    if s == [] then Failure(CLOSED)
    else if s[0] == '+' || s[0] == '-' then
      var line :- Line(s[1..], MAX_LINE);
      Success(Got(if s[0] == '+' then Str(line.value) else Err(line.value), line.rest))
    else if s[0] == ':' then
      var n :- Number(s[1..]);
      Success(Got(Int(n.value), n.rest))
    else if s[0] == '$' then
      var n :- Number(s[1..]);
      if n.value < 0 then Success(Got(Nil, n.rest))
      else if n.value > MAX_BULK then Failure("Redis bulk response too large")
      else Bulk(n.rest, n.value)
    else if s[0] == '*' then
      var n :- Number(s[1..]);
      if n.value < 0 then Success(Got(Nil, n.rest))
      else if n.value > MAX_ARRAY then Failure("Redis array response too large")
      else
        var items :- ReadMany(n.rest, n.value);
        Success(Got(Arr(items.value), items.rest))
    else Failure("Unknown Redis response type")
  }

  /** So many replies, one behind the other. */
  function ReadMany(s: string, count: nat): (r: Result<Got<seq<Reply>>>)
    ensures r.Success? ==> |r.value.rest| <= |s|
    decreases |s|, 1
  {
    if count == 0 then Success(Got([], s))
    else
      var first :- Read(s);
      var others :- ReadMany(first.rest, count - 1);
      Success(Got([first.value] + others.value, others.rest))
  }

  // ---- replies in print

  /** The forms of the protocol. A text may be sent as a line or in bulk. */
  datatype Wire =
    | SimpleLine(line: string)
    | ErrorLine(line: string)
    | IntLine(n: int)
    | BulkText(bytes: string)
    | NullBulk
    | NullArray
    | Multi(items: seq<Wire>)

  const CRLF := "\r\n"

  function Print(w: Wire): string
    decreases w, 0
  {
    match w
    case SimpleLine(line) => "+" + line + CRLF
    case ErrorLine(line) => "-" + line + CRLF
    case IntLine(n) => ":" + IntText(n) + CRLF
    case BulkText(bytes) => "$" + IntText(|bytes|) + CRLF + bytes + CRLF
    case NullBulk => "$-1" + CRLF
    case NullArray => "*-1" + CRLF
    case Multi(items) => "*" + IntText(|items|) + CRLF + PrintAll(items)
  }

  function PrintAll(ws: seq<Wire>): string
    decreases ws
  {
    if ws == [] then [] else Print(ws[0]) + PrintAll(ws[1..])
  }

  function ReplyOf(w: Wire): Reply
    decreases w, 0
  {
    match w
    case SimpleLine(line) => Str(line)
    case ErrorLine(line) => Err(line)
    case IntLine(n) => Int(n)
    case BulkText(bytes) => Str(bytes)
    case NullBulk => Nil
    case NullArray => Nil
    case Multi(items) => Arr(RepliesOf(items))
  }

  function RepliesOf(ws: seq<Wire>): (r: seq<Reply>)
    ensures |r| == |ws|
    decreases ws
  {
    if ws == [] then [] else [ReplyOf(ws[0])] + RepliesOf(ws[1..])
  }

  predicate LineOk(line: string) {
    |line| < MAX_LINE && forall i :: 0 <= i < |line| ==> line[i] != '\r'
  }

  /** What fits: lines without CR below 1 MiB, 64-bit integers, bulks up to 64 MiB, up to a million
      members, at every depth. */
  predicate WireOk(w: Wire)
    decreases w, 0
  {
    match w
    case SimpleLine(line) => LineOk(line)
    case ErrorLine(line) => LineOk(line)
    case IntLine(n) => InLongRange(n)
    case BulkText(bytes) => |bytes| <= MAX_BULK
    case NullBulk => true
    case NullArray => true
    case Multi(items) => |items| <= MAX_ARRAY && WiresOk(items)
  }

  predicate WiresOk(ws: seq<Wire>)
    decreases ws
  {
    ws == [] || (WireOk(ws[0]) && WiresOk(ws[1..]))
  }

  // ---- reading what was printed

  lemma {:induction false} LineRead(line: string, tail: string, room: nat)
    requires |line| < room && forall i :: 0 <= i < |line| ==> line[i] != '\r'
    ensures Line(line + CRLF + tail, room) == Success(Got(line, tail))
  {
    var s := line + CRLF + tail;
    if line == [] {
      assert s == CRLF + tail;
      assert s[2..] == tail;
    } else {
      LineRead(line[1..], tail, room - 1);
      assert s[0] == line[0] && s[1..] == line[1..] + CRLF + tail;
      assert line == [line[0]] + line[1..];
    }
  }

  /** Printed integers are short enough for a line. */
  lemma {:induction false} NatTextShort(n: nat, k: nat, bound: nat)
    requires n < bound && bound == Tens(k) && k >= 1
    ensures |NatText(n)| <= k
  {
    if n >= 10 {
      NatTextShort(n / 10, k - 1, Tens(k - 1));
    }
  }

  function Tens(k: nat): nat {
    if k == 0 then 1 else 10 * Tens(k - 1)
  }

  lemma IntTextShort(n: int)
    requires InLongRange(n)
    ensures |IntText(n)| <= 20 && LineOk(IntText(n))
  {
    hide NatText;
    assert Tens(19) == 10000000000000000000 by { TensAt(); }
    NatTextShort(if n < 0 then 0 - n else n, 19, Tens(19));
    IntTextChars(n);
  }

  lemma TensAt()
    ensures Tens(19) == 10000000000000000000
  {
    assert Tens(4) == 10000;
    assert Tens(8) == 100000000;
    assert Tens(12) == 1000000000000;
    assert Tens(16) == 10000000000000000;
  }

  lemma NumberRead(n: int, tail: string)
    requires InLongRange(n)
    ensures Number(IntText(n) + CRLF + tail) == Success(Got(n, tail))
  {
    hide IntText, Stoll, Line;
    IntTextShort(n);
    LineRead(IntText(n), tail, MAX_LINE);
    StollOfText(n);
  }

  lemma BulkRead(bytes: string, tail: string)
    ensures Bulk(bytes + CRLF + tail, |bytes|) == Success(Got(Str(bytes), tail))
  {
    var s := bytes + CRLF + tail;
    assert s[..|bytes|] == bytes && s[|bytes| + 2..] == tail;
  }

  lemma HeadRead(head: char, body: string)
    ensures ([head] + body)[0] == head && ([head] + body)[1..] == body
  {}

  lemma ReadLine(head: char, line: string, tail: string)
    requires LineOk(line) && (head == '+' || head == '-')
    ensures Read([head] + line + CRLF + tail) == Success(Got(if head == '+' then Str(line) else Err(line), tail))
  {
    hide Line, Number;
    LineRead(line, tail, MAX_LINE);
    HeadRead(head, line + CRLF + tail);
    assert [head] + line + CRLF + tail == [head] + (line + CRLF + tail);
  }

  /** After the type and a number: what is still to be read. */
  lemma ReadHead(head: char, n: int, after: string)
    requires (head == ':' || head == '$' || head == '*') && InLongRange(n)
    ensures Read([head] + IntText(n) + CRLF + after) ==
              if head == ':' then Success(Got(Int(n), after))
              else if n < 0 then Success(Got(Nil, after))
              else if head == '$' then
                if n > MAX_BULK then Failure("Redis bulk response too large") else Bulk(after, n)
              else if n > MAX_ARRAY then Failure("Redis array response too large")
              else
                var items := ReadMany(after, n);
                if items.Failure? then Failure(items.error) else Success(Got(Arr(items.value.value), items.value.rest))
  {
    hide Line, Number, Bulk, ReadMany, IntText;
    NumberRead(n, after);
    HeadRead(head, IntText(n) + CRLF + after);
    assert [head] + IntText(n) + CRLF + after == [head] + (IntText(n) + CRLF + after);
  }

  lemma BulkInPrint(bytes: string, tail: string)
    ensures Print(BulkText(bytes)) + tail == "$" + IntText(|bytes|) + CRLF + (bytes + CRLF + tail)
  {
    hide IntText;
  }

  lemma MultiInPrint(items: seq<Wire>, tail: string)
    ensures Print(Multi(items)) + tail == "*" + IntText(|items|) + CRLF + (PrintAll(items) + tail)
  {
    hide IntText, PrintAll;
  }

  lemma OthersInPrint(w: Wire, tail: string)
    requires !w.BulkText? && !w.Multi?
    ensures Print(w) + tail == match w
                               case SimpleLine(line) => "+" + line + CRLF + tail
                               case ErrorLine(line) => "-" + line + CRLF + tail
                               case IntLine(n) => ":" + IntText(n) + CRLF + tail
                               case NullBulk => "$" + IntText(-1) + CRLF + tail
                               case _ => "*" + IntText(-1) + CRLF + tail
  {
    MinusOne();
    hide IntText;
  }

  /** Every reply of the protocol, however deeply nested, is read back, and what follows it is left
      as it is. */
  lemma {:induction false} ReadPrinted(w: Wire, tail: string)
    requires WireOk(w)
    ensures Read(Print(w) + tail) == Success(Got(ReplyOf(w), tail))
    decreases w, 0
  {
    hide Read, Number, Line, Bulk, IntText, LineOk, Print, PrintAll, RepliesOf, WiresOk, ReadMany;
    match w
    case SimpleLine(line) =>
      OthersInPrint(w, tail);
      ReadLine('+', line, tail);
    case ErrorLine(line) =>
      OthersInPrint(w, tail);
      ReadLine('-', line, tail);
    case IntLine(n) =>
      OthersInPrint(w, tail);
      ReadHead(':', n, tail);
    case BulkText(bytes) =>
      BulkInPrint(bytes, tail);
      ReadHead('$', |bytes|, bytes + CRLF + tail);
      BulkRead(bytes, tail);
    case NullBulk =>
      OthersInPrint(w, tail);
      ReadHead('$', -1, tail);
    case NullArray =>
      OthersInPrint(w, tail);
      ReadHead('*', -1, tail);
    case Multi(items) =>
      MultiInPrint(items, tail);
      ReadHead('*', |items|, PrintAll(items) + tail);
      ReadManyPrinted(items, tail);
  }

  lemma MinusOne()
    ensures IntText(-1) == "-1"
  {}

  lemma {:induction false} ReadManyPrinted(ws: seq<Wire>, tail: string)
    requires WiresOk(ws)
    ensures ReadMany(PrintAll(ws) + tail, |ws|) == Success(Got(RepliesOf(ws), tail))
    decreases ws
  {
    hide Read, Print, ReplyOf, WireOk;
    if ws == [] {
      assert PrintAll(ws) + tail == tail;
    } else {
      var after := PrintAll(ws[1..]) + tail;
      ReadPrinted(ws[0], after);
      ReadManyPrinted(ws[1..], tail);
      FirstPrinted(ws, tail);
      hide PrintAll;
      assert ReadMany(Print(ws[0]) + after, |ws|) == Success(Got([ReplyOf(ws[0])] + RepliesOf(ws[1..]), tail));
    }
  }

  lemma FirstPrinted(ws: seq<Wire>, tail: string)
    requires ws != []
    ensures PrintAll(ws) + tail == Print(ws[0]) + (PrintAll(ws[1..]) + tail)
  {
    hide Print;
  }

  // ---- requests

  function Bulks(args: seq<string>): (r: seq<Wire>)
    ensures |r| == |args|
  {
    if args == [] then [] else [BulkText(args[0])] + Bulks(args[1..])
  }

  function Texts(args: seq<string>): (r: seq<Reply>)
    ensures |r| == |args| && forall i :: 0 <= i < |r| ==> r[i] == Str(args[i])
  {
    seq(|args|, i requires 0 <= i < |args| => Str(args[i]))
  }

  function Request(args: seq<string>): string {
    Print(Multi(Bulks(args)))
  }

  lemma {:induction false} BulksFit(args: seq<string>)
    requires forall i :: 0 <= i < |args| ==> |args[i]| <= MAX_BULK
    ensures WiresOk(Bulks(args)) && RepliesOf(Bulks(args)) == Texts(args)
  {
    hide WireOk, ReplyOf;
    if args != [] {
      BulksFit(args[1..]);
      BulkFits(args[0]);
      var ws := Bulks(args);
      assert ws[0] == BulkText(args[0]) && ws[1..] == Bulks(args[1..]);
      hide Bulks;
      assert WiresOk(ws) && RepliesOf(ws) == [Str(args[0])] + Texts(args[1..]);
    }
  }

  lemma BulkFits(bytes: string)
    ensures WireOk(BulkText(bytes)) <==> |bytes| <= MAX_BULK
    ensures ReplyOf(BulkText(bytes)) == Str(bytes)
  {}

  /** The reader inverts the request writer: the same arguments come back, whatever bytes they hold,
      and nothing of what follows is touched. */
  lemma RequestReadBack(args: seq<string>, tail: string)
    requires |args| <= MAX_ARRAY && forall i :: 0 <= i < |args| ==> |args[i]| <= MAX_BULK
    ensures Read(Request(args) + tail) == Success(Got(Arr(Texts(args)), tail))
  {
    hide Read, Print;
    BulksFit(args);
    ReadPrinted(Multi(Bulks(args)), tail);
  }

  /** The bounds are exact: one argument more, or one longer, and the reader refuses. */
  lemma RequestRefusedIff(args: seq<string>, tail: string)
    requires |args| < 0x8000_0000_0000_0000 && forall i :: 0 <= i < |args| ==> |args[i]| < 0x8000_0000_0000_0000
    ensures Read(Request(args) + tail).Success? <==>
              (|args| <= MAX_ARRAY && forall i :: 0 <= i < |args| ==> |args[i]| <= MAX_BULK)
  {
    hide Read, Print, Number, Line, IntText;
    var after := PrintAll(Bulks(args)) + tail;
    RequestHead(args, tail);
    if |args| <= MAX_ARRAY {
      if i :| 0 <= i < |args| && |args[i]| > MAX_BULK {
        TooLongRefused(args, tail);
        ManyRequest(args, tail);
      } else {
        RequestReadBack(args, tail);
      }
    }
  }

  /** A request starts with the number of its arguments. */
  lemma RequestHead(args: seq<string>, tail: string)
    requires |args| < 0x8000_0000_0000_0000
    ensures |args| > MAX_ARRAY ==> Read(Request(args) + tail).Failure?
    ensures |args| <= MAX_ARRAY ==>
              (Read(Request(args) + tail).Success? <==> ReadMany(PrintAll(Bulks(args)) + tail, |args|).Success?)
  {
    hide Read, Print, IntText, ReadMany, PrintAll;
    MultiInPrint(Bulks(args), tail);
    ReadHead('*', |args|, PrintAll(Bulks(args)) + tail);
  }

  lemma ManyRequest(args: seq<string>, tail: string)
    requires |args| <= MAX_ARRAY && ReadMany(PrintAll(Bulks(args)) + tail, |args|).Failure?
    ensures Read(Request(args) + tail).Failure?
  {
    hide Read, ReadMany, PrintAll, Print;
    RequestHead(args, tail);
  }

  lemma {:induction false} TooLongRefused(args: seq<string>, tail: string)
    requires forall i :: 0 <= i < |args| ==> |args[i]| < 0x8000_0000_0000_0000
    requires exists i :: 0 <= i < |args| && |args[i]| > MAX_BULK
    ensures ReadMany(PrintAll(Bulks(args)) + tail, |args|).Failure?
  {
    hide Read, Print, PrintAll, IntText;
    var after := PrintAll(Bulks(args[1..])) + tail;
    FirstBulk(args, tail);
    if |args[0]| <= MAX_BULK {
      ReadPrinted(BulkText(args[0]), after);
      var i :| 0 <= i < |args| && |args[i]| > MAX_BULK;
      assert args[1..][i - 1] == args[i];
      TooLongRefused(args[1..], tail);
    } else {
      LongBulkRefused(args[0], after);
    }
  }

  lemma FirstBulk(args: seq<string>, tail: string)
    requires args != []
    ensures PrintAll(Bulks(args)) + tail == Print(BulkText(args[0])) + (PrintAll(Bulks(args[1..])) + tail)
  {
    hide Print, PrintAll;
    assert Bulks(args)[1..] == Bulks(args[1..]);
    FirstPrinted(Bulks(args), tail);
  }

  lemma LongBulkRefused(bytes: string, tail: string)
    requires MAX_BULK < |bytes| < 0x8000_0000_0000_0000
    ensures Read(Print(BulkText(bytes)) + tail).Failure?
  {
    hide Read, Print, IntText, Bulk;
    BulkInPrint(bytes, tail);
    ReadHead('$', |bytes|, bytes + CRLF + tail);
  }

  // ---- later bytes never change an answer

  lemma {:induction false} LineLater(s: string, room: nat, more: string)
    ensures Line(s, room).Success? ==>
          Line(s + more, room) == Success(Got(Line(s, room).value.value, Line(s, room).value.rest + more))
    ensures Line(s, room).Failure? && Line(s, room).error != CLOSED ==> Line(s + more, room) == Line(s, room)
  {
    if room > 0 && s != [] {
      assert (s + more)[0] == s[0];
      if s[0] == '\r' {
        if |s| > 1 {
          assert (s + more)[2..] == s[2..] + more;
        }
      } else {
        LineLater(s[1..], room - 1, more);
        assert (s + more)[1..] == s[1..] + more;
      }
    }
  }

  lemma NumberLater(s: string, more: string)
    ensures Number(s).Success? ==> Number(s + more) == Success(Got(Number(s).value.value, Number(s).value.rest + more))
    ensures Number(s).Failure? && Number(s).error != CLOSED ==> Number(s + more) == Number(s)
  {
    hide Line, Stoll;
    LineLater(s, MAX_LINE, more);
  }

  lemma BulkLater(s: string, n: nat, more: string)
    ensures Bulk(s, n).Success? ==>
          Bulk(s + more, n) == Success(Got(Bulk(s, n).value.value, Bulk(s, n).value.rest + more))
    ensures Bulk(s, n).Failure? && Bulk(s, n).error != CLOSED ==> Bulk(s + more, n) == Bulk(s, n)
  {
    if |s| >= n + 2 {
      assert (s + more)[..n] == s[..n] && (s + more)[n + 2..] == s[n + 2..] + more;
    }
  }

  /** A reply that has been read, or found malformed, stays so whatever arrives later: only a missing
      rest can still change the outcome. */
  lemma {:induction false} ReadLater(s: string, more: string)
    ensures Read(s).Success? ==> Read(s + more) == Success(Got(Read(s).value.value, Read(s).value.rest + more))
    ensures Read(s).Failure? && Read(s).error != CLOSED ==> Read(s + more) == Read(s)
    decreases |s|, 0
  {
    hide Line, Number, Bulk;
    if s != [] {
      assert (s + more)[0] == s[0] && (s + more)[1..] == s[1..] + more;
      LineLater(s[1..], MAX_LINE, more);
      NumberLater(s[1..], more);
      var n := Number(s[1..]);
      if n.Success? {
        if 0 <= n.value.value <= MAX_BULK {
          BulkLater(n.value.rest, n.value.value, more);
        }
        if 0 <= n.value.value <= MAX_ARRAY {
          ReadManyLater(n.value.rest, n.value.value, more);
        }
      }
    }
  }

  lemma {:induction false} ReadManyLater(s: string, count: nat, more: string)
    ensures ReadMany(s, count).Success? ==>
              var got := ReadMany(s, count).value;
              ReadMany(s + more, count) == Success(Got(got.value, got.rest + more))
    ensures ReadMany(s, count).Failure? && ReadMany(s, count).error != CLOSED ==>
          ReadMany(s + more, count) == ReadMany(s, count)
    decreases |s|, 1
  {
    hide Read;
    if count > 0 {
      ReadLater(s, more);
      if Read(s).Success? {
        ReadManyLater(Read(s).value.rest, count - 1, more);
      }
    }
  }

  // ---- the reader on a connection

  /** An answer with what was gathered before it. */
  function Behind<T>(done: seq<T>, r: Result<Got<seq<T>>>): Result<Got<seq<T>>> {
    match r
    case Success(got) => Success(Got(done + got.value, got.rest))
    case Failure(e) => Failure(e)
  }

  lemma BehindNothing<T>(r: Result<Got<seq<T>>>)
    ensures Behind([], r) == r
  {
    if r.Success? {
      assert [] + r.value.value == r.value.value;
    }
  }

  lemma BehindOneMore<T>(done: seq<T>, x: T, r: Result<Got<seq<T>>>)
    ensures Behind(done, Behind([x], r)) == Behind(done + [x], r)
  {
    if r.Success? {
      assert done + ([x] + r.value.value) == done + [x] + r.value.value;
    }
  }

  /** A connection: the bytes that are still to come, delivered in pieces the network chooses. */
  class Connection {
    var incoming: string

    constructor (bytes: string)
      ensures incoming == bytes
    {
      incoming := bytes;
    }

    method ReceiveChar() returns (r: Result<char>)
      modifies this
      ensures if old(incoming) == [] then r == Failure(CLOSED) && incoming == []
              else r == Success(old(incoming)[0]) && incoming == old(incoming)[1..]
    {
      if incoming == [] {
        return Failure(CLOSED);
      }
      r := Success(incoming[0]);
      incoming := incoming[1..];
    }

    /** Some bytes, at most `n`: how many is up to the network. None at all means it is closed. */
    method ReceiveSome(n: nat) returns (chunk: string)
      requires n > 0
      modifies this
      ensures |chunk| <= n && old(incoming) == chunk + incoming
      ensures chunk == [] <==> old(incoming) == []
    {
      if incoming == [] {
        return [];
      }
      var k :| 1 <= k <= n && k <= |incoming|;
      chunk := incoming[..k];
      incoming := incoming[k..];
    }

    method ReceiveLine() returns (r: Result<string>)
      modifies this
      ensures match Line(old(incoming), MAX_LINE)
              case Success(got) => r == Success(got.value) && incoming == got.rest
              case Failure(e) => r == Failure(e)
    {
      var line := [];
      BehindNothing(Line(incoming, MAX_LINE));
      while |line| < MAX_LINE
        invariant |line| <= MAX_LINE
        invariant Line(old(incoming), MAX_LINE) == Behind(line, Line(incoming, MAX_LINE - |line|))
      {
        var c := ReceiveChar();
        if c.Failure? {
          return Failure(c.error);
        }
        if c.value == '\r' {
          var d := ReceiveChar();
          if d.Failure? {
            return Failure(d.error);
          }
          if d.value != '\n' {
            return Failure("Invalid Redis response terminator");
          }
          assert line + [] == line;
          return Success(line);
        }
        BehindOneMore(line, c.value, Line(incoming, MAX_LINE - |line| - 1));
        line := line + [c.value];
      }
      r := Failure("Redis response line too large");
    }

    method ReceiveBytes(length: nat) returns (r: Result<string>)
      modifies this
      ensures if |old(incoming)| < length then r == Failure(CLOSED)
              else r == Success(old(incoming)[..length]) && incoming == old(incoming)[length..]
    {
      var data := [];
      while |data| < length
        invariant |data| <= length && old(incoming) == data + incoming
      {
        var chunk := ReceiveSome(length - |data|);
        if chunk == [] {
          return Failure(CLOSED);
        }
        data := data + chunk;
      }
      r := Success(data);
    }

    method ReceiveNumber() returns (r: Result<int>)
      modifies this
      ensures match Number(old(incoming))
              case Success(got) => r == Success(got.value) && incoming == got.rest
              case Failure(e) => r == Failure(e)
    {
      hide Line, Stoll;
      var line := ReceiveLine();
      if line.Failure? {
        return Failure(line.error);
      }
      var n := Stoll(line.value);
      r := if n.Some? then Success(n.value) else Failure("stoll");
    }

    method ReceiveBulk(length: nat) returns (r: Result<Reply>)
      modifies this
      ensures match Bulk(old(incoming), length)
              case Success(got) => r == Success(got.value) && incoming == got.rest
              case Failure(e) => r == Failure(e)
    {
      var data := ReceiveBytes(length);
      if data.Failure? {
        return Failure(data.error);
      }
      var c := ReceiveChar();
      if c.Failure? {
        return Failure(c.error);
      }
      if c.value != '\r' {
        return Failure("Invalid Redis bulk response terminator");
      }
      var d := ReceiveChar();
      if d.Failure? {
        return Failure(d.error);
      }
      if d.value != '\n' {
        return Failure("Invalid Redis bulk response terminator");
      }
      r := Success(Str(data.value));
    }

    /** One reply off the stream, however the bytes are cut up on the way. */
    method ReadReply() returns (r: Result<Reply>)
      modifies this
      ensures match Read(old(incoming))
              case Success(got) => r == Success(got.value) && incoming == got.rest
              case Failure(e) => r == Failure(e)
      decreases |incoming|, 0
    {
      hide Line, Number, Bulk;
      ghost var before := |incoming|;
      var prefix := ReceiveChar();
      if prefix.Failure? {
        return Failure(prefix.error);
      }
      if prefix.value == '+' || prefix.value == '-' {
        var line := ReceiveLine();
        if line.Failure? {
          return Failure(line.error);
        }
        return Success(if prefix.value == '+' then Str(line.value) else Err(line.value));
      }
      if prefix.value != ':' && prefix.value != '$' && prefix.value != '*' {
        return Failure("Unknown Redis response type");
      }
      var n := ReceiveNumber();
      if n.Failure? {
        return Failure(n.error);
      }
      if prefix.value == ':' {
        return Success(Int(n.value));
      }
      if n.value < 0 {
        return Success(Nil);
      }
      if prefix.value == '$' {
        if n.value > MAX_BULK {
          return Failure("Redis bulk response too large");
        }
        r := ReceiveBulk(n.value);
        return;
      }
      if n.value > MAX_ARRAY {
        return Failure("Redis array response too large");
      }
      var items := ReadReplies(n.value);
      r := if items.Success? then Success(Arr(items.value)) else Failure(items.error);
    }

    method ReadReplies(count: nat) returns (r: Result<seq<Reply>>)
      modifies this
      ensures match ReadMany(old(incoming), count)
              case Success(got) => r == Success(got.value) && incoming == got.rest
              case Failure(e) => r == Failure(e)
      decreases |incoming|, 1
    {
      hide Read;
      var items := [];
      var i := 0;
      BehindNothing(ReadMany(incoming, count));
      while i < count
        invariant 0 <= i <= count && |items| == i && |incoming| <= |old(incoming)|
        invariant i > 0 ==> |incoming| < |old(incoming)|
        invariant ReadMany(old(incoming), count) == Behind(items, ReadMany(incoming, count - i))
      {
        var item := ReadReply();
        if item.Failure? {
          return Failure(item.error);
        }
        BehindOneMore(items, item.value, ReadMany(incoming, count - i - 1));
        items := items + [item.value];
        i := i + 1;
      }
      assert items + [] == items;
      r := Success(items);
    }
  }

  /** The request text, argument by argument. */
  method BuildRequest(args: seq<string>) returns (request: string)
    ensures request == Request(args)
  {
    hide IntText;
    request := "*" + IntText(|args|) + "\r\n";
    ghost var head := request;
    var i := 0;
    assert args[0..] == args;
    while i < |args|
      invariant 0 <= i <= |args|
      invariant head + PrintAll(Bulks(args)) == request + PrintAll(Bulks(args[i..]))
    {
      assert args[i..][1..] == args[i + 1..];
      assert Bulks(args[i..])[1..] == Bulks(args[i + 1..]);
      ghost var before := request;
      request := request + "$" + IntText(|args[i]|) + "\r\n";
      request := request + args[i];
      request := request + "\r\n";
      assert request == before + Print(BulkText(args[i]));
      i := i + 1;
    }
  }
}
