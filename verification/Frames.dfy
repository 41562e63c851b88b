/** The frames of the push hub: four bytes of length, most significant first, then the body. */
module Frames {
  import opened Results
  import opened ByteDigits

  type Octet = x: int | 0 <= x < 256

  const MAX_FRAME := 65536

  function Low(x: int): Octet {
    x % 256
  }

  function Header(n: nat): (h: seq<Octet>)
    ensures |h| == 4
  {
    [Low(n / 256 / 256 / 256), Low(n / 256 / 256), Low(n / 256), Low(n)]
  }

  function LengthIn(h: seq<Octet>): nat
    requires |h| >= 4
  {
    var a: int, b: int, c: int, d: int := h[0], h[1], h[2], h[3];
    0x100_0000 * a + 0x1_0000 * b + 0x100 * c + d
  }

  /** What goes over the wire for a body; None is a refusal to send. */
  function Frame(body: seq<Octet>): Option<seq<Octet>> {
    if |body| > MAX_FRAME then None else Some(Header(|body|) + body)
  }

  /** Bodies up to 64 KiB are sent, longer ones are refused. */
  lemma SentIffFits(body: seq<Octet>)
    ensures Frame(body).Some? <==> |body| <= 65536
    ensures Frame(body).Some? ==> |Frame(body).value| == 4 + |body|
  {}

  /** The header as the source shifts it together. */
  method SendFrame(body: seq<Octet>) returns (wire: Option<seq<Octet>>)
    ensures wire == Frame(body)
  {
    if |body| > 65536 {
      return None;
    }
    var n := |body|;
    var header: seq<Octet> := [n / 0x100_0000 % 256, n / 0x1_0000 % 256, n / 0x100 % 256, n % 256];
    wire := Some(header + body);
  }

  datatype Got = Got(body: seq<Octet>, rest: seq<Octet>)

  /** One frame off the stream; None ends the connection. */
  function ReadFrame(s: seq<Octet>): Option<Got> {
    if |s| < 4 then None
    else
      var n := LengthIn(s);
      if n == 0 || n > MAX_FRAME || |s| < 4 + n then None else Some(Got(s[4..4 + n], s[4 + n..]))
  }

  lemma LengthOfHeader(n: nat)
    requires n < 0x1_0000_0000
    ensures LengthIn(Header(n)) == n
  {
    FourDigits(n);
  }

  /** A frame that is sent is read back, and nothing behind it is touched, exactly when its body is
      not empty: an empty body is sent, but its frame makes the reader give up. */
  lemma FrameReadBack(body: seq<Octet>, tail: seq<Octet>)
    requires |body| <= MAX_FRAME
    ensures ReadFrame(Frame(body).value + tail) == if body == [] then None else Some(Got(body, tail))
  {
    hide Header, LengthIn;
    var s := Frame(body).value + tail;
    LengthOfHeader(|body|);
    SameLength(Header(|body|), body + tail);
    assert s == Header(|body|) + (body + tail);
    assert s[4..4 + |body|] == body && s[4 + |body|..] == tail;
  }

  lemma SameLength(h: seq<Octet>, more: seq<Octet>)
    requires |h| == 4
    ensures LengthIn(h + more) == LengthIn(h)
  {}

  function AllFrames(bodies: seq<seq<Octet>>): seq<Octet>
    requires forall i :: 0 <= i < |bodies| ==> |bodies[i]| <= MAX_FRAME
  {
    if bodies == [] then [] else Frame(bodies[0]).value + AllFrames(bodies[1..])
  }

  function ReadFrames(s: seq<Octet>, count: nat): Option<(seq<seq<Octet>>, seq<Octet>)> {
    if count == 0 then Some(([], s))
    else
      var first := ReadFrame(s);
      if first == None then None
      else
        var others := ReadFrames(first.value.rest, count - 1);
        if others == None then None else Some(([first.value.body] + others.value.0, others.value.1))
  }

  /** A run of nonempty frames is read back frame by frame. */
  lemma {:induction false} FramesReadBack(bodies: seq<seq<Octet>>, tail: seq<Octet>)
    requires forall i :: 0 <= i < |bodies| ==> 1 <= |bodies[i]| <= MAX_FRAME
    ensures ReadFrames(AllFrames(bodies) + tail, |bodies|) == Some((bodies, tail))
  {
    hide ReadFrame, Frame;
    if bodies == [] {
      assert AllFrames(bodies) + tail == tail;
    } else {
      FirstFrame(bodies, tail);
      hide AllFrames;
      FrameReadBack(bodies[0], AllFrames(bodies[1..]) + tail);
      FramesReadBack(bodies[1..], tail);
      assert bodies == [bodies[0]] + bodies[1..];
    }
  }

  lemma FirstFrame(bodies: seq<seq<Octet>>, tail: seq<Octet>)
    requires bodies != [] && forall i :: 0 <= i < |bodies| ==> |bodies[i]| <= MAX_FRAME
    ensures AllFrames(bodies) + tail == Frame(bodies[0]).value + (AllFrames(bodies[1..]) + tail)
  {
    hide Frame;
  }

  /** The receiving end of a connection; how much arrives at a time is up to the network. */
  class Receiver {
    var incoming: seq<Octet>

    constructor (bytes: seq<Octet>)
      ensures incoming == bytes
    {
      incoming := bytes;
    }

    method ReadExact(n: nat) returns (r: Option<seq<Octet>>)
      modifies this
      ensures if |old(incoming)| < n then r == None
              else r == Some(old(incoming)[..n]) && incoming == old(incoming)[n..]
    {
      var got := [];
      while |got| < n
        invariant |got| <= n && old(incoming) == got + incoming
      {
        if incoming == [] {
          return None;
        }
        var k :| 1 <= k <= n - |got| && k <= |incoming|;
        got := got + incoming[..k];
        incoming := incoming[k..];
      }
      r := Some(got);
    }

    method Read() returns (body: Option<seq<Octet>>)
      modifies this
      ensures match ReadFrame(old(incoming))
              case Some(got) => body == Some(got.body) && incoming == got.rest
              case None => body == None
    {
      hide LengthIn;
      var header := ReadExact(4);
      if header == None {
        return None;
      }
      ghost var s := old(incoming);
      assert s == header.value + s[4..];
      SameLength(header.value, s[4..]);
      var n := LengthIn(header.value);
      if n == 0 || n > MAX_FRAME {
        return None;
      }
      assert |s| >= 4 + n ==> s[4..][..n] == s[4..4 + n] && s[4..][n..] == s[4 + n..];
      body := ReadExact(n);
    }
  }
}
