/** Length-prefixed frames on a byte stream: how they are written and how the data server cuts them
    out of whatever pieces arrive. */
module Framing {
  import opened ByteStrings

  datatype Frame = Frame(kind: Byte, payload: Bytes)

  const WORD: nat := 0x1_0000_0000

  /** Four length bytes (the size modulo 2^32), one type byte, the payload. */
  function Encode(f: Frame): Bytes {
    BigEndian(|f.payload| % WORD, 4) + [f.kind] + f.payload
  }

  function EncodeAll(fs: seq<Frame>): Bytes {
    if fs == [] then [] else Encode(fs[0]) + EncodeAll(fs[1..])
  }

  datatype Taken = NeedMore | Got(frame: Frame, rest: Bytes) | Overrun

  /** One turn of the loop. The sum of header and length is a 32-bit one; taking more than is there
      stops the program. */
  function TakeFrame(buf: Bytes): Taken {
    if |buf| < 5 then NeedMore
    else
      var len := FromBigEndian(buf[..4]);
      if |buf| < (5 + len) % WORD then NeedMore
      else if |buf| < 5 + len then Overrun
      else Got(Frame(buf[4], buf[5..5 + len]), buf[5 + len..])
  }

  datatype Cut = Cut(frames: seq<Frame>, rest: Bytes, overrun: bool)

  function Split(buf: Bytes): Cut
    decreases |buf|
  {
    match TakeFrame(buf)
    case NeedMore => Cut([], buf, false)
    case Overrun => Cut([], buf, true)
    case Got(f, rest) =>
      var c := Split(rest);
      Cut([f] + c.frames, c.rest, c.overrun)
  }

  /** The connection's buffer after each piece: what was cut so far and what is left. */
  function Feed(state: Cut, piece: Bytes): Cut {
    if state.overrun then state
    else
      var c := Split(state.rest + piece);
      Cut(state.frames + c.frames, c.rest, c.overrun)
  }

  function FeedAll(pieces: seq<Bytes>): Cut {
    if pieces == [] then Cut([], [], false)
    else Feed(FeedAll(pieces[..|pieces| - 1]), pieces[|pieces| - 1])
  }

  function Joined(pieces: seq<Bytes>): Bytes {
    if pieces == [] then [] else Joined(pieces[..|pieces| - 1]) + pieces[|pieces| - 1]
  }

  // ----- Cutting does not depend on how the stream arrives -----

  lemma TakeMore(a: Bytes, b: Bytes)
    ensures TakeFrame(a).Got? ==> TakeFrame(a + b) == Got(TakeFrame(a).frame, TakeFrame(a).rest + b)
  {
    if TakeFrame(a).Got? {
      var len := FromBigEndian(a[..4]);
      assert (a + b)[..4] == a[..4];
      assert (a + b)[5..5 + len] == a[5..5 + len] && (a + b)[5 + len..] == a[5 + len..] + b;
    }
  }

  /** Cutting a stream is cutting a beginning of it and going on with the rest. */
  lemma {:induction false} SplitMore(a: Bytes, b: Bytes)
    requires !Split(a).overrun
    ensures var x, y := Split(a), Split(Split(a).rest + b);
      Split(a + b) == Cut(x.frames + y.frames, y.rest, y.overrun)
    decreases |a|
  {
    hide TakeFrame, Split;
    TakeMore(a, b);
    SplitOnce(a);
    match TakeFrame(a)
    case NeedMore =>
    case Overrun =>
    case Got(f, rest) =>
      GotShrinks(a);
      SplitMore(rest, b);
      SplitOnce(a + b);
      var x, y := Split(rest), Split(Split(rest).rest + b);
      assert [f] + (x.frames + y.frames) == ([f] + x.frames) + y.frames;
  }

  lemma SplitOnce(a: Bytes)
    ensures match TakeFrame(a)
      case NeedMore => Split(a) == Cut([], a, false)
      case Overrun => Split(a) == Cut([], a, true)
      case Got(f, rest) => Split(a) == Cut([f] + Split(rest).frames, Split(rest).rest, Split(rest).overrun)
  {
    hide TakeFrame;
    GotShrinks(a);
  }

  lemma GotShrinks(a: Bytes)
    ensures TakeFrame(a).Got? ==> |TakeFrame(a).rest| < |a|
  {
  }

  /** For every stream in which no beginning overruns, pieces give what the whole gives. */
  lemma {:induction false} PiecesDoNotMatter(pieces: seq<Bytes>)
    requires forall k :: 0 <= k <= |pieces| ==> !Split(Joined(pieces[..k])).overrun
    ensures FeedAll(pieces) == Split(Joined(pieces))
  {
    hide Split;
    assert pieces[..|pieces|] == pieces;
    if pieces == [] {
      SplitNone();
    } else {
      var front, last := pieces[..|pieces| - 1], pieces[|pieces| - 1];
      forall k | 0 <= k <= |front| ensures !Split(Joined(front[..k])).overrun { assert front[..k] == pieces[..k]; }
      PiecesDoNotMatter(front);
      assert front[..|front|] == front;
      SplitMore(Joined(front), last);
    }
  }

  lemma SplitNone()
    ensures Split([]) == Cut([], [], false)
  {
  }

  // ----- Round trip -----

  /** The largest payload whose frame length fits 32 bits. */
  predicate Fits(f: Frame) {
    |f.payload| <= 0xFFFF_FFFA
  }

  /** Where everything is in a frame: the size in four bytes, the highest first, then the type, then the payload. */
  lemma FrameLayout(f: Frame)
    requires |f.payload| < 0x1_0000_0000
    ensures var e := Encode(f);
      && |e| == 5 + |f.payload| && e[4] == f.kind && e[5..] == f.payload
      && |f.payload| == 0x100_0000 * (e[0] as int) + 0x1_0000 * (e[1] as int) + 0x100 * (e[2] as int) + (e[3] as int)
  {
    var n := |f.payload|;
    assert BigEndian(n, 4)[3] == n % 256;
    assert BigEndian(n, 4)[2] == BigEndian(n / 256, 3)[2] == n / 256 % 256;
    assert BigEndian(n, 4)[1] == BigEndian(n / 256, 3)[1] == BigEndian(n / 256 / 256, 2)[1] == n / 256 / 256 % 256;
    assert BigEndian(n, 4)[0] == BigEndian(n / 256, 3)[0] == BigEndian(n / 256 / 256, 2)[0]
      == BigEndian(n / 256 / 256 / 256, 1)[0] == n / 256 / 256 / 256 % 256;
  }

  lemma LengthRead(f: Frame, buf: Bytes)
    requires |f.payload| < WORD && |buf| >= 4 && buf[..4] == Encode(f)[..4]
    ensures FromBigEndian(buf[..4]) == |f.payload|
  {
    assert Encode(f)[..4] == BigEndian(|f.payload|, 4);
    assert Pow256(4) == WORD;
    BigEndianRoundTrip(|f.payload|, 4);
  }

  /** Any part of the stream that begins with a frame: the frame comes out once it is all there. */
  lemma TakeEncoded(f: Frame, buf: Bytes, more: Bytes)
    requires Fits(f) && buf <= Encode(f) + more
    ensures TakeFrame(buf) == if |buf| < |Encode(f)| then NeedMore else Got(f, buf[|Encode(f)|..])
  {
    hide FromBigEndian, BigEndian;
    var e := Encode(f);
    if |buf| >= 5 {
      assert buf[..4] == e[..4];
      LengthRead(f, buf);
      assert buf[4] == e[4] == f.kind;
      if |buf| >= |e| {
        assert buf[5..|e|] == e[5..] == f.payload;
      }
    }
  }

  lemma {:induction false} SplitEncoded(fs: seq<Frame>, buf: Bytes)
    requires (forall i :: 0 <= i < |fs| ==> Fits(fs[i])) && buf <= EncodeAll(fs)
    ensures !Split(buf).overrun
    ensures buf == EncodeAll(fs) ==> Split(buf) == Cut(fs, [], false)
  {
    hide TakeFrame, Encode, Fits;
    if fs == [] {
      SplitNone();
    } else {
      var e, more := Encode(fs[0]), EncodeAll(fs[1..]);
      TakeEncoded(fs[0], buf, more);
      if |buf| >= |e| {
        GotShrinks(buf);
        assert buf[|e|..] <= more;
        SplitEncoded(fs[1..], buf[|e|..]);
      }
    }
  }

  lemma {:induction false} JoinedPrefix(pieces: seq<Bytes>, k: nat)
    requires k <= |pieces|
    ensures Joined(pieces[..k]) <= Joined(pieces)
  {
    if k < |pieces| {
      var front := pieces[..|pieces| - 1];
      JoinedPrefix(front, k);
      assert front[..k] == pieces[..k];
    } else {
      assert pieces[..k] == pieces;
    }
  }

  /** Round trip under any chunking: frames whose length fits 32 bits, encoded one after another and
      delivered in any pieces, come out in order with nothing left over. */
  lemma RoundTrip(fs: seq<Frame>, pieces: seq<Bytes>)
    requires (forall i :: 0 <= i < |fs| ==> Fits(fs[i])) && Joined(pieces) == EncodeAll(fs)
    ensures FeedAll(pieces) == Cut(fs, [], false)
  {
    hide Split, Fits;
    forall k | 0 <= k <= |pieces| ensures !Split(Joined(pieces[..k])).overrun {
      JoinedPrefix(pieces, k);
      SplitEncoded(fs, Joined(pieces[..k]));
    }
    PiecesDoNotMatter(pieces);
    SplitEncoded(fs, Joined(pieces));
  }

  /** Exactly which payloads can be delivered in pieces: a frame cut anywhere before its end makes
      the server wait, unless its length is within five of 2^32, when the server overruns. */
  lemma PartialFrameWaits(f: Frame, k: nat)
    requires |f.payload| < WORD && 5 <= k < |Encode(f)|
    ensures Split(Encode(f)[..k]) == Cut([], Encode(f)[..k], !Fits(f))
  {
    hide FromBigEndian, BigEndian;
    var buf := Encode(f)[..k];
    assert buf[..4] == Encode(f)[..4];
    LengthRead(f, buf);
  }

  // ----- The objects -----

  /** How clients and Raft peers write a frame, each with its own type byte. */
  method SendFrame(kind: Byte, data: Bytes) returns (wire: Bytes)
    ensures wire == Encode(Frame(kind, data))
  {
    var len: Bytes := BigEndian(|data| % WORD, 4);
    wire := [];
    wire := wire + len;
    wire := wire + [kind];
    wire := wire + data;
  }

  /** A connection of the data server. */
  class Connection {
    var buffer: Bytes
    var handled: seq<Frame>
    var stopped: bool

    constructor ()
      ensures State() == FeedAll([])
    {
      buffer, handled, stopped := [], [], false;
    }

    function State(): Cut
      reads this
    {
      Cut(handled, buffer, stopped)
    }

    method OnMessage(piece: Bytes)
      modifies this
      ensures State() == Feed(old(State()), piece)
    {
      if stopped {
        return;
      }
      buffer := buffer + piece;
      ghost var whole := Split(buffer);
      while |buffer| >= 5
        invariant !stopped
        invariant var c := Split(buffer);
          old(handled) + whole.frames == handled + c.frames && c.rest == whole.rest && c.overrun == whole.overrun
        decreases |buffer|
      {
        var len := FromBigEndian(buffer[..4]);
        if |buffer| < (5 + len) % WORD {
          break;
        }
        if |buffer| < 5 + len {
          stopped := true;
          return;
        }
        var frame := Frame(buffer[4], buffer[5..5 + len]);
        ghost var rest := Split(buffer[5 + len..]);
        assert handled + ([frame] + rest.frames) == (handled + [frame]) + rest.frames;
        buffer := buffer[5 + len..];
        handled := handled + [frame];
      }
    }
  }
}
