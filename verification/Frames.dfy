/** Length-prefixed frames: what is written to the wire and to event logs, and read back. The
    payload codec is any pair of functions. */
module Frames {
  import opened Types

  type Byte = x: nat | x < 256

  const MAX_FRAME: nat := 4 * 1024 * 1024

  /** Four bytes, least significant first; lengths wrap at 2^32. */
  function Prefix(n: nat): (r: seq<Byte>)
    ensures |r| == 4
  {
    [n % 256, n / 256 % 256, n / 65536 % 256, n / 16777216 % 256]
  }

  function Length(b: seq<Byte>): nat
    requires |b| == 4
  {
    b[0] as nat + 256 * (b[1] as nat) + 65536 * (b[2] as nat) + 16777216 * (b[3] as nat)
  }

  lemma PrefixRoundTrip(n: nat)
    requires n < 0x1_0000_0000
    ensures Length(Prefix(n)) == n
  {
    var a, b, c := n / 256, n / 65536, n / 16777216;
    assert n == 256 * a + n % 256;
    assert a / 256 == b && a == 256 * b + a % 256;
    assert b / 256 == c && b == 256 * c + b % 256;
    assert c < 256;
  }

  function Power(b: nat, e: nat): (r: nat)
    ensures b > 0 ==> r > 0
  {
    if e == 0 then 1 else b * Power(b, e - 1)
  }

  /** The least significant byte comes first: byte `k` is the digit of 256 to the `k`. */
  lemma LittleEndian(n: nat, k: nat)
    requires k < 4
    ensures Prefix(n)[k] == n / Power(256, k) % 256
  {
    assert Power(256, 0) == 1 && Power(256, 1) == 256 * Power(256, 0);
    assert Power(256, 2) == 256 * Power(256, 1) && Power(256, 3) == 256 * Power(256, 2);
  }

  datatype Result<T> = Ok(value: T) | TooLarge(size: nat) | Truncated | Undecodable

  /** `frame::encode` of an already serialized payload. */
  function Encode(payload: seq<Byte>): Result<seq<Byte>> {
    if |payload| > MAX_FRAME then TooLarge(|payload|) else Ok(Prefix(|payload|) + payload)
  }

  function ParseLengthPrefix(b: seq<Byte>): Result<nat>
    requires |b| == 4
  {
    if Length(b) > MAX_FRAME then TooLarge(Length(b)) else Ok(Length(b))
  }

  /** What is encoded can be unframed: the prefix announces exactly the rest; only oversized
      payloads are refused, on either side. */
  lemma EncodeThenParse(payload: seq<Byte>)
    ensures Encode(payload).Ok? <==> |payload| <= 4194304
    ensures Encode(payload).Ok? ==>
              var framed := Encode(payload).value;
              |framed| >= 4 && ParseLengthPrefix(framed[..4]) == Ok(|framed| - 4) && framed[4..] == payload
  {
    if |payload| <= MAX_FRAME {
      PrefixRoundTrip(|payload|);
      assert (Prefix(|payload|) + payload)[..4] == Prefix(|payload|);
    }
  }

  // ---------------------------------------------------------------------------
  // Event logs
  // ---------------------------------------------------------------------------

  /** What `FileSink` writes for one event. */
  function Frame(payload: seq<Byte>): seq<Byte> { Prefix(|payload|) + payload }

  function Log<T>(enc: T -> seq<Byte>, xs: seq<T>): seq<Byte> {
    if xs == [] then [] else Frame(enc(xs[0])) + Log(enc, xs[1..])
  }

  /** `read_event_log`: a log that stops inside a length prefix ends there; one that stops inside
      a payload is an error. */
  function Read<T>(dec: seq<Byte> -> Option<T>, bytes: seq<Byte>): Result<seq<T>>
    decreases |bytes|
  {
    if |bytes| < 4 then Ok([])
    else
      var n := Length(bytes[..4]);
      if |bytes| - 4 < n then Truncated
      else
        match dec(bytes[4..4 + n])
        case None => Undecodable
        case Some(x) => After([x], Read(dec, bytes[4 + n..]))
  }

  /** Events already read, and how the rest went. */
  function After<T>(events: seq<T>, rest: Result<seq<T>>): Result<seq<T>> {
    match rest
    case Ok(xs) => Ok(events + xs)
    case err => err
  }

  lemma AfterBoth<T>(a: seq<T>, b: seq<T>, rest: Result<seq<T>>)
    ensures After(a, After(b, rest)) == After(a + b, rest) && After([], rest) == rest
  {
    if rest.Ok? { assert a + (b + rest.value) == a + b + rest.value && [] + rest.value == rest.value; }
  }

  /** What the payload codec must do for a value that is written: give it back, in fewer bytes
      than a length prefix can count. */
  ghost predicate Codes<T>(enc: T -> seq<Byte>, dec: seq<Byte> -> Option<T>, x: T) {
    dec(enc(x)) == Some(x) && |enc(x)| < 0x1_0000_0000
  }

  ghost predicate CodesAll<T>(enc: T -> seq<Byte>, dec: seq<Byte> -> Option<T>, xs: seq<T>) {
    forall k :: 0 <= k < |xs| ==> Codes(enc, dec, xs[k])
  }

  lemma FrameFirst<T>(enc: T -> seq<Byte>, x: T, rest: seq<Byte>)
    requires |enc(x)| < 0x1_0000_0000
    ensures var bytes := Frame(enc(x)) + rest; var n := |enc(x)|;
            |bytes| >= 4 + n && Length(bytes[..4]) == n && bytes[4..4 + n] == enc(x) && bytes[4 + n..] == rest
  {
    PrefixRoundTrip(|enc(x)|);
    var bytes := Frame(enc(x)) + rest;
    assert bytes[..4] == Prefix(|enc(x)|);
  }

  lemma ReadFrame<T>(enc: T -> seq<Byte>, dec: seq<Byte> -> Option<T>, x: T, rest: seq<Byte>)
    requires Codes(enc, dec, x)
    ensures Read(dec, Frame(enc(x)) + rest) == After([x], Read(dec, rest))
  {
    FrameFirst(enc, x, rest);
  }

  /** Part of a frame and nothing after it. */
  lemma ReadPart<T>(enc: T -> seq<Byte>, dec: seq<Byte> -> Option<T>, x: T, rest: seq<Byte>, extra: nat)
    requires Codes(enc, dec, x) && extra < 4 + |enc(x)|
    ensures Read(dec, (Frame(enc(x)) + rest)[..extra]) == if extra < 4 then Ok([]) else Truncated
  {
    FrameFirst(enc, x, rest);
    var bytes := Frame(enc(x)) + rest;
    if extra >= 4 { assert bytes[..extra][..4] == bytes[..4]; }
  }

  /** Where a log of the first `k` events ends. */
  function Offset<T>(enc: T -> seq<Byte>, xs: seq<T>, k: nat): nat
    requires k <= |xs|
  {
    if k == 0 then 0 else 4 + |enc(xs[0])| + Offset(enc, xs[1..], k - 1)
  }

  /** Reading a log cut off after any number of bytes: the whole events before the cut if it
      falls at most three bytes behind one of them, an error otherwise. Uncut, it is exactly
      what was written. */
  lemma {:induction false} ReadCutLog<T>(enc: T -> seq<Byte>, dec: seq<Byte> -> Option<T>, xs: seq<T>, k: nat,
      extra: nat)
    requires CodesAll(enc, dec, xs) && k <= |xs|
    requires k < |xs| ==> extra < 4 + |enc(xs[k])|
    requires k == |xs| ==> extra == 0
    ensures Offset(enc, xs, k) + extra <= |Log(enc, xs)|
    ensures Read(dec, Log(enc, xs)[..Offset(enc, xs, k) + extra]) == if extra < 4 then Ok(xs[..k]) else Truncated
  {
    hide Read, Frame, Codes;
    if xs != [] {
      var first, rest := Frame(enc(xs[0])), Log(enc, xs[1..]);
      FrameLength(enc(xs[0]));
      if k == 0 {
        ReadPart(enc, dec, xs[0], rest, extra);
      } else {
        ReadCutLog(enc, dec, xs[1..], k - 1, extra);
        var at := Offset(enc, xs[1..], k - 1) + extra;
        assert (first + rest)[..|first| + at] == first + rest[..at];
        ReadFrame(enc, dec, xs[0], rest[..at]);
        assert xs[..k] == [xs[0]] + xs[1..][..k - 1];
      }
    } else {
      ReadEnd(dec, []);
    }
  }

  lemma FrameLength(payload: seq<Byte>)
    ensures |Frame(payload)| == 4 + |payload|
  {
  }

  lemma {:induction false} OffsetAll<T>(enc: T -> seq<Byte>, xs: seq<T>)
    ensures Offset(enc, xs, |xs|) == |Log(enc, xs)|
  {
    if xs != [] { OffsetAll(enc, xs[1..]); }
  }

  /** A log reads back as the events written to it. */
  lemma LogRoundTrip<T>(enc: T -> seq<Byte>, dec: seq<Byte> -> Option<T>, xs: seq<T>)
    requires CodesAll(enc, dec, xs)
    ensures Read(dec, Log(enc, xs)) == Ok(xs)
  {
    hide Read, Log, Codes, Offset;
    ReadCutLog(enc, dec, xs, |xs|, 0);
    OffsetAll(enc, xs);
    assert Log(enc, xs)[..|Log(enc, xs)|] == Log(enc, xs) && xs[..|xs|] == xs;
  }

  /** Appending to a log appends its events. */
  lemma {:induction false} LogAppend<T>(enc: T -> seq<Byte>, xs: seq<T>, x: T)
    ensures Log(enc, xs + [x]) == Log(enc, xs) + Frame(enc(x))
  {
    if xs == [] {
      assert [] + [x] == [x] && [x][1..] == [];
    } else {
      LogAppend(enc, xs[1..], x);
      assert (xs + [x])[1..] == xs[1..] + [x];
    }
  }

  class FileSink<T> {
    const enc: T -> seq<Byte>
    var written: seq<Byte>
    ghost var events: seq<T>

    ghost predicate Valid()
      reads this
    {
      written == Log(enc, events)
    }

    constructor (e: T -> seq<Byte>)
      ensures Valid() && enc == e && events == []
    {
      enc, written, events := e, [], [];
    }

    method OnEvent(x: T)
      requires Valid()
      modifies this
      ensures Valid() && events == old(events) + [x]
    {
      LogAppend(enc, events, x);
      var payload := enc(x);
      written := written + Prefix(|payload|);
      written := written + payload;
      events := events + [x];
    }
  }

  lemma ReadEnd<T>(dec: seq<Byte> -> Option<T>, bytes: seq<Byte>)
    requires |bytes| < 4
    ensures Read(dec, bytes) == Ok([])
  {
  }

  lemma ReadAt<T>(dec: seq<Byte> -> Option<T>, bytes: seq<Byte>, at: nat)
    requires at + 4 <= |bytes|
    ensures var n := Length(bytes[at..at + 4]); var from := at + 4;
            Read(dec, bytes[at..]) ==
            if |bytes| - from < n then Truncated
            else match dec(bytes[from..from + n])
                 case None => Undecodable
                 case Some(x) => After([x], Read(dec, bytes[from + n..]))
  {
    hide Length;
    assert bytes[at..][..4] == bytes[at..at + 4];
    var n := Length(bytes[at..at + 4]);
    if |bytes| - at - 4 >= n {
      assert bytes[at..][4..4 + n] == bytes[at + 4..at + 4 + n];
      assert bytes[at..][4 + n..] == bytes[at + 4 + n..];
    }
  }

  method ReadEventLog<T>(dec: seq<Byte> -> Option<T>, bytes: seq<Byte>) returns (r: Result<seq<T>>)
    ensures r == Read(dec, bytes)
  {
    hide Read, Length;
    var events, at := [], 0;
    AfterBoth<T>([], [], Read(dec, bytes));
    assert bytes[0..] == bytes;
    while |bytes| - at >= 4
      invariant 0 <= at <= |bytes|
      invariant Read(dec, bytes) == After(events, Read(dec, bytes[at..]))
      decreases |bytes| - at
    {
      ReadAt(dec, bytes, at);
      var n := Length(bytes[at..at + 4]);
      at := at + 4;
      if |bytes| - at < n { return Truncated; }
      match dec(bytes[at..at + n])
      case None => return Undecodable;
      case Some(x) =>
        AfterBoth(events, [x], Read(dec, bytes[at + n..]));
        events := events + [x];
        at := at + n;
    }
    ReadEnd(dec, bytes[at..]);
    assert events + [] == events;
    return Ok(events);
  }

  /** Events written one by one to a file and read back: the same events. */
  method WriteThenRead(enc: Event -> seq<Byte>, dec: seq<Byte> -> Option<Event>, events: seq<Event>)
    returns (r: Result<seq<Event>>)
    requires CodesAll(enc, dec, events)
    ensures r == Ok(events)
  {
    var sink := new FileSink<Event>(enc);
    for k := 0 to |events|
      invariant sink.Valid() && sink.enc == enc && sink.events == events[..k]
    {
      sink.OnEvent(events[k]);
    }
    assert events[..|events|] == events;
    r := ReadEventLog(dec, sink.written);
    LogRoundTrip(enc, dec, events);
  }

  /** What the table's sink keeps of a hand: a frame per event, but none for an event too large
      to frame. */
  function Recorded<T>(enc: T -> seq<Byte>, xs: seq<T>): seq<Byte> {
    if xs == [] then []
    else (match Encode(enc(xs[0])) case Ok(framed) => framed case _ => []) + Recorded(enc, xs[1..])
  }

  function Framable<T>(enc: T -> seq<Byte>, xs: seq<T>): seq<T> {
    if xs == [] then []
    else (if |enc(xs[0])| <= MAX_FRAME then [xs[0]] else []) + Framable(enc, xs[1..])
  }

  lemma {:induction false} RecordedIsLog<T>(enc: T -> seq<Byte>, dec: seq<Byte> -> Option<T>, xs: seq<T>)
    requires forall k :: 0 <= k < |xs| ==> dec(enc(xs[k])) == Some(xs[k])
    ensures Recorded(enc, xs) == Log(enc, Framable(enc, xs)) && CodesAll(enc, dec, Framable(enc, xs))
  {
    if xs != [] {
      RecordedIsLog(enc, dec, xs[1..]);
      var rest := Framable(enc, xs[1..]);
      if |enc(xs[0])| <= MAX_FRAME {
        assert Framable(enc, xs) == [xs[0]] + rest;
        assert ([xs[0]] + rest)[1..] == rest;
      } else {
        assert Framable(enc, xs) == rest && Recorded(enc, xs) == Recorded(enc, xs[1..]);
      }
    }
  }

  /** The stored record of a hand reads back as its events, oversized ones left out. */
  lemma RecordReadsBack<T>(enc: T -> seq<Byte>, dec: seq<Byte> -> Option<T>, xs: seq<T>)
    requires forall k :: 0 <= k < |xs| ==> dec(enc(xs[k])) == Some(xs[k])
    ensures Read(dec, Recorded(enc, xs)) == Ok(Framable(enc, xs))
  {
    RecordedIsLog(enc, dec, xs);
    LogRoundTrip(enc, dec, Framable(enc, xs));
  }
}
