/** Length-prefixed framing on the shared stream: a 32-bit big-endian length and the message
    (fcitx5-hazkey/src/hazkey_server_connector.cpp:86-114, 233-244). */
module StreamFraming {

  type byte = x: int | 0 <= x < 256

  const MAX_FRAME := 0xFFFF_FFFF
  const MAXIMUM_RESPONSE_BYTES := 2 * 1024 * 1024

  function BigEndian(n: nat): (b: seq<byte>)
    requires n <= MAX_FRAME
    ensures |b| == 4
  {
    [n / 0x100_0000, n / 0x1_0000 % 256, n / 0x100 % 256, n % 256]
  }

  function Decode(b: seq<byte>): nat
    requires |b| == 4
  {
    (b[0] as int) * 0x100_0000 + (b[1] as int) * 0x1_0000 + (b[2] as int) * 0x100 + (b[3] as int)
  }

  lemma {:induction false} DecodeBigEndian(n: nat)
    requires n <= MAX_FRAME
    ensures Decode(BigEndian(n)) == n
  {
    var h := n / 0x100;
    var g := h / 0x100;
    assert n == h * 0x100 + n % 0x100 && h == g * 0x100 + h % 0x100 && g == g / 0x100 * 0x100 + g % 0x100;
    assert n / 0x1_0000 == g && n / 0x100_0000 == g / 0x100;
  }

  lemma {:induction false} BigEndianDecode(b: seq<byte>)
    requires |b| == 4
    ensures Decode(b) <= MAX_FRAME && BigEndian(Decode(b)) == b
  {
    var n := Decode(b);
    var g := (b[0] as int) * 0x100 + b[1] as int;
    var h := g * 0x100 + b[2] as int;
    assert n == h * 0x100 + b[3] as int;
    assert n / 0x100 == h && h / 0x100 == g && g / 0x100 == b[0] as int;
    assert n / 0x1_0000 == g && n / 0x100_0000 == b[0] as int;
  }

  function Frame(message: seq<byte>): (f: seq<byte>)
    requires |message| <= MAX_FRAME
    ensures |f| == 4 + |message|
  {
    BigEndian(|message|) + message
  }

  predicate Frameable(messages: seq<seq<byte>>) {
    forall m :: m in messages ==> |m| <= MAX_FRAME
  }

  /** The byte stream that carries these messages. */
  function Stream(messages: seq<seq<byte>>): seq<byte>
    requires Frameable(messages)
  {
    if messages == [] then [] else Stream(messages[..|messages| - 1]) + Frame(messages[|messages| - 1])
  }

  lemma {:induction false} StreamFront(messages: seq<seq<byte>>)
    requires Frameable(messages) && messages != []
    ensures Frameable(messages[1..])
    ensures Stream(messages) == Frame(messages[0]) + Stream(messages[1..])
    decreases |messages|
  {
    hide Frame;
    var front, last := messages[..|messages| - 1], messages[|messages| - 1];
    if |messages| == 1 {
      assert front == [] && messages[1..] == [];
      assert Stream(front) == [] && Stream(messages[1..]) == [];
      assert Stream(messages) == [] + Frame(last);
    } else {
      StreamFront(front);
      assert front[0] == messages[0] && messages[1..][..|messages| - 2] == front[1..];
      assert messages[1..][|messages| - 2] == last;
      assert Stream(messages[1..]) == Stream(front[1..]) + Frame(last);
      hide Stream;
      assert Frame(messages[0]) + Stream(front[1..]) + Frame(last)
      == Frame(messages[0]) + (Stream(front[1..]) + Frame(last));
    }
  }

  lemma {:induction false} OneFrame(x: seq<byte>, y: seq<byte>, p: seq<byte>, q: seq<byte>)
    requires |x| <= MAX_FRAME && |y| <= MAX_FRAME && Frame(x) + p == Frame(y) + q
    ensures x == y && p == q
  {
    hide Decode;
    var s := Frame(x) + p;
    assert s[..4] == BigEndian(|x|) && s[..4] == BigEndian(|y|);
    DecodeBigEndian(|x|);
    DecodeBigEndian(|y|);
    assert x == s[4..4 + |x|] && y == s[4..4 + |y|];
    assert p == s[4 + |x|..] && q == s[4 + |y|..];
  }

  /** Framing is unambiguous: when two streams agree as far as the shorter one goes, the shorter
      one's messages are the first messages of the longer one. */
  lemma {:induction false} FramingUnique(a: seq<seq<byte>>, b: seq<seq<byte>>, rest: seq<byte>, tail: seq<byte>)
    requires Frameable(a) && Frameable(b) && |a| <= |b|
    requires Stream(a) + rest == Stream(b) + tail
    ensures a == b[..|a|]
    decreases |a|
  {
    hide Stream, BigEndian;
    if a != [] {
      StreamFront(a);
      StreamFront(b);
      assert Stream(a) + rest == Frame(a[0]) + (Stream(a[1..]) + rest);
      assert Stream(b) + tail == Frame(b[0]) + (Stream(b[1..]) + tail);
      OneFrame(a[0], b[0], Stream(a[1..]) + rest, Stream(b[1..]) + tail);
      FramingUnique(a[1..], b[1..], rest, tail);
      assert a == [a[0]] + a[1..] && b[..|a|] == [b[0]] + b[1..][..|a| - 1];
    }
  }
}
