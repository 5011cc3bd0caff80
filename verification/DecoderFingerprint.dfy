/**
 The byte stream fed to the replay-decoder digest: a versioned domain followed by length-prefixed
 (name, content) frames. The stream determines the inputs.
 */
module DecoderFingerprint {
  import opened Prelude

  type Byte = b: nat | b < 256

  datatype Input = Input(name: seq<Byte>, content: seq<Byte>)

  /** "cutout-replay-decoder-source-v1" and a terminating zero byte. */
  const DOMAIN: seq<Byte> := [
    99, 117, 116, 111, 117, 116, 45, 114, 101, 112, 108, 97, 121, 45, 100, 101,
    99, 111, 100, 101, 114, 45, 115, 111, 117, 114, 99, 101, 45, 118, 49, 0]

  function Power256(k: nat): (p: nat)
    ensures p > 0
  {
    if k == 0 then 1 else 256 * Power256(k - 1)
  }

  /** Big-endian representation in `k` bytes. */
  function BigEndian(n: nat, k: nat): (b: seq<Byte>)
    ensures |b| == k
  {
    if k == 0 then [] else BigEndian(n / 256, k - 1) + [n % 256]
  }

  function FromBigEndian(b: seq<Byte>): nat {
    if b == [] then 0 else 256 * FromBigEndian(b[..|b| - 1]) + b[|b| - 1]
  }

  lemma {:induction false} BigEndianRoundTrip(n: nat, k: nat)
    requires n < Power256(k)
    ensures FromBigEndian(BigEndian(n, k)) == n
  {
    if k > 0 {
      assert n / 256 < Power256(k - 1);
      BigEndianRoundTrip(n / 256, k - 1);
      assert BigEndian(n, k)[..k - 1] == BigEndian(n / 256, k - 1);
    }
  }

  lemma ProductIsMonotone(a: nat, b: nat, d: nat)
    requires a <= b
    ensures a * d <= b * d
  {
    assert b * d == a * d + (b - a) * d;
  }

  lemma QuotientIsUnique(n: nat, d: nat, q: nat, p: nat, r: nat, s: nat)
    requires n == q * d + r && r < d && n == p * d + s && s < d
    ensures q == p
  {
    if p < q {
      ProductIsMonotone(p + 1, q, d);
    } else if q < p {
      ProductIsMonotone(q + 1, p, d);
    }
  }

  lemma Divided(n: nat, d: nat)
    requires d > 0
    ensures n == n / d * d + n % d && n % d < d
  {
  }

  lemma Regrouped(q: nat, m: nat)
    ensures q * (256 * m) == 256 * (q * m)
  {
  }

  lemma DividesTwice(n: nat, high: nat, low: nat, m: nat, q: nat, r: nat)
    requires n == 256 * high + low && low < 256 && high == q * m + r && r < m
    ensures n / (256 * m) == q
  {
    Regrouped(q, m);
    Divided(n, 256 * m);
    QuotientIsUnique(n, 256 * m, q, n / (256 * m), 256 * r + low, n % (256 * m));
  }

  lemma ShiftsByByte(n: nat, j: nat)
    ensures n / 256 / Power256(j) == n / Power256(j + 1)
  {
    var high, m := n / 256, Power256(j);
    Divided(high, m);
    DividesTwice(n, high, n % 256, m, high / m, high % m);
  }

  /** The most significant byte comes first: byte `i` is the digit of weight 256 to the `k - 1 - i`. */
  lemma {:induction false} BigEndianDigit(n: nat, k: nat, i: nat)
    requires i < k
    ensures BigEndian(n, k)[i] == n / Power256(k - 1 - i) % 256
  {
    if i < k - 1 {
      BigEndianDigit(n / 256, k - 1, i);
      ShiftsByByte(n, k - 2 - i);
    }
  }

  lemma WordFits(n: nat)
    requires n <= U64_MAX
    ensures n < Power256(8)
  {
    assert Power256(4) == 0x1_0000_0000;
    assert Power256(6) == 0x1_0000_0000_0000;
    assert Power256(8) == 0x1_0000_0000_0000_0000;
  }

  function Frame(bytes: seq<Byte>): seq<Byte> {
    BigEndian(|bytes|, 8) + bytes
  }

  function Encode(inputs: seq<Input>): seq<Byte> {
    if inputs == [] then []
    else Frame(inputs[0].name) + Frame(inputs[0].content) + Encode(inputs[1..])
  }

  /** Reads one length-prefixed field and returns it with the rest of the stream. */
  function ReadFrame(stream: seq<Byte>): (r: Option<(seq<Byte>, seq<Byte>)>)
    ensures r.Some? ==> |r.value.1| + 8 <= |stream|
  {
    if |stream| < 8 then None
    else
      var length := FromBigEndian(stream[..8]);
      if |stream| < 8 + length then None else Some((stream[8..8 + length], stream[8 + length..]))
  }

  /** Recovers the inputs, or fails on a malformed stream. */
  function Decode(stream: seq<Byte>): Option<seq<Input>>
    decreases |stream|
  {
    if stream == [] then Some([])
    else
      var name := ReadFrame(stream);
      if name.None? then None
      else
        var content := ReadFrame(name.value.1);
        if content.None? then None
        else
          var rest := Decode(content.value.1);
          if rest.None? then None else Some([Input(name.value.0, content.value.0)] + rest.value)
  }

  predicate Encodable(inputs: seq<Input>) {
    forall i | 0 <= i < |inputs| :: |inputs[i].name| <= U64_MAX && |inputs[i].content| <= U64_MAX
  }

  lemma ReadsBackFrame(bytes: seq<Byte>, rest: seq<Byte>)
    requires |bytes| <= U64_MAX
    ensures ReadFrame(Frame(bytes) + rest) == Some((bytes, rest))
  {
    WordFits(|bytes|);
    BigEndianRoundTrip(|bytes|, 8);
    var stream := Frame(bytes) + rest;
    assert stream[..8] == BigEndian(|bytes|, 8);
    assert stream[8..8 + |bytes|] == bytes;
    assert stream[8 + |bytes|..] == rest;
  }

  /** The decoder recovers every list of inputs. */
  lemma {:induction false} DecodeEncode(inputs: seq<Input>)
    requires Encodable(inputs)
    ensures Decode(Encode(inputs)) == Some(inputs)
  {
    if inputs != [] {
      DecodeEncode(inputs[1..]);
      EncodeHead(inputs);
      DecodeHead(inputs[0], Encode(inputs[1..]), inputs[1..]);
      assert inputs == [inputs[0]] + inputs[1..];
    }
  }

  /** One input in front of a stream that decodes. */
  lemma DecodeHead(first: Input, stream: seq<Byte>, rest: seq<Input>)
    requires |first.name| <= U64_MAX && |first.content| <= U64_MAX && Decode(stream) == Some(rest)
    ensures Decode((Frame(first.name) + Frame(first.content)) + stream) == Some([first] + rest)
  {
    ReadsBackFrame(first.content, stream);
    ReadsBackFrame(first.name, Frame(first.content) + stream);
    Associative(Frame(first.name), Frame(first.content), stream);
    assert Frame(first.name) + (Frame(first.content) + stream) != [];
  }

  lemma Associative(a: seq<Byte>, b: seq<Byte>, c: seq<Byte>)
    ensures a + (b + c) == a + b + c
  {
  }

  lemma EncodeHead(inputs: seq<Input>)
    requires inputs != []
    ensures Encode(inputs) == (Frame(inputs[0].name) + Frame(inputs[0].content)) + Encode(inputs[1..])
  {
  }

  lemma {:induction false} EncodeAppend(a: seq<Input>, b: seq<Input>)
    ensures Encode(a + b) == Encode(a) + Encode(b)
  {
    if a == [] {
      assert a + b == b;
    } else {
      EncodeAppend(a[1..], b);
      var field := Frame(a[0].name) + Frame(a[0].content);
      EncodeHead(a + b);
      EncodeHead(a);
      assert (a + b)[0] == a[0] && (a + b)[1..] == a[1..] + b;
      Associative(field, Encode(a[1..]), Encode(b));
    }
  }

  /** The digest input is injective: different lists of inputs never feed the digest the same bytes. */
  lemma DigestInputIsInjective(a: seq<Input>, b: seq<Input>)
    requires Encodable(a) && Encodable(b)
    ensures DOMAIN + Encode(a) == DOMAIN + Encode(b) <==> a == b
  {
    if DOMAIN + Encode(a) == DOMAIN + Encode(b) {
      assert Encode(a) == (DOMAIN + Encode(a))[|DOMAIN|..];
      assert Encode(b) == (DOMAIN + Encode(b))[|DOMAIN|..];
      DecodeEncode(a);
      DecodeEncode(b);
    }
  }

  /** A stream that extends another by whole frames has the inputs of the other as its prefix. */
  lemma ExtensionAddsInputs(a: seq<Input>, b: seq<Input>, tail: seq<Input>)
    requires Encodable(a) && Encodable(b) && Encodable(tail)
    requires Encode(b) == Encode(a) + Encode(tail)
    ensures b == a + tail
  {
    EncodeAppend(a, tail);
    DecodeEncode(b);
    DecodeEncode(a + tail);
  }

  /** The running digest, as the bytes it has absorbed. */
  class Digest {
    var absorbed: seq<Byte>

    constructor ()
      ensures absorbed == []
    {
      absorbed := [];
    }

    method Update(bytes: seq<Byte>)
      modifies this
      ensures absorbed == old(absorbed) + bytes
    {
      absorbed := absorbed + bytes;
    }
  }

  lemma EncodeOne(before: seq<Input>, next: Input)
    ensures Encode(before + [next]) == Encode(before) + Frame(next.name) + Frame(next.content)
  {
    EncodeAppend(before, [next]);
    var field := Frame(next.name) + Frame(next.content);
    assert Encode([next]) == field + [] == field;
    Associative(Encode(before), Frame(next.name), Frame(next.content));
  }

  /** Absorbs one length and the bytes it counts. */
  method FeedField(digest: Digest, bytes: seq<Byte>)
    modifies digest
    ensures digest.absorbed == old(digest.absorbed) + Frame(bytes)
  {
    digest.Update(BigEndian(|bytes|, 8));
    digest.Update(bytes);
  }

  /** The framing loop. `workspace` gives each input's bytes; `names` is the sorted input set. */
  method FeedDigest(names: seq<seq<Byte>>, workspace: map<seq<Byte>, seq<Byte>>) returns (digest: Digest)
    requires forall i | 0 <= i < |names| :: names[i] in workspace
    requires forall n | n in workspace :: |n| <= U64_MAX && |workspace[n]| <= U64_MAX
    ensures fresh(digest)
    ensures digest.absorbed == DOMAIN + Encode(Inputs(names, workspace))
  {
    digest := new Digest();
    digest.Update(DOMAIN);
    for i := 0 to |names|
      invariant fresh(digest)
      invariant digest.absorbed == DOMAIN + Encode(Inputs(names[..i], workspace))
    {
      var bytes := workspace[names[i]];
      ghost var before := Inputs(names[..i], workspace);
      FeedField(digest, names[i]);
      FeedField(digest, bytes);
      ghost var next := Input(names[i], bytes);
      assert Inputs(names[..i + 1], workspace) == before + [next];
      EncodeOne(before, next);
      Associative(DOMAIN, Encode(before), Frame(names[i]));
      Associative(DOMAIN, Encode(before) + Frame(names[i]), Frame(bytes));
    }
    assert names[..|names|] == names;
  }

  function Inputs(names: seq<seq<Byte>>, workspace: map<seq<Byte>, seq<Byte>>): (inputs: seq<Input>)
    requires forall i | 0 <= i < |names| :: names[i] in workspace
  {
    seq(|names|, i requires 0 <= i < |names| => Input(names[i], workspace[names[i]]))
  }

  /** Two workspaces give the same digest input exactly when they have the same inputs with the same content. */
  lemma WorkspacesAreDistinguished(
      names: seq<seq<Byte>>, workspace: map<seq<Byte>, seq<Byte>>,
      names': seq<seq<Byte>>, workspace': map<seq<Byte>, seq<Byte>>)
    requires forall i | 0 <= i < |names| :: names[i] in workspace
    requires forall i | 0 <= i < |names'| :: names'[i] in workspace'
    requires Encodable(Inputs(names, workspace)) && Encodable(Inputs(names', workspace'))
    ensures DOMAIN + Encode(Inputs(names, workspace)) == DOMAIN + Encode(Inputs(names', workspace'))
       <==> names == names' && forall i | 0 <= i < |names| :: workspace[names[i]] == workspace'[names[i]]
  {
    var a, b := Inputs(names, workspace), Inputs(names', workspace');
    if names == names' && forall i | 0 <= i < |names| :: workspace[names[i]] == workspace'[names[i]] {
      assert a == b;
    }
    DigestInputIsInjective(a, b);
    if a == b {
      assert |names| == |names'|;
      forall i | 0 <= i < |names|
        ensures names[i] == names'[i] && workspace[names[i]] == workspace'[names[i]]
      {
        assert a[i] == b[i];
      }
    }
  }
}
