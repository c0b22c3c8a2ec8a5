/** A CIDR prefix is an octet pattern: some fixed octets, at most one aligned range, then
    wildcards. This connects the two matchers of the mask language. */
module CidrRules {

  import opened Wrappers
  import opened Text
  import opened Mask

  /** How many of the eight bits of byte i a prefix of the given length fixes. */
  function FixedBits(bits: nat, i: nat): (k: nat)
    ensures k <= 8
  {
    if bits <= 8 * i then 0 else if bits >= 8 * i + 8 then 8 else bits - 8 * i
  }

  /** All bytes that share the first k bits with b. */
  function ByteRule(b: Byte, k: nat): (r: OctetRule)
    requires k <= 8
    ensures WellFormed(r)
  {
    if k == 0 then OctetRule(true, 0, 0)
    else
      ByteBits(b, 8 - k);
      OctetRule(false, TopBits(b, 8 - k) * Pow2(8 - k), TopBits(b, 8 - k) * Pow2(8 - k) + Pow2(8 - k) - 1)
  }

  function RulesFor(net: seq<Byte>, bits: nat): (rs: seq<OctetRule>)
    ensures |rs| == |net|
    ensures forall i :: 0 <= i < |net| ==> rs[i] == ByteRule(net[i], FixedBits(bits, i))
  {
    seq(|net|, i requires 0 <= i < |net| => ByteRule(net[i], FixedBits(bits, i)))
  }

  lemma {:induction false} TopBitsTwice(x: nat, a: nat, b: nat)
    ensures TopBits(x, a + b) == TopBits(TopBits(x, a), b)
  {
    if a > 0 {
      TopBitsTwice(x / 2, a - 1, b);
    }
  }

  lemma Doubled(t: nat, p: nat)
    ensures t * (2 * p) == 2 * (t * p)
  {
  }

  /** Dropping s of the low w bits keeps everything above those w bits apart. */
  lemma {:induction false} KeepHigh(high: nat, low: nat, w: nat, s: nat)
    requires s <= w && low < Pow2(w)
    ensures TopBits(high * Pow2(w) + low, s) == high * Pow2(w - s) + TopBits(low, s)
    ensures TopBits(low, s) < Pow2(w - s)
  {
    if s > 0 {
      var q := high * Pow2(w - 1);
      Doubled(high, Pow2(w - 1));
      assert (2 * q + low) / 2 == q + low / 2;
      KeepHigh(high, low / 2, w - 1, s - 1);
    }
  }

  /** A number lies in the aligned block that its remaining bits name. */
  lemma {:induction false} InBlock(x: nat, s: nat)
    ensures TopBits(x, s) * Pow2(s) <= x < TopBits(x, s) * Pow2(s) + Pow2(s)
  {
    if s > 0 {
      InBlock(x / 2, s - 1);
      Doubled(TopBits(x, s), Pow2(s - 1));
    }
  }

  lemma ByteBits(b: Byte, s: nat)
    requires s < 8
    ensures TopBits(b, s) * Pow2(s) <= b < TopBits(b, s) * Pow2(s) + Pow2(s) <= 256
  {
    InBlock(b, s);
    Pow2Eight(s);
    KeepHigh(0, b, 8, s);
    Blocks(TopBits(b, s), Pow2(8 - s), Pow2(s));
  }

  lemma {:induction false} Pow2Eight(s: nat)
    requires s <= 8
    ensures Pow2(8) == 256 && Pow2(8 - s) * Pow2(s) == 256
  {
    if s == 0 {
      assert Pow2(4) == 16;
    } else {
      Pow2Eight(s - 1);
      Doubled(Pow2(8 - s), Pow2(s - 1));
    }
  }

  /** Blocks of one size do not overlap. */
  lemma Blocks(t: nat, u: nat, size: nat)
    requires t < u
    ensures t * size + size <= u * size
  {
    var more := u - t - 1;
    assert more * size >= 0;
    assert u * size == (t + 1 + more) * size == t * size + size + more * size;
  }

  /** Two bytes share their first 8 - s bits exactly when the second lies in the aligned
      block of the first. */
  lemma SameBlock(b: Byte, x: Byte, s: nat)
    requires s < 8
    ensures TopBits(x, s) == TopBits(b, s) <==> RuleHolds(ByteRule(b, 8 - s), x)
  {
    var t, u := TopBits(b, s), TopBits(x, s);
    InBlock(x, s);
    if u < t {
      Blocks(u, t, Pow2(s));
    } else if t < u {
      Blocks(t, u, Pow2(s));
    }
  }

  /** Dropping at least the last byte forgets it. */
  lemma DropByte(high: nat, low: Byte, s: nat)
    requires s >= 8
    ensures TopBits(high * 256 + low, s) == TopBits(high, s - 8)
  {
    Pow2Eight(8);
    KeepHigh(high, low, 8, 8);
    TopBitsTwice(high * 256 + low, 8, s - 8);
  }

  /** Dropping s < 8 bits keeps the whole bytes and the top of the last one apart. */
  lemma SplitByte(h1: nat, l1: Byte, h2: nat, l2: Byte, s: nat)
    requires s < 8
    ensures TopBits(h1 * 256 + l1, s) == TopBits(h2 * 256 + l2, s) <==>
            h1 == h2 && TopBits(l1, s) == TopBits(l2, s)
  {
    Pow2Eight(s);
    KeepHigh(h1, l1, 8, s);
    KeepHigh(h2, l2, 8, s);
    if h1 < h2 {
      Blocks(h1, h2, Pow2(8 - s));
    } else if h2 < h1 {
      Blocks(h2, h1, Pow2(8 - s));
    }
  }

  ghost predicate AllHold(rules: seq<OctetRule>, bytes: seq<Byte>)
    requires |rules| == |bytes|
  {
    forall i :: 0 <= i < |bytes| ==> RuleHolds(rules[i], bytes[i])
  }

  lemma NoRules(rules: seq<OctetRule>, bytes: seq<Byte>)
    requires rules == [] && bytes == []
    ensures AllHold(rules, bytes)
  {
  }

  lemma LastRule(rules: seq<OctetRule>, bytes: seq<Byte>)
    requires |rules| == |bytes| > 0
    ensures var n := |bytes| - 1;
      AllHold(rules, bytes) <==> AllHold(rules[..n], bytes[..n]) && RuleHolds(rules[n], bytes[n])
  {
    var n := |bytes| - 1;
    assert forall i :: 0 <= i < n ==> rules[..n][i] == rules[i] && bytes[..n][i] == bytes[i];
  }

  /** The earlier bytes keep their rules when the last one is dropped. */
  lemma RulesForFront(net: seq<Byte>, bits: nat, front: nat)
    requires net != [] && bits <= 8 * |net|
    requires front == if bits <= 8 * (|net| - 1) then bits else 8 * (|net| - 1)
    ensures RulesFor(net, bits)[..|net| - 1] == RulesFor(net[..|net| - 1], front)
    ensures RulesFor(net, bits)[|net| - 1] ==
            ByteRule(net[|net| - 1], if bits <= 8 * (|net| - 1) then 0 else bits - 8 * (|net| - 1))
  {
    var n := |net| - 1;
    forall i | 0 <= i < n
      ensures RulesFor(net, bits)[i] == RulesFor(net[..n], front)[i]
    {
      assert FixedBits(bits, i) == FixedBits(front, i);
    }
  }

  lemma NothingDropped(x: nat, b: Byte, y: Byte)
    ensures TopBits(x, 0) == x && RuleHolds(ByteRule(b, 0), y)
  {
  }

  lemma {:induction false} BitsAreRules(net: seq<Byte>, x: seq<Byte>, bits: nat)
    requires |net| == |x| && bits <= 8 * |net|
    ensures TopBits(Number(x), 8 * |net| - bits) == TopBits(Number(net), 8 * |net| - bits) <==>
            AllHold(RulesFor(net, bits), x)
  {
    hide TopBits, RulesFor, FixedBits, AllHold, ByteRule, RuleHolds;
    if net == [] {
      NoRules(RulesFor(net, bits), x);
    } else {
      var n := |net| - 1;
      var s := 8 * |net| - bits;
      var front := if s >= 8 then bits else 8 * n;
      var h1, h2 := Number(net[..n]), Number(x[..n]);
      LastRule(RulesFor(net, bits), x);
      RulesForFront(net, bits, front);
      BitsAreRules(net[..n], x[..n], front);
      LastByte(h1, net[n], h2, x[n], s);
      NothingDropped(h1, net[n], x[n]);
      NothingDropped(h2, net[n], x[n]);
      assert 8 * n - front == if s >= 8 then s - 8 else 0;
    }
  }

  /** The last byte either is dropped whole, or has its own rule. */
  lemma LastByte(h1: nat, l1: Byte, h2: nat, l2: Byte, s: nat)
    ensures s >= 8 ==> (TopBits(h2 * 256 + l2, s) == TopBits(h1 * 256 + l1, s) <==>
              TopBits(h2, s - 8) == TopBits(h1, s - 8))
    ensures s < 8 ==> (TopBits(h2 * 256 + l2, s) == TopBits(h1 * 256 + l1, s) <==>
              h2 == h1 && RuleHolds(ByteRule(l1, 8 - s), l2))
  {
    if s >= 8 {
      DropByte(h1, l1, s);
      DropByte(h2, l2, s);
    } else {
      SplitByte(h1, l1, h2, l2, s);
      SameBlock(l1, l2, s);
    }
  }

  /** For every network (host bits set or not), every prefix length and every address of
      either family: prefix membership is what the octet matcher says of the derived rules. */
  lemma CidrIsOctetPattern(net: Quad, bits: nat, a: Addr)
    requires bits <= 32
    ensures Contains(Prefix4(net, bits), a) <==> OctetsAccept(RulesFor(net, bits), a)
  {
    if a.V4? {
      BitsAreRules(net, a.bytes, bits);
    }
  }

  /** So every IPv4 CIDR mask can be rewritten as a printed octet pattern that the parser
      accepts and that matches the same addresses. */
  lemma CidrAsText(read: PrefixReader, net: Quad, bits: nat, a: Addr)
    requires bits <= 32
    ensures MaskOf(read, Print(RulesFor(net, bits))) == Ok(Octets(RulesFor(net, bits)))
    ensures Accepts(Cidr(Prefix4(net, bits)), a) <==> Accepts(MaskOf(read, Print(RulesFor(net, bits))).value, a)
  {
    var rules := RulesFor(net, bits);
    ParsePrint(read, rules, "", "");
    assert "" + Print(rules) + "" == Print(rules);
    CidrIsOctetPattern(net, bits, a);
  }

  /** Text that is read as an IPv4 prefix matches what the octet pattern of that prefix matches. */
  lemma CidrTextIsPattern(read: PrefixReader, text: string, net: Quad, bits: nat, a: Addr)
    requires '/' in TrimSpace(text) && bits <= 32 && read(TrimSpace(text)) == Some(Prefix4(net, bits))
    ensures MaskOf(read, text).Ok?
    ensures Accepts(MaskOf(read, text).value, a) <==> OctetsAccept(RulesFor(net, bits), a)
  {
    hide TrimSpace, OctetsAccept, RulesFor;
    CidrExactly(read, text, a);
    CidrIsOctetPattern(net, bits, a);
  }
}
