/** The mask language: CIDR prefixes and four-octet patterns such as 95.142.0-50.*,
    their parser, their matchers and a canonical printer. */
module Mask {

  import opened Wrappers
  import opened Decimal
  import opened Text

  type Byte = b: int | 0 <= b < 256
  type Quad = q: seq<Byte> | |q| == 4 witness [0, 0, 0, 0]

  /** An address: four bytes, or anything that is not plain IPv4 (an IPv6 value, which
      includes the IPv4-mapped form, with or without a zone). */
  datatype Addr = V4(bytes: Quad) | V6(value: nat, zoned: bool)

  datatype Prefix =
    | Prefix4(net4: Quad, bits4: nat)
    | Prefix6(net6: nat, bits6: nat)
  {
    predicate Valid() {
      match this
      case Prefix4(_, bits) => bits <= 32
      case Prefix6(_, bits) => bits <= 128
    }
  }

  type ValidPrefix = p: Prefix | p.Valid() witness Prefix4([0, 0, 0, 0], 0)

  /** The reader of CIDR text, which belongs to the standard library and not to the bot. */
  type PrefixReader = string -> Option<ValidPrefix>

  datatype OctetRule = OctetRule(any: bool, lo: Byte, hi: Byte)

  type Rules = rs: seq<OctetRule> | |rs| == 4
    witness [OctetRule(true, 0, 0), OctetRule(true, 0, 0), OctetRule(true, 0, 0), OctetRule(true, 0, 0)]

  datatype Matcher =
    | Cidr(p: ValidPrefix)
    | Octets(rules: Rules)
    | AnyOf(ms: seq<Matcher>)

  datatype MaskError = EmptyMask | BadPrefix | NotFourOctets | BadRange | BadOctet | NoMasks

  // ---- matching ----

  /** A number without its last `drop` bits. */
  function TopBits(x: nat, drop: nat): nat {
    if drop == 0 then x else TopBits(x / 2, drop - 1)
  }

  /** The big-endian number written by some bytes. */
  function Number(bytes: seq<Byte>): nat {
    if bytes == [] then 0 else Number(bytes[..|bytes| - 1]) * 256 + bytes[|bytes| - 1]
  }

  /** Prefix membership as section 3.1 of RFC 4632 has it: the leading bits agree. An
      address of the other family, or one with a zone, is never inside. */
  predicate Contains(p: ValidPrefix, a: Addr) {
    match (p, a)
    case (Prefix4(net, bits), V4(bytes)) =>
      TopBits(Number(bytes), 32 - bits) == TopBits(Number(net), 32 - bits)
    case (Prefix6(net, bits), V6(value, zoned)) =>
      !zoned && TopBits(value, 128 - bits) == TopBits(net, 128 - bits)
    case _ => false
  }

  predicate RuleHolds(r: OctetRule, b: Byte) {
    r.any || r.lo <= b <= r.hi
  }

  predicate OctetsAccept(rules: Rules, a: Addr) {
    a.V4? && forall i :: 0 <= i < 4 ==> RuleHolds(rules[i], a.bytes[i])
  }

  /** What a matcher means, for every address. */
  predicate Accepts(m: Matcher, a: Addr) {
    match m
    case Cidr(p) => Contains(p, a)
    case Octets(rules) => OctetsAccept(rules, a)
    case AnyOf(ms) => exists i :: 0 <= i < |ms| && Accepts(ms[i], a)
  }

  method MatchOctets(rules: Rules, a: Addr) returns (matched: bool)
    ensures matched == Accepts(Octets(rules), a)
  {
    if !a.V4? {
      return false;
    }
    var b := a.bytes;
    for i := 0 to 4
      invariant forall j :: 0 <= j < i ==> RuleHolds(rules[j], b[j])
    {
      var r := rules[i];
      if r.any {
        continue;
      }
      if b[i] < r.lo || b[i] > r.hi {
        return false;
      }
    }
    return true;
  }

  method Match(m: Matcher, a: Addr) returns (matched: bool)
    ensures matched == Accepts(m, a)
    decreases m
  {
    match m
    case Cidr(p) =>
      matched := Contains(p, a);
    case Octets(rules) =>
      matched := MatchOctets(rules, a);
    case AnyOf(ms) =>
      for i := 0 to |ms|
        invariant forall j :: 0 <= j < i ==> !Accepts(ms[j], a)
      {
        var one := Match(ms[i], a);
        if one {
          return true;
        }
      }
      return false;
  }

  // ---- parsing ----

  /** Go's conversion to uint8 keeps the low eight bits. */
  function Uint8(n: int): Byte {
    n % 256
  }

  function RangeRule(lo: Option<int>, hi: Option<int>): Result<OctetRule, MaskError> {
    if lo.None? || hi.None? || lo.value < 0 || hi.value > 255 || lo.value > hi.value then Err(BadRange)
    else Ok(OctetRule(false, Uint8(lo.value), Uint8(hi.value)))
  }

  function NumberRule(v: Option<int>): Result<OctetRule, MaskError> {
    if v.None? || v.value < 0 || v.value > 255 then Err(BadOctet)
    else Ok(OctetRule(false, Uint8(v.value), Uint8(v.value)))
  }

  function OctetOf(p: string): Result<OctetRule, MaskError> {
    if p == "*" || p == "x" || p == "X" then Ok(OctetRule(true, 0, 0))
    else match Cut(p, '-')
      case Some((lo, hi)) => RangeRule(Atoi(lo), Atoi(hi))
      case None => NumberRule(Atoi(p))
  }

  /** The rules of a list of parts, or the error of the first bad one. */
  function RulesOf(parts: seq<string>): (r: Result<seq<OctetRule>, MaskError>)
    ensures r.Ok? ==> |r.value| == |parts|
  {
    if parts == [] then Ok([]) else
      match RulesOf(parts[..|parts| - 1])
      case Err(e) => Err(e)
      case Ok(rules) =>
        match OctetOf(parts[|parts| - 1])
        case Err(e) => Err(e)
        case Ok(rule) => Ok(rules + [rule])
  }

  function MaskOf(read: PrefixReader, text: string): Result<Matcher, MaskError> {
    var s := TrimSpace(text);
    if s == "" then Err(EmptyMask)
    else if '/' in s then
      match read(s)
      case Some(p) => Ok(Cidr(p))
      case None => Err(BadPrefix)
    else
      var parts := Split(s, '.');
      if |parts| != 4 then Err(NotFourOctets)
      else match RulesOf(parts)
        case Ok(rules) => Ok(Octets(rules))
        case Err(e) => Err(e)
  }

  lemma {:induction false} RulesOfStops(parts: seq<string>, i: nat)
    requires i < |parts|
    ensures RulesOf(parts[..i]).Err? ==> RulesOf(parts) == RulesOf(parts[..i])
    ensures RulesOf(parts[..i]).Ok? && OctetOf(parts[i]).Err? ==> RulesOf(parts) == Err(OctetOf(parts[i]).error)
  {
    var front := parts[..|parts| - 1];
    if i < |parts| - 1 {
      assert front[..i] == parts[..i];
      RulesOfStops(front, i);
    }
  }

  /** Four parts make a pattern exactly when each is an octet; otherwise the error is that of
      the first part that is not. */
  lemma {:induction false} RulesExactly(parts: seq<string>)
    ensures RulesOf(parts).Ok? <==> forall i :: 0 <= i < |parts| ==> OctetOf(parts[i]).Ok?
    ensures RulesOf(parts).Err? ==>
              exists i :: 0 <= i < |parts| && OctetOf(parts[i]) == Err(RulesOf(parts).error)
                          && (forall j :: 0 <= j < i ==> OctetOf(parts[j]).Ok?)
  {
    hide OctetOf;
    if parts != [] {
      var n := |parts| - 1;
      RulesExactly(parts[..n]);
      if RulesOf(parts[..n]).Err? {
        var i :| 0 <= i < n && OctetOf(parts[..n][i]) == Err(RulesOf(parts[..n]).error)
                 && (forall j :: 0 <= j < i ==> OctetOf(parts[..n][j]).Ok?);
        assert OctetOf(parts[i]) == Err(RulesOf(parts).error);
        assert forall j :: 0 <= j < i ==> OctetOf(parts[..n][j]) == OctetOf(parts[j]);
      } else {
        assert forall j :: 0 <= j < n ==> OctetOf(parts[..n][j]) == OctetOf(parts[j]);
      }
    }
  }

  method ParseMask(read: PrefixReader, text: string) returns (r: Result<Matcher, MaskError>)
    ensures r == MaskOf(read, text)
  {
    hide OctetOf, TrimSpace, Split;
    var s := TrimSpace(text);
    if s == "" {
      return Err(EmptyMask);
    }
    if '/' in s {
      var p := read(s);
      if p.None? {
        return Err(BadPrefix);
      }
      return Ok(Cidr(p.value));
    }
    var parts := Split(s, '.');
    if |parts| != 4 {
      return Err(NotFourOctets);
    }
    var zero := OctetRule(false, 0, 0);
    var octets: Rules := [zero, zero, zero, zero];
    for i := 0 to 4
      invariant RulesOf(parts[..i]) == Ok(octets[..i])
    {
      var rule := OctetOf(parts[i]);
      RulesOfStops(parts, i);
      if rule.Err? {
        return Err(rule.error);
      }
      assert parts[..i + 1][..i] == parts[..i] && octets[i := rule.value][..i + 1] == octets[..i] + [rule.value];
      octets := octets[i := rule.value];
    }
    assert parts[..4] == parts && octets[..4] == octets;
    return Ok(Octets(octets));
  }

  /** A list of masks is accepted exactly when it is not empty and each mask is, and
      then an address is accepted exactly when one of the masks accepts it. Otherwise the
      error is that of the first bad mask. */
  method ParseMasks(read: PrefixReader, masks: seq<string>) returns (r: Result<Matcher, MaskError>)
    ensures r.Ok? <==> masks != [] && forall i :: 0 <= i < |masks| ==> MaskOf(read, masks[i]).Ok?
    ensures r.Ok? ==> forall a :: Accepts(r.value, a) <==>
      exists i :: 0 <= i < |masks| && Accepts(MaskOf(read, masks[i]).value, a)
    ensures r.Ok? && |masks| == 1 ==> r == MaskOf(read, masks[0])
    ensures masks == [] ==> r == Err(NoMasks)
    ensures r.Err? && masks != [] ==>
              exists i :: 0 <= i < |masks| && MaskOf(read, masks[i]) == Err(r.error)
                          && (forall j :: 0 <= j < i ==> MaskOf(read, masks[j]).Ok?)
  {
    hide MaskOf;
    if |masks| == 0 {
      return Err(NoMasks);
    }
    var ms: seq<Matcher> := [];
    for k := 0 to |masks|
      invariant |ms| == k
      invariant forall i :: 0 <= i < k ==> MaskOf(read, masks[i]) == Ok(ms[i])
    {
      var m := ParseMask(read, masks[k]);
      if m.Err? {
        assert MaskOf(read, masks[k]).Err?;
        return Err(m.error);
      }
      ms := ms + [m.value];
    }
    if |ms| == 1 {
      return Ok(ms[0]);
    }
    return Ok(AnyOf(ms));
  }

  // ---- what an accepted octet pattern says ----

  predicate WellFormed(r: OctetRule) {
    if r.any then r.lo == r.hi == 0 else r.lo <= r.hi
  }

  /** An accepted octet is a wildcard, or a number or range whose bounds are the very
      numbers written: they are ordered and in range, so the uint8 casts lose nothing. */
  lemma OctetMeaning(p: string)
    requires OctetOf(p).Ok?
    ensures WellFormed(OctetOf(p).value)
    ensures OctetOf(p).value.any <==> p == "*" || p == "x" || p == "X"
    ensures var r := OctetOf(p).value; !r.any ==>
      match Cut(p, '-')
      case Some((lo, hi)) => Atoi(lo) == Some(r.lo as int) && Atoi(hi) == Some(r.hi as int)
      case None => Atoi(p) == Some(r.lo as int) && r.hi == r.lo
  {
    hide Atoi, Cut;
  }

  lemma {:induction false} RulesMeaning(parts: seq<string>)
    requires RulesOf(parts).Ok?
    ensures forall i :: 0 <= i < |parts| ==> OctetOf(parts[i]) == Ok(RulesOf(parts).value[i])
    ensures forall r :: r in RulesOf(parts).value ==> WellFormed(r)
  {
    if parts != [] {
      RulesMeaning(parts[..|parts| - 1]);
      OctetMeaning(parts[|parts| - 1]);
    }
  }

  /** Every octet pattern the parser accepts has ordered bounds. */
  lemma AcceptedIsWellFormed(read: PrefixReader, text: string)
    requires MaskOf(read, text).Ok? && MaskOf(read, text).value.Octets?
    ensures forall i :: 0 <= i < 4 ==> WellFormed(MaskOf(read, text).value.rules[i])
  {
    RulesMeaning(Split(TrimSpace(text), '.'));
  }

  // ---- printing ----

  function PrintOctet(r: OctetRule): string {
    if r.any then "*"
    else if r.lo == r.hi then Itoa(r.lo)
    else Itoa(r.lo) + "-" + Itoa(r.hi)
  }

  function PrintParts(rules: seq<OctetRule>): (parts: seq<string>)
    ensures |parts| == |rules|
    ensures forall i :: 0 <= i < |rules| ==> parts[i] == PrintOctet(rules[i])
  {
    if rules == [] then []
    else PrintParts(rules[..|rules| - 1]) + [PrintOctet(rules[|rules| - 1])]
  }

  function Print(rules: Rules): string {
    Join(PrintParts(rules), ".")
  }

  lemma PrintedNumber(n: Byte)
    ensures Atoi(Itoa(n)) == Some(n as int)
    ensures Itoa(n) != "" && forall c :: c in Itoa(n) ==> IsDigit(c)
  {
    AtoiItoa(n);
    ItoaSign(n);
    forall c | c in Itoa(n) ensures IsDigit(c) {
      ItoaChars(n, c);
    }
  }

  predicate MaskChar(c: char) {
    IsDigit(c) || c == '*' || c == '-'
  }

  lemma PrintedOctetChars(r: OctetRule)
    ensures PrintOctet(r) != "" && forall c :: c in PrintOctet(r) ==> MaskChar(c)
    ensures !r.any ==> IsDigit(PrintOctet(r)[0])
  {
    PrintedNumber(r.lo);
    PrintedNumber(r.hi);
    if !r.any {
      assert PrintOctet(r)[0] == Itoa(r.lo)[0];
    }
  }

  lemma NumberText(p: string, n: Byte)
    requires p != "" && IsDigit(p[0]) && '-' !in p && Atoi(p) == Some(n as int)
    ensures OctetOf(p) == Ok(OctetRule(false, n, n))
  {
    IndexOfAbsent(p, '-');
  }

  lemma RangeText(p: string, q: string, lo: Byte, hi: Byte)
    requires p != "" && IsDigit(p[0]) && '-' !in p && Atoi(p) == Some(lo as int) && Atoi(q) == Some(hi as int)
    requires lo <= hi
    ensures OctetOf(p + "-" + q) == Ok(OctetRule(false, lo, hi))
  {
    hide Atoi, IndexOf;
    var s := p + ['-'] + q;
    IndexOfAt(p, '-', q);
    assert s[..|p|] == p && s[|p| + 1..] == q;
    assert IsDigit(s[0]);
  }

  lemma OctetRoundTrip(r: OctetRule)
    requires WellFormed(r)
    ensures OctetOf(PrintOctet(r)) == Ok(r)
  {
    if !r.any {
      PrintedNumber(r.lo);
      PrintedNumber(r.hi);
      if r.lo == r.hi {
        NumberText(Itoa(r.lo), r.lo);
      } else {
        RangeText(Itoa(r.lo), Itoa(r.hi), r.lo, r.hi);
      }
    }
  }

  lemma {:induction false} RulesOfAll(parts: seq<string>, rules: seq<OctetRule>)
    requires |parts| == |rules|
    requires forall i :: 0 <= i < |parts| ==> OctetOf(parts[i]) == Ok(rules[i])
    ensures RulesOf(parts) == Ok(rules)
  {
    if parts != [] {
      var n := |parts| - 1;
      RulesOfAll(parts[..n], rules[..n]);
      assert rules[..n] + [rules[n]] == rules;
    }
  }

  lemma RulesRoundTrip(rules: Rules)
    requires forall i :: 0 <= i < 4 ==> WellFormed(rules[i])
    ensures RulesOf(PrintParts(rules)) == Ok(rules)
  {
    forall i | 0 <= i < 4 ensures OctetOf(PrintParts(rules)[i]) == Ok(rules[i]) {
      OctetRoundTrip(rules[i]);
    }
    RulesOfAll(PrintParts(rules), rules);
  }

  lemma {:induction false} JoinedChars(parts: seq<string>, c: char)
    requires c in Join(parts, ".")
    ensures c == '.' || exists i :: 0 <= i < |parts| && c in parts[i]
  {
    if |parts| > 1 && c !in parts[0] && c != '.' {
      assert c in Join(parts[1..], ".");
      JoinedChars(parts[1..], c);
      var i :| 0 <= i < |parts[1..]| && c in parts[1..][i];
      assert c in parts[i + 1];
    }
  }

  lemma PrintedChars(rules: Rules)
    ensures Print(rules) != ""
    ensures forall c :: c in Print(rules) ==> MaskChar(c) || c == '.'
    ensures forall p :: p in PrintParts(rules) ==> '.' !in p
  {
    forall i | 0 <= i < 4
      ensures forall c :: c in PrintParts(rules)[i] ==> MaskChar(c)
    {
      PrintedOctetChars(rules[i]);
    }
    forall c | c in Print(rules) ensures MaskChar(c) || c == '.' {
      JoinedChars(PrintParts(rules), c);
    }
    PrintedOctetChars(rules[0]);
  }

  /** Parsing inverts printing, whatever blank text surrounds the mask. */
  lemma ParsePrint(read: PrefixReader, rules: Rules, before: string, after: string)
    requires forall i :: 0 <= i < 4 ==> WellFormed(rules[i])
    requires Blank(before) && Blank(after)
    ensures MaskOf(read, before + Print(rules) + after) == Ok(Octets(rules))
  {
    var s := Print(rules);
    PrintedChars(rules);
    assert s[0] in s && s[|s| - 1] in s;
    TrimSpacePad(before, s, after);
    assert '/' !in s;
    SplitJoin(PrintParts(rules), '.');
    RulesRoundTrip(rules);
  }

  /** Printing an accepted octet pattern and reading it again changes nothing, so the
      printed form is a normal form of the mask. */
  lemma PrintIsNormalForm(read: PrefixReader, text: string)
    requires MaskOf(read, text).Ok? && MaskOf(read, text).value.Octets?
    ensures MaskOf(read, Print(MaskOf(read, text).value.rules)) == MaskOf(read, text)
  {
    hide Print, PrintParts;
    AcceptedIsWellFormed(read, text);
    var s := Print(MaskOf(read, text).value.rules);
    ParsePrint(read, MaskOf(read, text).value.rules, "", "");
    assert "" + s + "" == s;
  }

  function ExactRules(q: Quad): Rules {
    [OctetRule(false, q[0], q[0]), OctetRule(false, q[1], q[1]),
     OctetRule(false, q[2], q[2]), OctetRule(false, q[3], q[3])]
  }

  /** The dotted decimal form of an IPv4 address. */
  function Dotted(q: Quad): string {
    Join([Itoa(q[0]), Itoa(q[1]), Itoa(q[2]), Itoa(q[3])], ".")
  }

  lemma ExactRulesAccept(q: Quad, a: Addr)
    ensures OctetsAccept(ExactRules(q), a) <==> a == V4(q)
  {
    if OctetsAccept(ExactRules(q), a) {
      forall i | 0 <= i < 4 ensures a.bytes[i] == q[i] {
        assert RuleHolds(ExactRules(q)[i], a.bytes[i]);
      }
    }
  }

  lemma ExactRulesPrint(q: Quad)
    ensures Print(ExactRules(q)) == Dotted(q)
  {
    assert PrintParts(ExactRules(q)) == [Itoa(q[0]), Itoa(q[1]), Itoa(q[2]), Itoa(q[3])];
  }

  /** A plain IPv4 address is a mask that accepts exactly that address. */
  lemma DottedMatchesItself(read: PrefixReader, q: Quad, a: Addr)
    ensures MaskOf(read, Dotted(q)).Ok?
    ensures Accepts(MaskOf(read, Dotted(q)).value, a) <==> a == V4(q)
  {
    hide MaskOf, Print, Dotted, OctetsAccept;
    ExactRulesPrint(q);
    ParsePrint(read, ExactRules(q), "", "");
    assert "" + Dotted(q) + "" == Dotted(q);
    ExactRulesAccept(q, a);
  }

  // ---- what is accepted, text by text ----

  lemma WildcardExactly()
    ensures forall p :: p == "*" || p == "x" || p == "X" ==> OctetOf(p) == Ok(OctetRule(true, 0, 0))
  {
  }

  /** A range is two numbers around the first dash, both bytes and in order. */
  lemma RangeExactly(a: string, b: string)
    requires '-' !in a
    ensures var lo, hi := Atoi(a), Atoi(b);
      OctetOf(a + "-" + b) ==
        if lo.Some? && hi.Some? && 0 <= lo.value <= hi.value <= 255 then Ok(OctetRule(false, lo.value, hi.value)) else Err(BadRange)
  {
    hide Atoi, Cut;
    var p := a + ['-'] + b;
    CutExactly(a, '-', b);
    assert p[|a|] == '-';
  }

  /** Any other octet is one number, a byte. */
  lemma NumberExactly(p: string)
    requires '-' !in p && p != "*" && p != "x" && p != "X"
    ensures OctetOf(p) ==
      if Atoi(p).Some? && 0 <= Atoi(p).value <= 255 then Ok(OctetRule(false, Atoi(p).value, Atoi(p).value)) else Err(BadOctet)
  {
    hide Atoi, Cut;
    CutExactly(p, '-', "");
  }

  /** Text without a slash: it is accepted exactly if it has three dots and four octets between them,
      and then matches the plain IPv4 addresses each of whose bytes is under the octet of its place.
      Otherwise it is empty, or has not three dots, or the error is that of the first bad octet. */
  lemma PatternExactly(read: PrefixReader, text: string)
    requires '/' !in TrimSpace(text)
    ensures var s, m := TrimSpace(text), MaskOf(read, text);
      var parts := Split(s, '.');
      && (m.Ok? <==> s != "" && multiset(s)['.'] == 3 && forall i :: 0 <= i < |parts| ==> OctetOf(parts[i]).Ok?)
      && (s == "" ==> m == Err(EmptyMask))
      && (s != "" && multiset(s)['.'] != 3 ==> m == Err(NotFourOctets))
      && (m.Err? && s != "" && multiset(s)['.'] == 3 ==>
            exists i :: 0 <= i < |parts| && OctetOf(parts[i]) == Err(m.error) && (forall j :: 0 <= j < i ==> OctetOf(parts[j]).Ok?))
      && (m.Ok? ==> forall a :: Accepts(m.value, a) <==>
            a.V4? && forall i :: 0 <= i < 4 ==>
              var r := OctetOf(parts[i]).value; r.any || (r.lo <= a.bytes[i] && a.bytes[i] <= r.hi))
  {
    hide TrimSpace, Split, OctetOf, RulesOf;
    var s := TrimSpace(text);
    var parts := Split(s, '.');
    JoinSplit(s, '.');
    RulesExactly(parts);
    if RulesOf(parts).Ok? {
      RulesMeaning(parts);
    }
  }

  /** Text with a slash is a prefix, or an error exactly if it cannot be read as one; and it matches the
      addresses of the prefix's family, without a zone, that agree with it in the leading bits. */
  lemma CidrExactly(read: PrefixReader, text: string, a: Addr)
    requires '/' in TrimSpace(text)
    ensures match read(TrimSpace(text))
      case None => MaskOf(read, text) == Err(BadPrefix)
      case Some(Prefix4(net, bits)) =>
        && MaskOf(read, text).Ok?
        && (Accepts(MaskOf(read, text).value, a) <==>
              a.V4? && TopBits(Number(a.bytes), 32 - bits) == TopBits(Number(net), 32 - bits))
      case Some(Prefix6(net, bits)) =>
        && MaskOf(read, text).Ok?
        && (Accepts(MaskOf(read, text).value, a) <==>
              a.V6? && !a.zoned && TopBits(a.value, 128 - bits) == TopBits(net, 128 - bits))
  {
    hide TrimSpace, TopBits, Number;
  }
}
