/** The DHCP range of a /24 subnet: subnetRange of internal/controller/ovhcluster_controller.go. */
module DhcpRange {
  import opened Sequences

  // ----- the computation

  /** Where `x` last occurs, or -1. */
  function LastIndexOf(s: string, x: char): (i: int)
    ensures -1 <= i < |s| && (forall k | i < k < |s| :: s[k] != x) && (i >= 0 ==> s[i] == x)
  {
    if s == "" then -1
    else if s[|s| - 1] == x then |s| - 1
    else LastIndexOf(s[..|s| - 1], x)
  }

  function RangeOf(cidr: string): (string, string) {
    var slash := IndexOf(cidr, '/');
    var dot := LastIndexOf(cidr[..slash], '.');
    if cidr[slash..] != "/24" || dot == -1 then ("", "")
    else (cidr[..dot + 1] + "2", cidr[..dot + 1] + "254")
  }

  /** Only the text is looked at: everything up to the last dot is kept, whatever it is. */
  method SubnetRange(cidr: string) returns (start: string, end: string)
    ensures (start, end) == RangeOf(cidr)
  {
    var idx := 0;
    while idx < |cidr| && cidr[idx] != '/'
      invariant 0 <= idx <= |cidr|
      invariant forall k | 0 <= k < idx :: cidr[k] != '/'
    {
      idx := idx + 1;
    }
    assert idx == IndexOf(cidr, '/');
    if idx == |cidr| || cidr[idx..] != "/24" {
      return "", "";
    }
    var prefix := cidr[..idx];
    var last := |prefix| - 1;
    while last >= 0 && prefix[last] != '.'
      invariant -1 <= last < |prefix|
      invariant forall k | last < k < |prefix| :: prefix[k] != '.'
    {
      last := last - 1;
    }
    assert last == LastIndexOf(prefix, '.');
    if last == -1 {
      return "", "";
    }
    var base := prefix[..last + 1];
    assert base == cidr[..last + 1];
    return base + "2", base + "254";
  }

  // ----- what the texts mean

  predicate IsDigit(c: char) {
    '0' <= c <= '9'
  }

  function Number(s: string): nat
    requires forall i | 0 <= i < |s| :: IsDigit(s[i])
  {
    if s == "" then 0 else assert IsDigit(s[|s| - 1]); 10 * Number(s[..|s| - 1]) + (s[|s| - 1] - '0') as nat
  }

  /** A decimal number of at most `max`, without superfluous zeros. */
  function Decimal(s: string, max: nat): Option<nat> {
    if s != "" && (forall i | 0 <= i < |s| :: IsDigit(s[i])) && (|s| == 1 || s[0] != '0') && Number(s) <= max then
      Some(Number(s))
    else
      None
  }

  /** `n` octets separated by dots, read after those that make up `high`. */
  function Octets(s: string, n: nat, high: nat): Option<nat>
    requires n > 0
  {
    if n == 1 then
      var d := Decimal(s, 255);
      if d.Some? then Some(256 * high + d.value) else None
    else
      var i := IndexOf(s, '.');
      var d := Decimal(s[..i], 255);
      if i < |s| && d.Some? then Octets(s[i + 1..], n - 1, 256 * high + d.value) else None
  }

  /** The 32-bit value of an address in dotted notation. */
  function Address(s: string): Option<nat> {
    Octets(s, 4, 0)
  }

  /** Address and prefix length in the notation of section 3.1 of RFC 4632. */
  function Cidr(s: string): Option<(nat, nat)> {
    var i := IndexOf(s, '/');
    if i == |s| then None
    else
      var a, p := Address(s[..i]), Decimal(s[i + 1..], 32);
      if a.Some? && p.Some? then Some((a.value, p.value)) else None
  }

  // ----- the range is right

  lemma NoDot(s: string)
    requires Decimal(s, 255).Some?
    ensures '.' !in s
  {
  }

  lemma FirstDot(a: string, rest: string)
    requires '.' !in a
    ensures IndexOf(a + "." + rest, '.') == |a|
    ensures (a + "." + rest)[..|a|] == a && (a + "." + rest)[|a| + 1..] == rest
  {
    var s := a + "." + rest;
    hide IndexOf;
    assert s[|a|] == '.' && forall k | 0 <= k < |a| :: s[k] == a[k];
  }

  /** One more octet in front. */
  lemma OctetInFront(a: string, rest: string, n: nat, high: nat)
    requires n > 1 && Decimal(a, 255).Some?
    ensures Octets(a + "." + rest, n, high) == Octets(rest, n - 1, 256 * high + Decimal(a, 255).value)
  {
    NoDot(a);
    FirstDot(a, rest);
    hide IndexOf, Decimal;
  }

  lemma SplitOctets(s: string, n: nat, high: nat) returns (a: string, rest: string)
    requires n > 1 && Octets(s, n, high).Some?
    ensures s == a + "." + rest && Decimal(a, 255).Some?
    ensures Octets(s, n, high) == Octets(rest, n - 1, 256 * high + Decimal(a, 255).value)
  {
    var i := IndexOf(s, '.');
    a, rest := s[..i], s[i + 1..];
  }

  lemma OneOctet(s: string, high: nat)
    ensures var d := Decimal(s, 255); Octets(s, 1, high) == if d.Some? then Some(256 * high + d.value) else None
  {
  }

  /** An address splits behind its last dot, and replacing the last octet replaces the low eight bits. */
  lemma {:induction false} LastOctet(s: string, n: nat, high: nat, x: string)
    returns (head: string, last: string, top: nat)
    requires n > 1 && Octets(s, n, high).Some? && Decimal(x, 255).Some?
    ensures s == head + "." + last && Decimal(last, 255).Some?
    ensures Octets(s, n, high) == Some(256 * top + Decimal(last, 255).value)
    ensures Octets(head + "." + x, n, high) == Some(256 * top + Decimal(x, 255).value)
    decreases n
  {
    hide Octets, Decimal;
    var a, rest := SplitOctets(s, n, high);
    var high' := 256 * high + Decimal(a, 255).value;
    OneOctet(rest, high');
    OneOctet(x, high');
    if n == 2 {
      head, last, top := a, rest, high';
      OctetInFront(a, x, n, high);
    } else {
      var h;
      h, last, top := LastOctet(rest, n - 1, high', x);
      head := a + "." + h;
      OctetInFront(a, h + "." + x, n, high);
      assert head + "." + x == a + "." + (h + "." + x);
    }
  }

  lemma LastDot(head: string, last: string)
    requires Decimal(last, 255).Some?
    ensures LastIndexOf(head + "." + last, '.') == |head|
  {
    NoDot(last);
    var s := head + "." + last;
    hide LastIndexOf, Decimal;
    assert s[|head|] == '.' && forall k | 0 <= k < |last| :: s[|head| + 1 + k] == last[k];
  }

  /** The address of a block is that of its network and an octet; the range replaces the octet. */
  lemma OctetReplaced(s: string, x: string)
    requires Address(s).Some? && Decimal(x, 255).Some?
    ensures var dot := LastIndexOf(s, '.');
            && dot >= 0
            && Address(s[..dot + 1] + x) == Some(Address(s).value - Address(s).value % 256 + Decimal(x, 255).value)
  {
    hide LastIndexOf, Decimal, Octets;
    var head, last, top := LastOctet(s, 4, 0, x);
    LastDot(head, last);
    LowByte(top, last);
    assert s[..LastIndexOf(s, '.') + 1] + x == head + "." + x;
  }

  lemma LowByte(top: nat, x: string)
    requires Decimal(x, 255).Some?
    ensures (256 * top + Decimal(x, 255).value) % 256 == Decimal(x, 255).value
  {
  }

  lemma PrefixLength24(s: string)
    requires Decimal(s, 32).Some?
    ensures Decimal(s, 32).value == 24 <==> s == "24"
  {
    if |s| == 1 {
      assert Number(s[..0]) == 0;
    } else {
      var t := s[..|s| - 1];
      assert Number(s) == 10 * Number(t) + (s[|s| - 1] - '0') as nat;
      assert Number(t) == 10 * Number(t[..|t| - 1]) + (t[|t| - 1] - '0') as nat;
      if |s| > 2 {
        NonZero(t[..|t| - 1]);
        assert false;
      }
      assert t[..0] == "";
      assert s == [s[0]] + [s[1]];
    }
  }

  /** A number that does not start with a zero is not zero. */
  lemma {:induction false} NonZero(s: string)
    requires s != "" && s[0] != '0' && forall i | 0 <= i < |s| :: IsDigit(s[i])
    ensures Number(s) > 0
  {
    if |s| > 1 {
      NonZero(s[..|s| - 1]);
    }
  }

  lemma CidrParts(cidr: string) returns (left: string, right: string)
    requires Cidr(cidr).Some?
    ensures Address(left).Some? && Decimal(right, 32).Some?
    ensures Cidr(cidr) == Some((Address(left).value, Decimal(right, 32).value))
    ensures var dot := LastIndexOf(left, '.');
            RangeOf(cidr) ==
              if right != "24" || dot == -1 then ("", "") else (left[..dot + 1] + "2", left[..dot + 1] + "254")
  {
    var slash := IndexOf(cidr, '/');
    left, right := cidr[..slash], cidr[slash + 1..];
    hide Address, Decimal, IndexOf, LastIndexOf;
    assert cidr[slash..][1..] == right && "/24"[1..] == "24";
    assert right == "24" ==> cidr[slash..] == "/" + right;
    assert forall n | 0 <= n <= |left| :: left[..n] == cidr[..n];
  }

  lemma Twos()
    ensures Decimal("2", 255) == Some(2) && Decimal("254", 255) == Some(254)
  {
    assert "254"[..2] == "25" && "25"[..1] == "2" && "2"[..0] == "";
    assert Number("2") == 2 && Number("25") == 25;
  }

  /**
   * For every address block of prefix length 24 the range runs from the network address plus 2 to
   * the network address plus 254, strictly inside the block; for other prefix lengths it is empty.
   */
  lemma RangeInSubnet(cidr: string)
    requires Cidr(cidr).Some?
    ensures var (address, length) := Cidr(cidr).value;
            var network := address - address % 256;
            if length == 24 then
              Address(RangeOf(cidr).0) == Some(network + 2) && Address(RangeOf(cidr).1) == Some(network + 254)
            else
              RangeOf(cidr) == ("", "")
  {
    hide Cidr, RangeOf, Address, Decimal, LastIndexOf;
    var left, right := CidrParts(cidr);
    PrefixLength24(right);
    Twos();
    OctetReplaced(left, "2");
    OctetReplaced(left, "254");
  }
}
