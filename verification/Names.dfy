/** Resource names and provider IDs: util/util.go. */
module Names {
  import opened Sequences

  // ----- GenerateRFC1035Name

  /**
   * Lower case as far as it matters here: besides the ASCII letters, two other characters have
   * an ASCII lower case (the Kelvin sign and the dotted capital I); every remaining
   * non-ASCII character is replaced later whatever its case.
   */
  function Lower(c: char): char {
    if 'A' <= c <= 'Z' then 'a' + (c - 'A')
    else if c == '\U{212A}' then 'k'
    else if c == '\U{0130}' then 'i'
    else c
  }

  predicate Allowed(c: char) {
    'a' <= c <= 'z' || '0' <= c <= '9' || c == '-'
  }

  /** One character after lower-casing and replacement. */
  function CleanChar(c: char): (r: char)
    ensures Allowed(r)
    ensures Allowed(c) ==> r == c
  {
    if Allowed(Lower(c)) then Lower(c) else '-'
  }

  function CleanAll(s: string): (r: string)
    ensures |r| == |s|
    ensures forall i | 0 <= i < |s| :: r[i] == CleanChar(s[i])
  {
    seq(|s|, i requires 0 <= i < |s| => CleanChar(s[i]))
  }

  function Join(parts: seq<string>): string {
    if parts == [] then ""
    else if |parts| == 1 then parts[0]
    else parts[0] + "-" + Join(parts[1..])
  }

  function TrimLeft(s: string): string {
    if s != "" && s[0] == '-' then TrimLeft(s[1..]) else s
  }

  function TrimRight(s: string): string {
    if s != "" && s[|s| - 1] == '-' then TrimRight(s[..|s| - 1]) else s
  }

  const MAX_NAME := 63

  function Shorten(name: string): string {
    if |name| > MAX_NAME then TrimRight(name[..MAX_NAME]) else name
  }

  function GenerateRFC1035Name(parts: seq<string>): string {
    Shorten(TrimRight(TrimLeft(CleanAll(Join(parts)))))
  }

  // ----- what the names look like

  /**
   * A label by section 2.3.1 of RFC 1035, with a digit allowed first as in section 2.1 of RFC 1123:
   * letters, digits and hyphens, at most 63, not empty and with no hyphen at either end.
   */
  predicate Label(s: string) {
    && 0 < |s| <= MAX_NAME
    && (forall i | 0 <= i < |s| :: Allowed(s[i]))
    && s[0] != '-' && s[|s| - 1] != '-'
  }

  function Trimmed(parts: seq<string>): string {
    TrimRight(TrimLeft(CleanAll(Join(parts))))
  }

  /** Trimming keeps a stretch of the text, without a hyphen at the trimmed end. */
  lemma {:induction false} TrimLeftShape(s: string)
    ensures |TrimLeft(s)| <= |s| && TrimLeft(s) == s[|s| - |TrimLeft(s)|..]
    ensures TrimLeft(s) != "" ==> TrimLeft(s)[0] != '-'
  {
    if s != "" && s[0] == '-' {
      TrimLeftShape(s[1..]);
    }
  }

  lemma {:induction false} TrimRightShape(s: string)
    ensures TrimRight(s) <= s
    ensures TrimRight(s) != "" ==> TrimRight(s)[|TrimRight(s)| - 1] != '-'
  {
    if s != "" && s[|s| - 1] == '-' {
      TrimRightShape(s[..|s| - 1]);
    }
  }

  /** What becomes of one character: lower case, or a hyphen if it is then no letter, digit or hyphen. */
  predicate Spells(c: char, r: char) {
    if 'a' <= c <= 'z' || '0' <= c <= '9' then r == c
    else if 'A' <= c <= 'Z' then r as int == c as int + 32
    else if c == '\U{212A}' then r == 'k'
    else if c == '\U{0130}' then r == 'i'
    else r == '-'
  }

  /**
   * The name spells a stretch of the text, outside which there are only hyphens; if that is longer than 63 characters,
   * the first 63 of it without the hyphens at their end.
   */
  predicate SpelledFrom(s: string, a: nat, b: nat, name: string) {
    && a <= b <= |s|
    && (forall i | 0 <= i < |s| && !(a <= i < b) :: Spells(s[i], '-'))
    && (a < b ==> !Spells(s[a], '-') && !Spells(s[b - 1], '-'))
    && (if b - a <= 63 then |name| == b - a
        else |name| <= 63 && forall i | a + |name| <= i < a + 63 :: Spells(s[i], '-'))
    && (forall i | a <= i < a + |name| :: Spells(s[i], name[i - a]))
    && (name != "" ==> name[|name| - 1] != '-')
  }

  lemma {:induction false} TrimmedHyphens(s: string)
    ensures forall i | 0 <= i < |s| - |TrimLeft(s)| :: s[i] == '-'
    ensures forall i | |TrimRight(s)| <= i < |s| :: s[i] == '-'
  {
    if s != "" && s[0] == '-' {
      TrimmedHyphens(s[1..]);
      TrimLeftShape(s[1..]);
      assert forall i | 1 <= i < |s| - |TrimLeft(s)| :: s[i] == s[1..][i - 1];
    }
    if s != "" && s[|s| - 1] == '-' {
      TrimmedHyphens(s[..|s| - 1]);
      assert forall i | |TrimRight(s)| <= i < |s| - 1 :: s[i] == s[..|s| - 1][i];
    }
  }

  /** Every generated name is spelled from its parts with hyphens between them. */
  lemma NameSpelled(parts: seq<string>)
    ensures exists a, b :: SpelledFrom(Join(parts), a, b, GenerateRFC1035Name(parts))
  {
    var joined := Join(parts);
    var s := CleanAll(joined);
    var left := TrimLeft(s);
    var mid := TrimRight(left);
    TrimLeftShape(s);
    TrimRightShape(left);
    TrimmedHyphens(s);
    TrimmedHyphens(left);
    var a := |s| - |left|;
    assert forall i | a + |mid| <= i < |s| :: s[i] == left[i - a];
    assert GenerateRFC1035Name(parts) == Shorten(mid);
    CutSpelled(joined, a, mid);
  }

  lemma CutSpelled(joined: string, a: nat, mid: string)
    requires a + |mid| <= |joined| && mid == CleanAll(joined)[a..a + |mid|]
    requires forall i | 0 <= i < |joined| && !(a <= i < a + |mid|) :: CleanAll(joined)[i] == '-'
    requires mid != "" ==> mid[0] != '-' && mid[|mid| - 1] != '-'
    ensures SpelledFrom(joined, a, a + |mid|, Shorten(mid))
  {
    var s, name := CleanAll(joined), Shorten(mid);
    assert forall i | 0 <= i < |s| :: Spells(joined[i], s[i]);
    assert forall i | a <= i < a + |mid| :: s[i] == mid[i - a];
    if |mid| > MAX_NAME {
      var cut := mid[..MAX_NAME];
      TrimRightShape(cut);
      TrimmedHyphens(cut);
      assert forall i | a + |name| <= i < a + 63 :: s[i] == cut[i - a] == '-';
      assert forall i | a <= i < a + |name| :: s[i] == name[i - a];
    }
  }

  lemma JoinedBy(x: string, y: string, z: string)
    ensures Join([x, y]) == x + "-" + y
    ensures Join([x, y, z]) == x + "-" + y + "-" + z
  {
    assert [x, y][1..] == [y];
    assert [x, y, z][1..] == [y, z] && [y, z][1..] == [z];
    assert Join([y, z]) == y + "-" + z;
    assert x + "-" + (y + "-" + z) == x + "-" + y + "-" + z;
  }

  /** Every generated name is a label, or empty when no letter or digit survives. */
  lemma NameIsLabel(parts: seq<string>)
    ensures var name := GenerateRFC1035Name(parts); name == "" || Label(name)
  {
    var s := CleanAll(Join(parts));
    TrimLeftShape(s);
    TrimRightShape(TrimLeft(s));
    TrimRightShape(Trimmed(parts)[..if |Trimmed(parts)| > MAX_NAME then MAX_NAME else 0]);
  }

  lemma {:induction false} NothingToTrim(s: string)
    requires s == "" || (s[0] != '-' && s[|s| - 1] != '-')
    ensures TrimLeft(s) == s && TrimRight(s) == s
  {
  }

  lemma CleanUnchanged(s: string)
    requires forall i | 0 <= i < |s| :: Allowed(s[i])
    ensures CleanAll(s) == s
  {
  }

  /** A label is its own name. */
  lemma LabelIsItsName(s: string)
    requires s == "" || Label(s)
    ensures GenerateRFC1035Name([s]) == s
  {
    CleanUnchanged(s);
    NothingToTrim(s);
  }

  /** Naming a name again changes nothing. */
  lemma NameIdempotent(parts: seq<string>)
    ensures GenerateRFC1035Name([GenerateRFC1035Name(parts)]) == GenerateRFC1035Name(parts)
  {
    NameIsLabel(parts);
    LabelIsItsName(GenerateRFC1035Name(parts));
  }

  // ----- machine names

  /** Trimming the left of a text whose tail does not start with a hyphen never reaches the tail. */
  lemma {:induction false} TrimLeftBeforeTail(s: string, tail: string)
    requires tail != "" && tail[0] != '-'
    ensures TrimLeft(s + tail) == TrimLeft(s) + tail
  {
    if s == "" {
      assert s + tail == tail;
    } else if s[0] == '-' {
      assert (s + tail)[1..] == s[1..] + tail;
      TrimLeftBeforeTail(s[1..], tail);
    }
  }

  /** The cluster's part of a machine's instance name, and the machine's label after it. */
  lemma MachineNameParts(cluster: string, machine: string)
    requires Label(machine)
    ensures Trimmed([cluster, machine]) == TrimLeft(CleanAll(cluster) + "-") + machine
  {
    var joined := cluster + "-" + machine;
    JoinedBy(cluster, machine, "");
    assert CleanAll(joined) == CleanAll(cluster) + "-" + machine;
    assert CleanAll(cluster) + "-" + machine == (CleanAll(cluster) + "-") + machine;
    TrimLeftBeforeTail(CleanAll(cluster) + "-", machine);
  }

  /** In one cluster, machines with different labels get different instance names, as long as these are not cut. */
  lemma MachineNamesInjective(cluster: string, a: string, b: string)
    requires Label(a) && Label(b)
    requires |Trimmed([cluster, a])| <= MAX_NAME && |Trimmed([cluster, b])| <= MAX_NAME
    requires GenerateRFC1035Name([cluster, a]) == GenerateRFC1035Name([cluster, b])
    ensures a == b
  {
    MachineNameParts(cluster, a);
    MachineNameParts(cluster, b);
    var head := TrimLeft(CleanAll(cluster) + "-");
    assert (head + a)[|head|..] == a && (head + b)[|head|..] == b;
  }

  // ----- load balancer names

  /** For such clusters nothing is replaced, trimmed or cut. */
  predicate PlainCluster(cluster: string) {
    && (forall i | 0 <= i < |cluster| :: Allowed(cluster[i]))
    && |cluster| + 8 <= MAX_NAME
  }

  /** What is named after such a cluster: "capi", the cluster and what it is, with hyphens between them. */
  lemma PlainName(cluster: string, suffix: string)
    requires forall i | 0 <= i < |cluster| :: Allowed(cluster[i])
    requires Label(suffix) && |cluster| + |suffix| <= 57
    ensures GenerateRFC1035Name(["capi", cluster, suffix]) == "capi-" + cluster + "-" + suffix
  {
    var name := "capi-" + cluster + "-" + suffix;
    JoinedBy("capi", cluster, suffix);
    assert "capi" + "-" + cluster + "-" + suffix == name;
    forall i | 0 <= i < |name| ensures Allowed(name[i]) {
      if 5 <= i < 5 + |cluster| { assert name[i] == cluster[i - 5]; }
      if 6 + |cluster| <= i { assert name[i] == suffix[i - 6 - |cluster|]; }
    }
    CleanUnchanged(name);
    NothingToTrim(name);
  }

  lemma PlainLbName(cluster: string)
    requires PlainCluster(cluster)
    ensures GenerateRFC1035Name(["capi", cluster, "lb"]) == "capi-" + cluster + "-lb"
  {
    PlainName(cluster, "lb");
    assert "capi-" + cluster + "-" + "lb" == "capi-" + cluster + "-lb";
  }

  lemma PrefixShift(head: string, s: string, t: string)
    ensures head + s <= head + t <==> s <= t
  {
    if head + s <= head + t {
      assert forall i | 0 <= i < |s| :: s[i] == (head + s)[|head| + i] == (head + t)[|head| + i] == t[i];
    }
  }

  /** Two texts of at most two letters apart cannot both go on with "-lb". */
  lemma SuffixReach(c: string, d: string)
    ensures c + "-lb" <= d + "-lb" <==> d == c || c + "-lb" <= d
  {
    var p, q := c + "-lb", d + "-lb";
    var n, m := |c|, |d|;
    assert p[n] == '-' && p[n + 1] == 'l' && p[n + 2] == 'b';
    assert q[m] == '-' && q[m + 1] == 'l' && q[m + 2] == 'b';
    if p <= q {
      assert forall i | 0 <= i < |p| :: q[i] == p[i];
      assert m != n + 1 && m != n + 2;
      assert q[..n] == c;
    }
  }

  /**
   * The orphan sweep of cluster `c` reaches the load balancer of cluster `d` exactly when the
   * clusters are the same or the name of `d` starts with that of `c` followed by "-lb".
   */
  lemma OrphanSweepReach(c: string, d: string)
    requires PlainCluster(c) && PlainCluster(d)
    ensures GenerateRFC1035Name(["capi", c, "lb"]) <= GenerateRFC1035Name(["capi", d, "lb"]) <==>
              d == c || c + "-lb" <= d
  {
    PlainLbName(c);
    PlainLbName(d);
    PrefixShift("capi-", c + "-lb", d + "-lb");
    SuffixReach(c, d);
    assert "capi-" + (c + "-lb") == "capi-" + c + "-lb" && "capi-" + (d + "-lb") == "capi-" + d + "-lb";
  }

  // ----- provider IDs

  const SCHEME := "ovhcloud://"

  function ProviderIDFromInstance(region: string, instanceID: string): string {
    SCHEME + region + "/" + instanceID
  }

  /** Region and instance ID; none unless the scheme, a "/" and text on both sides of it are there. */
  function ParseProviderID(providerID: string): Option<(string, string)> {
    if !(SCHEME <= providerID) then None
    else
      var rest := providerID[|SCHEME|..];
      var i := IndexOf(rest, '/');
      if i == |rest| || i == 0 || i + 1 == |rest| then None
      else Some((rest[..i], rest[i + 1..]))
  }

  /** Parsing undoes printing exactly when the region is not empty and has no "/", and the ID is not empty. */
  lemma ProviderIDRoundTrip(region: string, id: string)
    ensures ParseProviderID(ProviderIDFromInstance(region, id)) == Some((region, id)) <==>
            region != "" && '/' !in region && id != ""
  {
    var printed := ProviderIDFromInstance(region, id);
    var rest := region + "/" + id;
    assert printed == SCHEME + rest;
    assert printed[|SCHEME|..] == rest;
    var i := IndexOf(rest, '/');
    assert rest[|region|] == '/';
    assert i <= |region|;
    if '/' in region {
      var k :| 0 <= k < |region| && region[k] == '/';
      assert rest[k] == '/';
    } else {
      assert forall k | 0 <= k < |region| :: rest[k] == region[k] != '/';
      assert i == |region|;
      assert rest[..i] == region && rest[i + 1..] == id;
    }
  }

  /** Printing undoes parsing: a text that parses is printed unchanged. */
  lemma ProviderIDReprint(s: string)
    ensures var r := ParseProviderID(s); r.Some? ==> ProviderIDFromInstance(r.value.0, r.value.1) == s
  {
    if ParseProviderID(s).Some? {
      var rest := s[|SCHEME|..];
      var i := IndexOf(rest, '/');
      assert rest == rest[..i] + "/" + rest[i + 1..];
      assert s == SCHEME + rest;
    }
  }
}
