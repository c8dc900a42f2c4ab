/** Names derived from node names. */
module Naming {
  import opened GoText

  type Byte = x: int | 0 <= x < 256

  const LABEL_MAX := 63

  predicate IsLower(c: char) { 'a' <= c <= 'z' }
  predicate IsAlnum(c: char) { IsLower(c) || '0' <= c <= '9' }
  predicate IsLabelChar(c: char) { IsAlnum(c) || c == '-' }

  /** A label under section 2.3.1 of RFC 1035, as `validation.IsDNS1035Label` checks it. */
  predicate IsLabel(s: string) {
    && 1 <= |s| <= LABEL_MAX
    && IsLower(s[0]) && IsAlnum(s[|s| - 1])
    && forall i :: 0 <= i < |s| ==> IsLabelChar(s[i])
  }

  function DeploymentName(node: string): string {
    "caddy-" + node
  }

  function HexDigit(n: int): char
    requires 0 <= n < 16
  {
    if n < 10 then '0' + n as char else 'a' + (n - 10) as char
  }

  /** `%x` of a byte slice. */
  function Hex(bytes: seq<Byte>): (h: string)
    ensures |h| == 2 * |bytes|
    ensures forall i :: 0 <= i < |h| ==> IsAlnum(h[i])
  {
    if bytes == [] then "" else [HexDigit(bytes[0] / 16), HexDigit(bytes[0] % 16)] + Hex(bytes[1..])
  }

  lemma {:induction false} HexInjective(a: seq<Byte>, b: seq<Byte>)
    requires Hex(a) == Hex(b)
    ensures a == b
  {
    if a != [] && b != [] {
      assert Hex(a)[0] == HexDigit(a[0] / 16) && Hex(a)[1] == HexDigit(a[0] % 16);
      assert Hex(b)[0] == HexDigit(b[0] / 16) && Hex(b)[1] == HexDigit(b[0] % 16);
      assert Hex(a)[2..] == Hex(a[1..]) && Hex(b)[2..] == Hex(b[1..]);
      HexInjective(a[1..], b[1..]);
      assert a == [a[0]] + a[1..] && b == [b[0]] + b[1..];
    }
  }

  /** `strings.ReplaceAll(node, ".", "-")`. */
  function Dashed(node: string): (d: string)
    ensures |d| == |node|
    ensures forall i :: 0 <= i < |d| ==> d[i] == if node[i] == '.' then '-' else node[i]
  {
    seq(|node|, i requires 0 <= i < |node| => if node[i] == '.' then '-' else node[i])
  }

  /** `strings.TrimRight(s, "-")`. */
  function TrimDashes(s: string): (t: string)
    ensures t <= s
    ensures s != "" && s[0] != '-' ==> t != ""
  {
    if s != "" && s[|s| - 1] == '-' then TrimDashes(s[..|s| - 1]) else s
  }

  function PlainName(node: string): string {
    DeploymentName(node) + "-loadbalancer"
  }

  function Suffix(digest: seq<Byte>): string {
    "-" + Hex(digest) + "-lb"
  }

  /** The shortened form; `digest` stands for the first six bytes of the SHA-256 of the name. */
  function HashedName(node: string, digest: seq<Byte>): string
    requires |digest| == 6
  {
    var prefix := DeploymentName(Dashed(node));
    var room := LABEL_MAX - |Suffix(digest)|;
    TrimDashes(prefix[..if |prefix| < room then |prefix| else room]) + Suffix(digest)
  }

  function ServiceName(node: string, digest: seq<Byte>): string
    requires |digest| == 6
  {
    if IsLabel(PlainName(node)) then PlainName(node) else HashedName(node, digest)
  }

  /** The characters of a DNS subdomain. */
  predicate IsNodeName(node: string) {
    forall i :: 0 <= i < |node| ==> IsLabelChar(node[i]) || node[i] == '.'
  }

  lemma SuffixShape(digest: seq<Byte>)
    requires |digest| == 6
    ensures |Suffix(digest)| == 16 && Suffix(digest)[15] == 'b' && Suffix(digest)[1..13] == Hex(digest)
    ensures forall i :: 0 <= i < 16 ==> IsLabelChar(Suffix(digest)[i])
  {
    assert Suffix(digest)[13..] == "-lb";
  }

  /** The shortened prefix starts with a letter and has only label characters. */
  lemma PrefixShape(node: string, room: nat)
    requires IsNodeName(node) && 1 <= room
    ensures var prefix := DeploymentName(Dashed(node));
            var kept := TrimDashes(prefix[..if |prefix| < room then |prefix| else room]);
            1 <= |kept| <= room && kept[0] == 'c' && forall i :: 0 <= i < |kept| ==> IsLabelChar(kept[i])
  {
    var prefix := DeploymentName(Dashed(node));
    assert prefix[0] == 'c';
    assert forall i :: 0 <= i < 6 ==> IsLabelChar("caddy-"[i]);
    assert forall i :: 6 <= i < |prefix| ==> prefix[i] == Dashed(node)[i - 6];
  }

  lemma LabelConcat(a: string, b: string)
    requires 1 <= |a| && 1 <= |b| && |a| + |b| <= LABEL_MAX && IsLower(a[0]) && IsAlnum(b[|b| - 1])
    requires forall i :: 0 <= i < |a| ==> IsLabelChar(a[i])
    requires forall i :: 0 <= i < |b| ==> IsLabelChar(b[i])
    ensures IsLabel(a + b)
  {
  }

  /** Every node gets a Service name the API server accepts. */
  lemma ServiceNameIsLabel(node: string, digest: seq<Byte>)
    requires IsNodeName(node) && |digest| == 6
    ensures IsLabel(ServiceName(node, digest))
    ensures var name := ServiceName(node, digest);
            && 1 <= |name| <= 63 && 'a' <= name[0] <= 'z' && name[|name| - 1] != '-'
            && forall i :: 0 <= i < |name| ==> 'a' <= name[i] <= 'z' || '0' <= name[i] <= '9' || name[i] == '-'
  {
    if !IsLabel(PlainName(node)) {
      SuffixShape(digest);
      PrefixShape(node, 47);
      var prefix := DeploymentName(Dashed(node));
      LabelConcat(TrimDashes(prefix[..if |prefix| < 47 then |prefix| else 47]), Suffix(digest));
    }
  }

  /** Two nodes share a Service name only if both take the hashed form with equal digests. */
  lemma ServiceNamesDistinct(a: string, digestA: seq<Byte>, b: string, digestB: seq<Byte>)
    requires a != b && |digestA| == 6 && |digestB| == 6
    requires ServiceName(a, digestA) == ServiceName(b, digestB)
    ensures !IsLabel(PlainName(a)) && !IsLabel(PlainName(b)) && digestA == digestB
  {
    var name := ServiceName(a, digestA);
    SuffixShape(digestA);
    SuffixShape(digestB);
    LastChar(a, digestA);
    LastChar(b, digestB);
    if IsLabel(PlainName(a)) {
      FrameInjective("caddy-", a, b, "-loadbalancer");
    } else {
      assert name[|name| - 16..] == Suffix(digestA);
      assert name[|name| - 16..] == Suffix(digestB);
      HexInjective(digestA, digestB);
    }
  }

  lemma LastChar(node: string, digest: seq<Byte>)
    requires |digest| == 6
    ensures var name := ServiceName(node, digest);
            |name| > 0 && name[|name| - 1] == if IsLabel(PlainName(node)) then 'r' else 'b'
  {
    SuffixShape(digest);
    assert PlainName(node)[|PlainName(node)| - 1] == "-loadbalancer"[12];
  }

  /** With equal digests the hashed forms can coincide: here the names differ in a dot only. */
  lemma CollidingNames(digest: seq<Byte>)
    requires |digest| == 6
    ensures ServiceName("a.b.c", digest) == ServiceName("a.b-c", digest)
  {
    assert PlainName("a.b.c")[7] == '.' && PlainName("a.b-c")[7] == '.';
    assert Dashed("a.b.c") == "a-b-c" && Dashed("a.b-c") == "a-b-c";
  }

  lemma {:induction false} TrimDashesExactly(s: string)
    ensures var k := |TrimDashes(s)|;
            && k <= |s| && TrimDashes(s) == s[..k] && (k > 0 ==> s[k - 1] != '-')
            && forall i :: k <= i < |s| ==> s[i] == '-'
  {
    if s != "" && s[|s| - 1] == '-' {
      var rest := s[..|s| - 1];
      TrimDashesExactly(rest);
      assert forall i :: 0 <= i < |rest| ==> rest[i] == s[i];
    }
  }

  /** The name tells the node: the plain form where that is a label; otherwise as much of the
      Deployment's name, dots as dashes, as fits before the digest, less dashes at the cut. */
  lemma ServiceNameShape(node: string, digest: seq<Byte>) returns (k: nat)
    requires |digest| == 6
    ensures IsLabel("caddy-" + node + "-loadbalancer") ==>
              ServiceName(node, digest) == "caddy-" + node + "-loadbalancer"
    ensures var full := "caddy-" + Dashed(node);
            && k <= |full| && k <= 47 && (k > 0 ==> full[k - 1] != '-')
            && (forall i :: k <= i < |full| && i < 47 ==> full[i] == '-')
            && (!IsLabel("caddy-" + node + "-loadbalancer") ==>
                  ServiceName(node, digest) == full[..k] + ("-" + Hex(digest) + "-lb"))
  {
    var full := DeploymentName(Dashed(node));
    SuffixShape(digest);
    var cut := full[..if |full| < 47 then |full| else 47];
    TrimDashesExactly(cut);
    k := |TrimDashes(cut)|;
    assert cut[..k] == full[..k];
  }
}
