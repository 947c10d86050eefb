/**
 * The sdk base helpers: middleware chaining (base/chain.go) and client address
 * extraction (base/netutil.go). Handlers are values of a type parameter `H`,
 * and a middleware is a total function from handler to handler. Parsing an IP
 * address (net.ParseIP) and splitting host from port (net.SplitHostPort) are
 * library code and enter as the parameters `parse` and `splitHost`.
 */
module SdkBase {
  import opened Wrappers
  import Text
  import opened HttpModel

  // ---------------------------------------------------------------- chain.go

  /** What Chain builds: the first middleware wraps all the others. */
  function Chained<H>(h: H, ms: seq<H -> H>): H
    decreases |ms|
  {
    if ms == [] then h else ms[0](Chained(h, ms[1..]))
  }

  /** Chain: applies the middlewares from the last to the first. */
  method Chain<H>(h: H, ms: seq<H -> H>) returns (r: H)
    ensures r == Chained(h, ms)
  {
    r := h;
    var i := |ms|;
    while i > 0
      invariant 0 <= i <= |ms|
      invariant r == Chained(h, ms[i..])
    {
      i := i - 1;
      assert ms[i..][1..] == ms[i + 1..];
      r := ms[i](r);
    }
    assert ms[0..] == ms;
  }

  /** Adding a middleware at the end wraps the handler first. */
  lemma {:induction false} ChainedAppend<H>(h: H, ms: seq<H -> H>, m: H -> H)
    ensures Chained(h, ms + [m]) == Chained(m(h), ms)
    decreases |ms|
  {
    if ms == [] {
      assert ms + [m] == [m];
      assert [m][1..] == [];
    } else {
      assert (ms + [m])[1..] == ms[1..] + [m];
      ChainedAppend(h, ms[1..], m);
    }
  }

  /** The middleware that records its name in front of the trace it wraps. */
  function Tag(name: string): seq<string> -> seq<string> {
    (trace: seq<string>) => [name] + trace
  }

  function Tags(names: seq<string>): (r: seq<seq<string> -> seq<string>>)
    ensures |r| == |names| && forall i :: 0 <= i < |names| ==> r[i] == Tag(names[i])
  {
    seq(|names|, i requires 0 <= i < |names| => Tag(names[i]))
  }

  /** Each middleware runs exactly once, in the order given, the first one
      outermost. */
  lemma {:induction false} ChainOrder(base: seq<string>, names: seq<string>)
    ensures Chained(base, Tags(names)) == names + base
    decreases |names|
  {
    if names != [] {
      assert Tags(names)[1..] == Tags(names[1..]);
      ChainOrder(base, names[1..]);
      assert names + base == [names[0]] + (names[1..] + base);
    }
  }

  // -------------------------------------------------------------- netutil.go

  /** A parsed address: net.ParseIP's result after To4, so an IPv4-mapped IPv6
      address is a V4. */
  datatype IP = V4(octets: seq<Byte>) | V6(bytes: seq<Byte>)

  predicate WellFormedIP(ip: IP) {
    match ip
    case V4(o) => |o| == 4
    case V6(b) => |b| == 16
  }

  function Octets(ip: IP): seq<Byte> {
    match ip
    case V4(o) => o
    case V6(b) => b
  }

  /** A CIDR block: the network address and the prefix length in bits. */
  datatype Block = Block(net: IP, bits: nat)

  /** IPNet.Contains: same family, and the first `bits` bits agree (whole
      bytes, then the leading bits of the next byte). */
  predicate Contains(b: Block, ip: IP) {
    var n := Octets(b.net);
    var a := Octets(ip);
    var whole := b.bits / 8;
    var rest := b.bits % 8;
    b.net.V4? == ip.V4? && |n| == |a| && b.bits <= 8 * |n|
    && n[..whole] == a[..whole]
    && (rest != 0 ==> whole < |n| && a[whole] as int / Text.Pow2(8 - rest) == n[whole] as int / Text.Pow2(8 - rest))
  }

  function Zeros(n: nat): (r: seq<Byte>)
    ensures |r| == n && forall i :: 0 <= i < n ==> r[i] == 0
  {
    seq(n, _ => 0)
  }

  /** The blocks IsPrivate checks, in its order. */
  const PrivateBlocks: seq<Block> := [
    Block(V4([10, 0, 0, 0]), 8),
    Block(V4([172, 16, 0, 0]), 12),
    Block(V4([192, 168, 0, 0]), 16),
    Block(V4([127, 0, 0, 0]), 8),
    Block(V4([169, 254, 0, 0]), 16),
    Block(V6(Zeros(15) + [1]), 128),
    Block(V6([0xfc] + Zeros(15)), 7),
    Block(V6([0xfe, 0x80] + Zeros(14)), 10)
  ]

  /** The private ranges written out: the RFC 1918 networks, loopback, IPv4
      link-local, and IPv6 loopback, unique-local and link-local. */
  predicate InPrivateRange(ip: IP) {
    match ip
    case V4(o) =>
      |o| == 4 &&
      (o[0] == 10 || (o[0] == 172 && 16 <= o[1] < 32) || (o[0] == 192 && o[1] == 168)
       || o[0] == 127 || (o[0] == 169 && o[1] == 254))
    case V6(b) =>
      |b| == 16 &&
      (b == Zeros(15) + [1] || b[0] == 0xfc || b[0] == 0xfd || (b[0] == 0xfe && 0x80 <= b[1] < 0xc0))
  }

  predicate InPrivateBlock(ip: IP) {
    exists i :: 0 <= i < |PrivateBlocks| && Contains(PrivateBlocks[i], ip)
  }

  /** The block table and the written-out ranges agree on every address. */
  lemma PrivateBlocksAreRanges(ip: IP)
    requires WellFormedIP(ip)
    ensures InPrivateBlock(ip) <==> InPrivateRange(ip)
  {
    if ip.V4? {
      PrivateV4(ip);
    } else {
      PrivateV6(ip);
    }
  }

  lemma PrivateV4(ip: IP)
    requires ip.V4? && |ip.octets| == 4
    ensures InPrivateBlock(ip) <==> InPrivateRange(ip)
  {
    assert Text.Pow2(4) == 16;
    var a := ip.octets;
    assert Contains(PrivateBlocks[0], ip) <==> a[0] == 10;
    assert Contains(PrivateBlocks[1], ip) <==> a[0] == 172 && 16 <= a[1] < 32;
    assert Contains(PrivateBlocks[2], ip) <==> a[0] == 192 && a[1] == 168;
    assert Contains(PrivateBlocks[3], ip) <==> a[0] == 127;
    assert Contains(PrivateBlocks[4], ip) <==> a[0] == 169 && a[1] == 254;
    forall i | 5 <= i < |PrivateBlocks| ensures !Contains(PrivateBlocks[i], ip) { }
  }

  lemma PrivateV6(ip: IP)
    requires ip.V6? && |ip.bytes| == 16
    ensures InPrivateBlock(ip) <==> InPrivateRange(ip)
  {
    assert Text.Pow2(1) == 2 && Text.Pow2(6) == 64;
    var a := ip.bytes;
    forall i | 0 <= i < 5 ensures !Contains(PrivateBlocks[i], ip) { }
    assert Contains(PrivateBlocks[5], ip) <==> a == Zeros(15) + [1];
    assert Contains(PrivateBlocks[6], ip) <==> a[0] == 0xfc || a[0] == 0xfd;
    assert Contains(PrivateBlocks[7], ip) <==> a[0] == 0xfe && 0x80 <= a[1] < 0xc0;
  }

  /** What IsPrivate decides: the text parses and lies in one of the blocks. */
  predicate Private(s: string, parse: string -> Option<IP>) {
    parse(s).Some? && InPrivateBlock(parse(s).value)
  }

  /** IsPrivate: false for text that does not parse, otherwise a scan of the
      blocks that stops at the first containing one. */
  method IsPrivate(s: string, parse: string -> Option<IP>) returns (r: bool)
    ensures r <==> Private(s, parse)
    ensures parse(s).None? ==> !r
  {
    var parsed := parse(s);
    if parsed.None? {
      return false;
    }
    var blocks := PrivateBlocks;
    for i := 0 to |blocks|
      invariant forall j :: 0 <= j < i ==> !Contains(blocks[j], parsed.value)
    {
      if Contains(blocks[i], parsed.value) {
        return true;
      }
    }
    return false;
  }

  /** The first X-Forwarded-For entry that, trimmed, is neither empty nor private. */
  function FirstPublic(entries: seq<string>, parse: string -> Option<IP>): (r: Option<string>)
    ensures r.None? <==>
              forall i :: 0 <= i < |entries| ==>
                Text.TrimSpace(entries[i]) == "" || Private(Text.TrimSpace(entries[i]), parse)
    ensures r.Some? ==>
              exists i :: 0 <= i < |entries| && r.value == Text.TrimSpace(entries[i])
                && r.value != "" && !Private(r.value, parse)
                && forall j :: 0 <= j < i ==>
                     Text.TrimSpace(entries[j]) == "" || Private(Text.TrimSpace(entries[j]), parse)
    decreases |entries|
  {
    if entries == [] then None
    else
      var ip := Text.TrimSpace(entries[0]);
      if ip != "" && !Private(ip, parse) then Some(ip)
      else
        var r := FirstPublic(entries[1..], parse);
        assert forall i :: 1 <= i < |entries| ==> entries[i] == entries[1..][i - 1];
        if r.Some? then
          assert exists i :: 1 <= i < |entries| && r.value == Text.TrimSpace(entries[i])
                   && forall j :: 0 <= j < i ==>
                        Text.TrimSpace(entries[j]) == "" || Private(Text.TrimSpace(entries[j]), parse);
          r
        else r
  }

  /** The address GetClientIP reports: the forwarded chain first, then
      X-Real-IP, then the host of RemoteAddr; "" when all are private or absent. */
  function ClientIP(req: Request, parse: string -> Option<IP>, splitHost: string -> Option<string>): string {
    var xff := Get(req.header, "X-Forwarded-For");
    var forwarded := if xff != "" then FirstPublic(Text.Split(xff, ','), parse) else None;
    if forwarded.Some? then forwarded.value
    else
      var xrip := Text.TrimSpace(Get(req.header, "X-Real-IP"));
      if xrip != "" && !Private(xrip, parse) then xrip
      else
        match splitHost(Text.TrimSpace(req.remoteAddr))
        case Some(host) => if !Private(host, parse) then host else ""
        case None => ""
  }

  /** GetClientIP: scans the forwarded entries left to right, then falls back. */
  method GetClientIP(req: Request, parse: string -> Option<IP>, splitHost: string -> Option<string>)
    returns (ip: string)
    ensures ip == ClientIP(req, parse, splitHost)
  {
    var xff := Get(req.header, "X-Forwarded-For");
    if xff != "" {
      var ips := Text.Split(xff, ',');
      for i := 0 to |ips|
        invariant FirstPublic(ips, parse) == FirstPublic(ips[i..], parse)
      {
        var candidate := Text.TrimSpace(ips[i]);
        assert ips[i..][1..] == ips[i + 1..];
        var priv := IsPrivate(candidate, parse);
        if candidate != "" && !priv {
          return candidate;
        }
      }
    }
    var xrip := Text.TrimSpace(Get(req.header, "X-Real-IP"));
    var xripPrivate := IsPrivate(xrip, parse);
    if xrip != "" && !xripPrivate {
      return xrip;
    }
    var host := splitHost(Text.TrimSpace(req.remoteAddr));
    if host.Some? {
      var hostPrivate := IsPrivate(host.value, parse);
      if !hostPrivate {
        return host.value;
      }
    }
    return "";
  }

  /** Whatever GetClientIP reports is never a private address. */
  lemma ClientIPNotPrivate(req: Request, parse: string -> Option<IP>, splitHost: string -> Option<string>)
    ensures ClientIP(req, parse, splitHost) != "" ==> !Private(ClientIP(req, parse, splitHost), parse)
  {
    var xff := Get(req.header, "X-Forwarded-For");
    if xff != "" {
      var r := FirstPublic(Text.Split(xff, ','), parse);
    }
  }

  /** A lone forwarded entry that does not parse as an address is reported as
      it stands: "not private" is all that is checked. */
  lemma UnparsableEntryReported(req: Request, parse: string -> Option<IP>, splitHost: string -> Option<string>)
    requires Get(req.header, "X-Forwarded-For") != "" && ',' !in Get(req.header, "X-Forwarded-For")
    requires Text.TrimSpace(Get(req.header, "X-Forwarded-For")) == Get(req.header, "X-Forwarded-For")
    requires parse(Get(req.header, "X-Forwarded-For")).None?
    ensures ClientIP(req, parse, splitHost) == Get(req.header, "X-Forwarded-For")
  {
    var xff := Get(req.header, "X-Forwarded-For");
    assert Text.Split(xff, ',') == [xff];
  }
}
