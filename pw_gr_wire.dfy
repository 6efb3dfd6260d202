/** The wire format of the passwd / group proxy (webspaced/internal/server/pw_gr_proxy.go
    and webspaced/pw_gr_proxy.c): one sequenced packet per request and one per
    reply over a Unix socket. A request starts with its type; a reply starts with
    its status. Names travel as bytes, as C strings and Go strings both are. */
module PwGrWire {
  import opened Util

  const ReqGetPwUid: byte := 0
  const ReqUserIsMember: byte := 1
  const ResOk: byte := 0
  const ResErr: byte := 1

  /** Go's `uint32` and C's `uid_t`. */
  type uint32 = x: int | 0 <= x < 0x1_0000_0000

  predicate NoNul(s: seq<byte>) {
    forall i :: 0 <= i < |s| ==> s[i] != 0
  }

  /** What a C string holds: bytes without a terminator among them. */
  type CString = s: seq<byte> | NoNul(s) witness []

  // ---------------------------------------------------------------------------
  // uid in host (little-endian) order

  /** `binary.LittleEndian.PutUint32`: least significant byte first (the value
      shifted right by 0, 8, 16 and 24 bits). */
  function LittleEndian32(v: uint32): (b: seq<byte>)
    ensures |b| == 4
  {
    [v % 256, v / 256 % 256, v / 256 / 256 % 256, v / 256 / 256 / 256]
  }

  /** Reading a `uid_t` out of four bytes on a little-endian host. */
  function Uint32Of(b: seq<byte>): uint32
    requires |b| == 4
  {
    b[0] as int + 256 * (b[1] as int + 256 * (b[2] as int + 256 * b[3] as int))
  }

  lemma SplitByte(x: int, lo: byte, hi: int)
    requires x == lo + 256 * hi
    ensures x % 256 == lo && x / 256 == hi
  {
  }

  lemma Uint32RoundTrip(v: uint32)
    ensures Uint32Of(LittleEndian32(v)) == v
  {
    var q1 := v / 256;
    var q2 := q1 / 256;
    assert q1 == q1 % 256 + 256 * q2;
    assert q2 == q2 % 256 + 256 * (q2 / 256);
  }

  lemma BytesRoundTrip(b: seq<byte>)
    requires |b| == 4
    ensures LittleEndian32(Uint32Of(b)) == b
  {
    var q2: int := b[2] as int + 256 * b[3] as int;
    var q1: int := b[1] as int + 256 * q2;
    SplitByte(Uint32Of(b), b[0], q1);
    SplitByte(q1, b[1], q2);
    SplitByte(q2, b[2], b[3]);
  }

  // ---------------------------------------------------------------------------
  // Packets

  /** A passwd lookup: the type, then the uid. */
  function GetPwUidRequest(uid: uint32): (p: seq<byte>)
    ensures |p| == 5 && p[0] == ReqGetPwUid
  {
    [ReqGetPwUid] + LittleEndian32(uid)
  }

  /** A membership query: the type, then the user and the group, each terminated. */
  function MemberRequest(user: seq<byte>, group: seq<byte>): (p: seq<byte>)
    ensures |p| == |user| + |group| + 3 && p[0] == ReqUserIsMember
  {
    [ReqUserIsMember] + user + [0] + group + [0]
  }

  /** `send_error`: the status alone. */
  const ErrorReply: seq<byte> := [ResErr]

  /** A found passwd entry: the status, then the name without its terminator. */
  function NameReply(name: seq<byte>): (p: seq<byte>)
    ensures |p| == 1 + |name| && p[0] == ResOk && p[1..] == name
  {
    [ResOk] + name
  }

  /** A membership answer: the status, then 1 for a member and 0 otherwise. */
  function MemberReply(isMember: bool): (p: seq<byte>)
    ensures |p| == 2 && p[0] == ResOk && (p[1] == 1 <==> isMember)
  {
    [ResOk, if isMember then 1 else 0]
  }

  /** The uid a passwd request carries is the one it was built from. */
  lemma GetPwUidRequestRoundTrip(uid: uint32)
    ensures Uint32Of(GetPwUidRequest(uid)[1..5]) == uid
  {
    assert GetPwUidRequest(uid)[1..5] == LittleEndian32(uid);
    Uint32RoundTrip(uid);
  }

  // ---------------------------------------------------------------------------
  // Requests as values

  /** The two questions the proxy answers. */
  datatype Request = GetPwUid(uid: uint32) | UserIsMember(user: CString, group: CString)

  /** The packet the daemon sends for a request. */
  function Encode(r: Request): (p: seq<byte>)
    ensures |p| >= 3
  {
    match r
    case GetPwUid(uid) => GetPwUidRequest(uid)
    case UserIsMember(user, group) => MemberRequest(user, group)
  }

  /** `strlen` started at `i`: the index of the first NUL at or after `i`, or
      None when the bytes run out before one. */
  function NulFrom(buf: seq<byte>, i: nat): (r: Option<nat>)
    requires i <= |buf|
    ensures r.Some? ==> i <= r.value < |buf| && buf[r.value] == 0 && NoNul(buf[i..r.value])
    ensures r.None? ==> NoNul(buf[i..])
    decreases |buf| - i
  {
    if i == |buf| then None
    else if buf[i] == 0 then Some(i)
    else
      var r := NulFrom(buf, i + 1);
      assert r.Some? ==> buf[i..r.value] == [buf[i]] + buf[i + 1..r.value];
      assert buf[i..] == [buf[i]] + buf[i + 1..];
      r
  }

  /** `NulFrom` finds the terminator that follows a NUL-free run. */
  lemma {:induction false} NulFromAfter(buf: seq<byte>, i: nat, j: nat)
    requires i <= j < |buf| && NoNul(buf[i..j]) && buf[j] == 0
    ensures NulFrom(buf, i) == Some(j)
    decreases j - i
  {
    if i < j {
      assert buf[i] == buf[i..j][0];
      assert buf[i + 1..j] == buf[i..j][1..];
      NulFromAfter(buf, i + 1, j);
    }
  }

  /** What a well-behaved reader makes of a packet: the request it encodes, read
      only from the bytes received. The user and group must each end with a NUL
      inside the packet; anything after the group's terminator is ignored. */
  function ParseRequest(p: seq<byte>): (r: Option<Request>)
  {
    if |p| == 0 then None
    else if p[0] == ReqGetPwUid then
      if |p| == 5 then Some(GetPwUid(Uint32Of(p[1..5]))) else None
    else if p[0] == ReqUserIsMember then
      match NulFrom(p, 1)
      case None => None
      case Some(j) =>
        match NulFrom(p, j + 1)
        case None => None
        case Some(k) => Some(UserIsMember(p[1..j], p[j + 1..k]))
    else None
  }

  /** Every request the daemon encodes is read back as itself. */
  lemma ParseEncode(r: Request)
    ensures ParseRequest(Encode(r)) == Some(r)
  {
    match r
    case GetPwUid(uid) =>
      GetPwUidRequestRoundTrip(uid);
    case UserIsMember(user, group) =>
      var p := Encode(r);
      var j := 1 + |user|;
      var k := j + 1 + |group|;
      assert p[1..j] == user && p[j] == 0;
      assert p[j + 1..k] == group && p[k] == 0;
      NulFromAfter(p, 1, j);
      NulFromAfter(p, j + 1, k);
  }

  /** Conversely, whatever a packet is read as, its encoding is what the packet
      starts with: exactly the packet for a passwd lookup, a prefix of it for a
      membership query. */
  lemma ParseSound(p: seq<byte>)
    requires ParseRequest(p).Some?
    ensures var r := ParseRequest(p).value;
      (r.GetPwUid? ==> Encode(r) == p) && |Encode(r)| <= |p| && p[..|Encode(r)|] == Encode(r)
  {
    var r := ParseRequest(p).value;
    if r.GetPwUid? {
      BytesRoundTrip(p[1..5]);
      assert p == [p[0]] + p[1..5];
    } else {
      var j := NulFrom(p, 1).value;
      var k := NulFrom(p, j + 1).value;
      assert p[..k + 1] == [p[0]] + p[1..j] + [0] + p[j + 1..k] + [0];
    }
  }
}
