/** The daemon's side of the passwd / group proxy
    (webspaced/internal/server/pw_gr_proxy.go): each query dials the proxy's
    socket, writes one request packet built in a zeroed 4 KiB buffer, and reads
    the reply into the same buffer. The socket is an oracle: whether the dial and
    the write fail, and what the read returns. */
module PwGrProxy {
  import opened Util
  import opened Errors
  import opened PwGrWire
  import PwGrServer

  /** `make([]byte, 4096)`. */
  const BufSize: nat := 4096

  /** What the socket does during one query. A read of a packet larger than the
      buffer keeps its first 4096 bytes. */
  datatype Conn = Conn(dial: Option<Error>, write: Option<Error>, read: Result<seq<byte>, Error>)

  /** The error Go's `net` package reports for a read of zero bytes on a
      sequenced-packet socket (the peer closed without replying). */
  const EOF: Error := Foreign("EOF")

  /** Go's panic when the request does not fit the buffer; the model reports it
      as an error value. */
  const SliceOutOfRange: Error := Foreign("slice bounds out of range")

  /** The reply as it lands in the buffer, or the read's error. */
  function Reply(read: Result<seq<byte>, Error>): (r: Result<seq<byte>, Error>)
    ensures r.Ok? ==> 1 <= |r.value| <= BufSize
  {
    if read.Err? then Err(read.error)
    else if |read.value| == 0 then Err(EOF)
    else if |read.value| > BufSize then Ok(read.value[..BufSize])
    else Ok(read.value)
  }

  /** The name a GETPWUID reply carries: everything after an ok status. */
  function NameOf(reply: seq<byte>): (r: Result<seq<byte>, Error>)
    requires 1 <= |reply|
  {
    if reply[0] != ResOk then Err(Foreign("pw_gr_proxy GETPWUID returned non-ok status"))
    else Ok(reply[1..])
  }

  /** The answer a USER_IS_MEMBER reply carries: its second byte is 1 for a
      member. A one-byte ok reply leaves the request's own second byte in the
      buffer, and that byte is read instead. */
  function MembershipOf(reply: seq<byte>, request: seq<byte>): (r: Result<bool, Error>)
    requires 1 <= |reply| && 2 <= |request|
  {
    if reply[0] != ResOk then Err(Foreign("pw_gr_proxy USER_IS_MEMBER returned non-ok status"))
    else Ok((if |reply| >= 2 then reply[1] else request[1]) == 1)
  }

  /** `LookupUID`: the packet written (empty when the dial fails) and the user
      name of `uid`. */
  method LookupUID(uid: uint32, conn: Conn) returns (sent: seq<byte>, r: Result<seq<byte>, Error>)
    ensures conn.dial.Some? ==> sent == [] && r == Err(conn.dial.value)
    ensures conn.dial.None? ==> sent == GetPwUidRequest(uid)
    ensures conn.dial.None? && conn.write.Some? ==> r == Err(conn.write.value)
    ensures conn.dial.None? && conn.write.None? ==>
      r == match Reply(conn.read) case Err(e) => Err(e) case Ok(reply) => NameOf(reply)
  {
    if conn.dial.Some? {
      return [], Err(conn.dial.value);
    }
    var buf := new byte[BufSize](_ => 0);
    buf[0] := ReqGetPwUid;
    PutUint32(buf, 1, uid);
    sent := buf[..5];
    assert sent == [ReqGetPwUid] + buf[1..5];
    if conn.write.Some? {
      return sent, Err(conn.write.value);
    }
    var reply := Reply(conn.read);
    if reply.Err? {
      return sent, Err(reply.error);
    }
    var n := Read(buf, reply.value);
    if buf[0] != ResOk {
      return sent, Err(Foreign("pw_gr_proxy GETPWUID returned non-ok status"));
    }
    return sent, Ok(buf[1..n]);
  }

  /** `UserIsMember`: the packet written (empty when the dial fails or the names
      do not fit the buffer) and whether `user` is in `group`. */
  method UserIsMember(user: seq<byte>, group: seq<byte>, conn: Conn) returns (sent: seq<byte>, r: Result<bool, Error>)
    ensures conn.dial.Some? ==> sent == [] && r == Err(conn.dial.value)
    ensures conn.dial.None? && |user| + |group| + 3 > BufSize ==> sent == [] && r == Err(SliceOutOfRange)
    ensures conn.dial.None? && |user| + |group| + 3 <= BufSize ==> sent == MemberRequest(user, group)
    ensures conn.dial.None? && |user| + |group| + 3 <= BufSize && conn.write.Some? ==> r == Err(conn.write.value)
    ensures conn.dial.None? && |user| + |group| + 3 <= BufSize && conn.write.None? ==>
      r == match Reply(conn.read) case Err(e) => Err(e) case Ok(reply) => MembershipOf(reply, sent)
  {
    if conn.dial.Some? {
      return [], Err(conn.dial.value);
    }
    var buf := new byte[BufSize](_ => 0);
    buf[0] := ReqUserIsMember;
    if 1 + |user| + 1 + |group| + 1 > BufSize {
      return [], Err(SliceOutOfRange);
    }
    Copy(buf, 1, user);
    assert buf[..1 + |user|] == [ReqUserIsMember] + user;
    Copy(buf, 1 + |user| + 1, group);
    sent := buf[..1 + |user| + 1 + |group| + 1];
    assert sent == [ReqUserIsMember] + user + [0] + group + [0] by {
      assert sent[..1 + |user|] == buf[..1 + |user|];
      assert sent[1 + |user| + 1..1 + |user| + 1 + |group|] == group;
    }
    if conn.write.Some? {
      return sent, Err(conn.write.value);
    }
    var reply := Reply(conn.read);
    if reply.Err? {
      return sent, Err(reply.error);
    }
    var n := Read(buf, reply.value);
    if buf[0] != ResOk {
      return sent, Err(Foreign("pw_gr_proxy USER_IS_MEMBER returned non-ok status"));
    }
    return sent, Ok(buf[1] == 1);
  }

  /** `hostEndian.PutUint32(buf[at:], v)` with a little-endian host. */
  method PutUint32(buf: array<byte>, at: nat, v: uint32)
    requires at + 4 <= buf.Length
    modifies buf
    ensures buf[at..at + 4] == LittleEndian32(v)
    ensures forall i :: 0 <= i < buf.Length && !(at <= i < at + 4) ==> buf[i] == old(buf[i])
  {
    var le := LittleEndian32(v);
    buf[at], buf[at + 1], buf[at + 2], buf[at + 3] := le[0], le[1], le[2], le[3];
  }

  /** `copy(buf[at:], s)` where `s` fits; the bytes after it are still zero. */
  method Copy(buf: array<byte>, at: nat, s: seq<byte>)
    requires at + |s| < buf.Length
    requires forall i :: at <= i < buf.Length ==> buf[i] == 0
    modifies buf
    ensures buf[at..at + |s|] == s && buf[at + |s|] == 0
    ensures forall i :: 0 <= i < at ==> buf[i] == old(buf[i])
    ensures forall i :: at + |s| <= i < buf.Length ==> buf[i] == 0
  {
    for k := 0 to |s|
      invariant buf[at..at + k] == s[..k]
      invariant forall i :: 0 <= i < at ==> buf[i] == old(buf[i])
      invariant forall i :: at + k <= i < buf.Length ==> buf[i] == 0
    {
      buf[at + k] := s[k];
      assert buf[at..at + k + 1] == buf[at..at + k] + [s[k]];
    }
  }

  /** `c.Read(buf)`: the reply overwrites the front of the buffer and the rest
      keeps the request. */
  method Read(buf: array<byte>, reply: seq<byte>) returns (n: nat)
    requires |reply| <= buf.Length
    modifies buf
    ensures n == |reply| && buf[..n] == reply
    ensures forall i :: n <= i < buf.Length ==> buf[i] == old(buf[i])
  {
    n := |reply|;
    for k := 0 to n
      invariant buf[..k] == reply[..k]
      invariant forall i :: k <= i < buf.Length ==> buf[i] == old(buf[i])
    {
      buf[k] := reply[k];
      assert buf[..k + 1] == buf[..k] + [reply[k]];
    }
  }

  // ---------------------------------------------------------------------------
  // Against the proxy daemon

  /** What the reply decoding makes of each packet the daemon can send: a name
      reply gives back the name, a membership reply its answer, the error reply
      an error. */
  lemma DecodesReplies(name: seq<byte>, isMember: bool, request: seq<byte>)
    requires |request| >= 2
    ensures NameOf(NameReply(name)) == Ok(name)
    ensures MembershipOf(MemberReply(isMember), request) == Ok(isMember)
    ensures NameOf(ErrorReply).Err? && MembershipOf(ErrorReply, request).Err?
  {
    assert NameReply(name)[1..] == name;
  }

  /** A passwd lookup answered by the proxy daemon yields the user's name, or an
      error for an unknown uid. */
  lemma LookupAgainstDaemon(dir: PwGrServer.Directory, uid: uint32)
    requires uid in dir.passwd ==> |dir.passwd[uid]| < BufSize
    ensures var out := PwGrServer.Serve(GetPwUidRequest(uid), dir);
      out.Send? &&
      Reply(Ok(out.packet)) == Ok(out.packet) &&
      (uid in dir.passwd <==> NameOf(out.packet).Ok?) &&
      (uid in dir.passwd ==> NameOf(out.packet).value == dir.passwd[uid])
  {
    PwGrServer.ServeLookup(dir, uid);
    DecodesReplies(if uid in dir.passwd then dir.passwd[uid] else [], false, [0, 0]);
  }

  /** A membership query answered by the proxy daemon yields the truth about the
      group's members, or an error for an unknown group. */
  lemma MembershipAgainstDaemon(dir: PwGrServer.Directory, user: CString, group: CString)
    ensures var out := PwGrServer.Serve(MemberRequest(user, group), dir);
      out.Send? &&
      (group in dir.groups <==> MembershipOf(out.packet, MemberRequest(user, group)).Ok?) &&
      (group in dir.groups ==> MembershipOf(out.packet, MemberRequest(user, group)) == Ok(user in dir.groups[group]))
  {
    PwGrServer.ServeMembership(dir, user, group);
  }
}
