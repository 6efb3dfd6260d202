/** The passwd / group proxy daemon (webspaced/pw_gr_proxy.c): `handle_req` reads
    one packet into a 64 KiB stack buffer, answers a passwd lookup or a group
    membership query from the system databases, and writes its reply over the
    same buffer. The databases are the oracles `getpwuid` and `getgrnam`; the
    stack buffer's earlier contents are a parameter, since C does not clear it. */
module PwGrServer {
  import opened Util
  import opened PwGrWire

  /** `sizeof(data)` in `handle_req`. */
  const DataSize: nat := 65536

  /** What `getpwuid` and `getgrnam` know: user names by uid, and the member
      list (`gr_mem`) of each group by name. */
  datatype Directory = Directory(passwd: map<uint32, CString>, groups: map<CString, seq<CString>>)

  /** What `handle_req` does with a packet: nothing (the request is ignored and
      the connection closed), send one reply packet, or read or write outside the
      stack buffer, which C leaves undefined. */
  datatype Outcome = NoReply | Send(packet: seq<byte>) | Undefined

  /** `recv` into the stack buffer: an error or an empty packet ends the request;
      a longer packet is cut to the buffer's size. */
  function Received(recv: Result<seq<byte>, int>): (p: Option<seq<byte>>)
    ensures p.Some? ==> 1 <= |p.value| <= DataSize
  {
    if recv.Err? || |recv.value| == 0 then None
    else if |recv.value| > DataSize then Some(recv.value[..DataSize])
    else Some(recv.value)
  }

  /** The answer to a passwd lookup: the name after the status byte, or the lone
      error status for an unknown uid. `strcpy` writes the name and its terminator
      after the status byte, so a name of more than `DataSize - 2` bytes overruns
      the buffer. */
  function PasswdAnswer(dir: Directory, uid: uint32): Outcome {
    if uid !in dir.passwd then Send(ErrorReply)
    else if 1 + |dir.passwd[uid]| + 1 > DataSize then Undefined
    else Send(NameReply(dir.passwd[uid]))
  }

  /** The answer to a membership query: the lone error status for an unknown
      group, otherwise whether `user` is one of the group's members. */
  function MemberAnswer(dir: Directory, user: seq<byte>, group: seq<byte>): Outcome {
    if !NoNul(group) || group !in dir.groups then Send(ErrorReply)
    else Send(MemberReply(user in dir.groups[group]))
  }

  // ---------------------------------------------------------------------------
  // As written

  /** `handle_req` on a received packet `p` with the stack buffer previously
      holding `stale`: the user and group names are `strlen` scans over the
      whole buffer, which continue past the received bytes into `stale`. */
  function HandleAsWritten(p: seq<byte>, stale: seq<byte>, dir: Directory): Outcome
    requires 1 <= |p| <= DataSize && |stale| == DataSize
  {
    if p[0] == ReqGetPwUid then
      if |p| != 5 then NoReply else PasswdAnswer(dir, Uint32Of(p[1..5]))
    else if p[0] == ReqUserIsMember then
      var buf := p + stale[|p|..];
      match NulFrom(buf, 1)
      case None => Undefined
      case Some(j) =>
        match NulFrom(buf, j + 1)
        case None => Undefined
        case Some(k) => MemberAnswer(dir, buf[1..j], buf[j + 1..k])
    else NoReply
  }

  /** `handle_req`, step by step over the stack buffer `data`, which starts out
      holding `stale` and into which `recv` writes the packet. */
  method HandleReq(recv: Result<seq<byte>, int>, stale: seq<byte>, dir: Directory) returns (out: Outcome)
    requires |stale| == DataSize
    ensures Received(recv).None? ==> out == NoReply
    ensures Received(recv).Some? ==> out == HandleAsWritten(Received(recv).value, stale, dir)
  {
    var received := Received(recv);
    if received.None? {
      return NoReply;
    }
    var p := received.value;
    var n := |p|;
    var data := new byte[DataSize](i requires 0 <= i < DataSize => if i < n then p[i] else stale[i]);
    assert data[..] == p + stale[n..];
    var reqType := data[0];
    if reqType == ReqGetPwUid {
      if n != 5 {
        return NoReply;
      }
      assert data[1..5] == p[1..5];
      var uid := Uint32Of(data[1..5]);
      if uid !in dir.passwd {
        return Send([ResErr]);
      }
      var name := dir.passwd[uid];
      if 1 + |name| + 1 > DataSize {
        return Undefined;
      }
      data[0] := ResOk;
      CopyName(data, name);
      return Send(data[..1 + |name|]);
    } else if reqType == ReqUserIsMember {
      var userEnd := Strlen(data, 1);
      if userEnd.None? {
        return Undefined;
      }
      var j := userEnd.value;
      var groupEnd := Strlen(data, j + 1);
      if groupEnd.None? {
        return Undefined;
      }
      var k := groupEnd.value;
      var username := data[1..j];
      var group := data[j + 1..k];
      if group !in dir.groups {
        return Send([ResErr]);
      }
      var isMember := Contains(dir.groups[group], username);
      data[0] := ResOk;
      data[1] := if isMember then 1 else 0;
      return Send(data[..2]);
    }
    return NoReply;
  }

  /** `strlen(data + i)`, as the index of the terminator; None when the scan
      would leave the buffer. */
  method Strlen(data: array<byte>, i: nat) returns (end: Option<nat>)
    requires i <= data.Length
    ensures end == NulFrom(data[..], i)
  {
    var j := i;
    while j < data.Length && data[j] != 0
      invariant i <= j <= data.Length && NoNul(data[i..j])
    {
      assert data[i..j + 1] == data[i..j] + [data[j]];
      j := j + 1;
    }
    if j == data.Length {
      NoNulTail(data[..], i);
      return None;
    }
    assert data[..][i..j] == data[i..j];
    NulFromAfter(data[..], i, j);
    return Some(j);
  }

  /** `strcpy(data + 1, name)`: the name and then its terminator; the reply keeps
      the bytes before the terminator. */
  method CopyName(data: array<byte>, name: seq<byte>)
    requires 1 + |name| + 1 <= data.Length && data[0] == ResOk
    modifies data
    ensures data[..1 + |name|] == NameReply(name) && data[1 + |name|] == 0
    ensures data[1 + |name| + 1..] == old(data[1 + |name| + 1..])
  {
    for i := 0 to |name|
      invariant data[0] == ResOk && data[1..1 + i] == name[..i]
      invariant data[1 + |name|..] == old(data[1 + |name|..])
    {
      data[1 + i] := name[i];
      assert data[1..1 + i + 1] == data[1..1 + i] + [name[i]];
    }
    data[1 + |name|] := 0;
    assert data[..1 + |name|] == [ResOk] + data[1..1 + |name|];
  }

  /** The walk over `gr_mem`, stopping at the first entry equal to the user. */
  method Contains(members: seq<CString>, username: seq<byte>) returns (isMember: bool)
    ensures isMember <==> username in members
  {
    for m := 0 to |members|
      invariant username !in members[..m]
    {
      if members[m] == username {
        return true;
      }
      assert members[..m + 1] == members[..m] + [members[m]];
    }
    assert members[..|members|] == members;
    return false;
  }

  /** A buffer with no NUL from `i` on leaves `strlen` nothing to find there. */
  lemma NoNulTail(buf: seq<byte>, i: nat)
    requires i <= |buf| && NoNul(buf[i..])
    ensures NulFrom(buf, i) == None
  {
  }

  // ---------------------------------------------------------------------------
  // As intended

  /** `handle_req` reading only the bytes it received: a request that does not
      parse is ignored. */
  function Serve(p: seq<byte>, dir: Directory): Outcome {
    match ParseRequest(p)
    case None => NoReply
    case Some(GetPwUid(uid)) => PasswdAnswer(dir, uid)
    case Some(UserIsMember(user, group)) => MemberAnswer(dir, user, group)
  }

  /** On every packet that carries its own terminators, and on every packet that
      is not a membership query, the code as written answers as intended,
      whatever the stack held before. */
  lemma AsWrittenAgrees(p: seq<byte>, stale: seq<byte>, dir: Directory)
    requires 1 <= |p| <= DataSize && |stale| == DataSize
    requires p[0] != ReqUserIsMember || ParseRequest(p).Some?
    ensures HandleAsWritten(p, stale, dir) == Serve(p, dir)
  {
    if p[0] == ReqUserIsMember {
      var buf := p + stale[|p|..];
      var j := NulFrom(p, 1).value;
      var k := NulFrom(p, j + 1).value;
      assert buf[1..j] == p[1..j] && buf[j] == 0;
      NulFromAfter(buf, 1, j);
      assert buf[j + 1..k] == p[j + 1..k] && buf[k] == 0;
      NulFromAfter(buf, j + 1, k);
    }
  }

  /** A membership query whose names lack their terminators is answered from
      whatever the stack buffer held: the packet `[1, 'r']` is answered "unknown
      group" over a zeroed buffer and "not a member" over one that still holds
      `[.., .., .., 'g', 0, ..]` from an earlier call, when group "g" exists. */
  lemma StaleBytesDecide()
    ensures var p: seq<byte> := [ReqUserIsMember, 114];
      var zeroed := seq(DataSize, i => 0);
      var dirty := zeroed[3 := 103];
      var dir := Directory(map[], map[[103] := []]);
      ParseRequest(p) == None && Serve(p, dir) == NoReply &&
      HandleAsWritten(p, zeroed, dir) == Send(ErrorReply) &&
      HandleAsWritten(p, dirty, dir) == Send(MemberReply(false))
  {
    var p: seq<byte> := [ReqUserIsMember, 114];
    var zeroed: seq<byte> := seq(DataSize, i => 0);
    var dirty := zeroed[3 := 103];
    NulFromAfter(p + zeroed[2..], 1, 2);
    NulFromAfter(p + zeroed[2..], 3, 3);
    assert (p + zeroed[2..])[3..3] == [];
    NulFromAfter(p + dirty[2..], 1, 2);
    assert (p + dirty[2..])[3..4] == [103];
    NulFromAfter(p + dirty[2..], 3, 4);
    assert NulFrom(p, 2) == None;
    assert NulFrom(p, 1) == None;
  }

  /** The intended server answers the daemon's passwd lookup with the user's
      name, or with the error status for an unknown uid. */
  lemma ServeLookup(dir: Directory, uid: uint32)
    ensures Serve(GetPwUidRequest(uid), dir)
            == if uid !in dir.passwd then Send(ErrorReply)
               else if |dir.passwd[uid]| + 2 > DataSize then Undefined
               else Send(NameReply(dir.passwd[uid]))
  {
    ParseEncode(GetPwUid(uid));
  }

  /** The intended server answers the daemon's membership query with the truth
      about the group's member list, or with the error status for an unknown
      group. */
  lemma ServeMembership(dir: Directory, user: CString, group: CString)
    ensures Serve(MemberRequest(user, group), dir)
            == if group in dir.groups then Send(MemberReply(user in dir.groups[group])) else Send(ErrorReply)
  {
    ParseEncode(UserIsMember(user, group));
  }
}
