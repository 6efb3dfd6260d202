/** What the HTTP handlers of both generations have in common: the reply they
    write, the problem document an error becomes (`util.JSONErrResponse`), the
    request-body complaint of `util.ParseJSONBody`, `strconv.ParseUint(s, 10, 16)`
    and the path-parameter rules of the ports endpoint, which the two
    generations share word for word. */
module Http {
  import opened Util
  import opened Errors

  /** What a handler writes after the status line: nothing, a JSON document, or a
      problem document `{"message": …}`. */
  datatype Body<T> = NoBody | Json(value: T) | Problem(message: string)

  /** A response. `Dropped` is a handler that panicked: net/http recovers and
      closes the connection without answering. */
  datatype Reply<T> = Reply(status: int, body: Body<T>) | Dropped

  /** `util.JSONErrResponse` (webspaced/pkg/util/util.go): the error's text as the
      problem document; the status 0 means "derive it from the error". */
  function ErrResponse<T>(err: Error, status: int): (r: Reply<T>)
    ensures r.Reply? && r.body == Problem(Message(err))
    ensures status != 0 ==> r.status == status
    ensures status == 0 ==> r.status >= 400
  {
    Reply(if status == 0 then ErrToStatus(err) else status, Problem(Message(err)))
  }

  /** A derived status only depends on the sentinel at the bottom of the error's
      wrapping chain; an error without one is a server error. */
  lemma ErrResponseByRoot<T>(err: Error)
    ensures (ErrResponse<T>(err, 0)).status
            == (match RootOf(err) case Some(s) => SentinelStatus(s) case None => 500)
  {
    ErrToStatusByRoot(err);
  }

  /** The reply of `util.ParseJSONBody` when the body does not decode. */
  function BodyError<T>(decodeError: Error): (r: Reply<T>)
    ensures r.Reply? && r.status == 400
    ensures r.body == Problem("failed to parse request body: " + Message(decodeError))
  {
    ErrResponse(Wrap("failed to parse request body: ", decodeError), 400)
  }

  // ---------------------------------------------------------------------------
  // Port numbers in paths

  /** `strconv.ParseUint(s, 10, 16)`: one or more decimal digits, no sign, no
      separators, at most 65535 (leading zeros are accepted). */
  function ParseUint16(s: string): Option<uint16>
  {
    if s != [] && AllDigits(s) && DigitsValue(s) < 65536 then Some(DigitsValue(s)) else None
  }

  /** Every port number reads back from its decimal form. */
  lemma ParseUint16RoundTrip(p: uint16)
    ensures ParseUint16(DecimalString(p)) == Some(p)
  {
    DecimalRoundTrip(p);
  }

  /** A number read is a number in range, and one that has a decimal form of its
      own reads from it. */
  lemma ParseUint16Range(s: string)
    ensures ParseUint16(s).Some? ==> 0 <= ParseUint16(s).value < 65536 && AllDigits(s)
    ensures ParseUint16(s).Some? ==> ParseUint16(DecimalString(ParseUint16(s).value)) == ParseUint16(s)
  {
    if ParseUint16(s).Some? {
      ParseUint16RoundTrip(ParseUint16(s).value);
    }
  }

  /** A missing path variable reads as the empty string, as a Go map lookup does. */
  function Var(vars: map<string, string>, name: string): string {
    if name in vars then vars[name] else ""
  }

  /** A port forward request: explicit (`/ports/{ePort}/{iPort}`) or implicit
      (`/ports/{port}`). */
  datatype PortRequest = PortRequest(explicit: bool, external: uint16, internal: uint16)

  /** The parameter handling of `apiWebspacePorts`: an explicit request names both
      ports; an implicit one names the internal port, which a `DELETE` also takes
      as the external one while any other method asks for an external port to be
      chosen (0). `None` is the bad-port reply: an unparsable number, or an explicit
      external port 0. */
  function ParsePortRequest(verb: string, vars: map<string, string>): (r: Option<PortRequest>)
    ensures r.Some? ==> (r.value.explicit <==> "ePort" in vars)
    ensures r.Some? && r.value.explicit ==> r.value.external != 0
    ensures r.Some? && !r.value.explicit && verb != "DELETE" ==> r.value.external == 0
    ensures r.Some? && !r.value.explicit && verb == "DELETE" ==> r.value.external == r.value.internal
  {
    var explicit := "ePort" in vars;
    var eStr := if explicit then vars["ePort"] else if verb == "DELETE" then Var(vars, "port") else "0";
    var iStr := if explicit then Var(vars, "iPort") else Var(vars, "port");
    var e := ParseUint16(eStr);
    var i := ParseUint16(iStr);
    if e.None? || i.None? || (explicit && e.value == 0) then None
    else Some(PortRequest(explicit, e.value, i.value))
  }

  /** `/ports/{ePort}/{iPort}` with two port numbers is the explicit request for
      them, unless the external one is 0. */
  lemma ExplicitPortRequest(verb: string, e: uint16, i: uint16)
    ensures ParsePortRequest(verb, map["ePort" := DecimalString(e), "iPort" := DecimalString(i)])
            == if e == 0 then None else Some(PortRequest(true, e, i))
  {
    ParseUint16RoundTrip(e);
    ParseUint16RoundTrip(i);
  }

  /** `/ports/{port}`: a `DELETE` removes the forward on that external port, any
      other method asks for a forward to that internal port. */
  lemma ImplicitPortRequest(verb: string, p: uint16)
    ensures ParsePortRequest(verb, map["port" := DecimalString(p)])
            == Some(PortRequest(false, if verb == "DELETE" then p else 0, p))
  {
    ParseUint16RoundTrip(p);
    assert DigitsValue("0") == 0;
  }

  /** A parameter that is not a port number is refused, whatever the other one. */
  lemma BadPortRefused(verb: string, vars: map<string, string>)
    requires "ePort" in vars ==> ParseUint16(vars["ePort"]).None? || ParseUint16(Var(vars, "iPort")).None?
    requires "ePort" !in vars ==> ParseUint16(Var(vars, "port")).None?
    ensures ParsePortRequest(verb, vars).None?
  {
  }

  /** Numbers the parser refuses: the empty string, a sign, and one past the range. */
  lemma ParseUint16Refuses()
    ensures ParseUint16("") == None && ParseUint16("-1") == None && ParseUint16("+1") == None
    ensures ParseUint16("65536") == None && ParseUint16("65535") == Some(65535)
  {
    assert "65536"[..4] == "6553";
    assert "65535"[..4] == "6553";
    assert "6553"[..3] == "655";
    assert "655"[..2] == "65";
    assert "65"[..1] == "6";
    assert DigitsValue("6") == 6;
    assert DigitsValue("65") == 65;
    assert DigitsValue("655") == 655;
    assert DigitsValue("6553") == 6553;
  }
}
