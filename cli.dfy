/** The command-line client's helpers (cli/webspace_cli/commands.py): the yes/no
    prompt `ask`, the image lookup `find_image`, the HTTP helper `Client.req`
    and the request body `init` sends. Terminal input, the password prompts and
    the HTTP transport are parameters: the lines typed, the passwords entered and
    the daemon's response. */
module Cli {
  import opened Util

  /** A JSON value as `requests` decodes it. */
  datatype Json =
    | JNull | JBool(b: bool) | JNum(n: int) | JStr(s: string)
    | JArr(items: seq<Json>) | JObj(fields: map<string, Json>)

  // ---------------------------------------------------------------------------
  // ask

  /** The accepted answers and what they mean. */
  function Valid(choice: string): Option<bool> {
    if choice in {"yes", "y", "ye"} then Some(true)
    else if choice in {"no", "n"} then Some(false)
    else None
  }

  /** What one typed line decides under `default` (Python's None is `None`):
      an empty line takes the default when there is one, a valid answer its
      meaning, anything else asks again. */
  function Decide(line: string, default: Option<string>): Option<bool>
    requires default.Some? ==> default.value in {"yes", "no"}
  {
    var choice := LowerAscii(line);
    if default.Some? && choice == "" then Valid(default.value)
    else Valid(choice)
  }

  /** How `ask` ends: with an answer after reading `lines` lines, with the
      `ValueError` of a bad default before reading anything, or with the
      end-of-input error of `input()` when every line was rejected. */
  datatype Asked = Answer(yes: bool, lines: nat) | BadDefault | EndOfInput

  /** The answer given by the first line that decides one. */
  function FirstDecided(lines: seq<string>, default: Option<string>): (r: Asked)
    requires default.Some? ==> default.value in {"yes", "no"}
    ensures r.Answer? ==>
      1 <= r.lines <= |lines| && Decide(lines[r.lines - 1], default) == Some(r.yes) &&
      forall i :: 0 <= i < r.lines - 1 ==> Decide(lines[i], default).None?
    ensures r.EndOfInput? ==> forall i :: 0 <= i < |lines| ==> Decide(lines[i], default).None?
    ensures !r.BadDefault?
  {
    if lines == [] then EndOfInput
    else if Decide(lines[0], default).Some? then Answer(Decide(lines[0], default).value, 1)
    else Shift(FirstDecided(lines[1..], default), 1)
  }

  /** An answer found after skipping `k` lines. */
  function Shift(r: Asked, k: nat): Asked {
    if r.Answer? then Answer(r.yes, r.lines + k) else r
  }

  /** `ask(question, default)` with the user typing `lines`. */
  method Ask(default: Option<string>, lines: seq<string>) returns (r: Asked)
    ensures default.Some? && default.value !in {"yes", "no"} ==> r == BadDefault
    ensures default.None? || default.value in {"yes", "no"} ==> r == FirstDecided(lines, default)
  {
    if default.Some? && default.value !in {"yes", "no"} {
      return BadDefault;
    }
    r := AskLines(default, lines);
  }

  /** The input loop of `ask`: read lines until one decides. */
  method AskLines(default: Option<string>, lines: seq<string>) returns (r: Asked)
    requires default.Some? ==> default.value in {"yes", "no"}
    ensures r == FirstDecided(lines, default)
  {
    var i := 0;
    while i < |lines|
      invariant 0 <= i <= |lines|
      invariant FirstDecided(lines, default) == Shift(FirstDecided(lines[i..], default), i)
    {
      FirstDecidedStep(lines, i, default);
      var answer := Decide(lines[i], default);
      if answer.Some? {
        return Answer(answer.value, i + 1);
      }
      i := i + 1;
    }
    return EndOfInput;
  }

  /** The first remaining line either decides or is skipped. */
  lemma FirstDecidedStep(lines: seq<string>, i: nat, default: Option<string>)
    requires i < |lines| && (default.Some? ==> default.value in {"yes", "no"})
    ensures FirstDecided(lines[i..], default)
            == if Decide(lines[i], default).Some? then Answer(Decide(lines[i], default).value, 1)
               else Shift(FirstDecided(lines[i + 1..], default), 1)
  {
    assert lines[i..][1..] == lines[i + 1..];
  }

  /** Answers ignore case; "y", "ye" and "yes" say yes, "n" and "no" say no. */
  lemma AskAnswers(line: string, default: Option<string>)
    requires default.Some? ==> default.value in {"yes", "no"}
    requires LowerAscii(line) in {"yes", "y", "ye", "no", "n"}
    ensures Decide(line, default) == Some(LowerAscii(line) in {"yes", "y", "ye"})
  {
  }

  /** With a default, pressing Enter answers it; without one, Enter asks again. */
  lemma AskEmptyLine(default: Option<string>, rest: seq<string>)
    requires default.Some? ==> default.value in {"yes", "no"}
    ensures default.Some? ==> FirstDecided([""] + rest, default) == Answer(default.value == "yes", 1)
    ensures default.None? ==> FirstDecided([""] + rest, default) == Shift(FirstDecided(rest, default), 1)
  {
    assert ([""] + rest)[1..] == rest;
    assert LowerAscii("") == "";
  }

  // ---------------------------------------------------------------------------
  // find_image

  /** An image as `GET /v1/images` lists it. */
  datatype Image = Image(fingerprint: string, aliases: seq<string>)

  predicate HasAlias(img: Image, id: string) {
    exists a :: 0 <= a < |img.aliases| && img.aliases[a] == id
  }

  /** The index of the first image with alias `id`. */
  function AliasIndex(images: seq<Image>, id: string): (r: Option<nat>)
    ensures r.Some? ==>
      r.value < |images| && HasAlias(images[r.value], id) &&
      forall j :: 0 <= j < r.value ==> !HasAlias(images[j], id)
    ensures r.None? ==> forall j :: 0 <= j < |images| ==> !HasAlias(images[j], id)
  {
    if images == [] then None
    else if HasAlias(images[0], id) then Some(0)
    else
      match AliasIndex(images[1..], id)
      case None => None
      case Some(i) => Some(i + 1)
  }

  /** The index of the first image with fingerprint `id`. */
  function FingerprintIndex(images: seq<Image>, id: string): (r: Option<nat>)
    ensures r.Some? ==>
      r.value < |images| && images[r.value].fingerprint == id &&
      forall j :: 0 <= j < r.value ==> images[j].fingerprint != id
    ensures r.None? ==> forall j :: 0 <= j < |images| ==> images[j].fingerprint != id
  {
    if images == [] then None
    else if images[0].fingerprint == id then Some(0)
    else
      match FingerprintIndex(images[1..], id)
      case None => None
      case Some(i) => Some(i + 1)
  }

  /** The image `id` names: by alias if any image has that alias, otherwise by
      fingerprint. */
  function FindImage(images: seq<Image>, id: string): Option<nat> {
    if AliasIndex(images, id).Some? then AliasIndex(images, id) else FingerprintIndex(images, id)
  }

  /** `find_image`: first a pass over every alias of every image, then a pass
      over the fingerprints, each returning at its first hit. */
  method FindImagePasses(images: seq<Image>, id: string) returns (r: Option<nat>)
    ensures r == FindImage(images, id)
  {
    for i := 0 to |images|
      invariant forall j :: 0 <= j < i ==> !HasAlias(images[j], id)
    {
      var aliases := images[i].aliases;
      for a := 0 to |aliases|
        invariant forall b :: 0 <= b < a ==> aliases[b] != id
      {
        if aliases[a] == id {
          return Some(i);
        }
      }
    }
    for i := 0 to |images|
      invariant forall j :: 0 <= j < i ==> images[j].fingerprint != id
    {
      if images[i].fingerprint == id {
        return Some(i);
      }
    }
    return None;
  }

  /** An alias match wins over a fingerprint match, even a match on an earlier
      image. */
  lemma AliasFirst(images: seq<Image>, id: string, k: nat)
    requires k < |images| && HasAlias(images[k], id)
    ensures FindImage(images, id).Some? && HasAlias(images[FindImage(images, id).value], id)
  {
  }

  // ---------------------------------------------------------------------------
  // Client.req

  /** The daemon's response: its status and its body, which may not be JSON. */
  datatype Response = Response(status: int, body: Option<Json>)

  /** How `req` ends: with the response's JSON (None for 204), or raising the
      daemon's message, `requests`' HTTP error, a JSON decoding error, or the
      `TypeError` of looking up "message" in a JSON value that is not an object. */
  datatype ReqResult =
    | Returned(value: Option<Json>)
    | WebspaceError(message: Json)
    | HttpError(status: int)
    | DecodeError
    | TypeError

  /** The headers `req` sends: `X-Webspace-User` only for a non-empty user. */
  function Headers(user: Option<string>): (h: map<string, string>)
    ensures "X-Webspace-User" in h <==> user.Some? && user.value != ""
    ensures "X-Webspace-User" in h ==> h["X-Webspace-User"] == user.value
  {
    if user.Some? && user.value != "" then map["X-Webspace-User" := user.value] else map[]
  }

  /** `res.raise_for_status()`: raises only for 4xx and 5xx. */
  function RaiseForStatus(status: int): Option<ReqResult> {
    if 400 <= status < 600 then Some(HttpError(status)) else None
  }

  /** What `req` makes of a response. */
  function Req(res: Response): (r: ReqResult)
  {
    var failed :=
      if res.status < 400 then None
      else match res.body
        case None => RaiseForStatus(res.status)
        case Some(JObj(fields)) =>
          if "message" in fields then Some(WebspaceError(fields["message"])) else RaiseForStatus(res.status)
        case Some(_) => Some(TypeError);
    if failed.Some? then failed.value
    else if res.status == 204 then Returned(None)
    else if res.body.None? then DecodeError
    else Returned(res.body)
  }

  /** A failing status raises the daemon's message when the body carries one,
      and `requests`' HTTP error when it is no JSON object with a message. */
  lemma ReqFailure(res: Response)
    requires 400 <= res.status < 600
    ensures res.body.Some? && res.body.value.JObj? && "message" in res.body.value.fields ==>
      Req(res) == WebspaceError(res.body.value.fields["message"])
    ensures res.body.None? || (res.body.value.JObj? && "message" !in res.body.value.fields) ==>
      Req(res) == HttpError(res.status)
    ensures !Req(res).Returned?
  {
  }

  /** A successful status returns nothing for 204 and the decoded body otherwise. */
  lemma ReqSuccess(res: Response)
    requires res.status < 400
    ensures res.status == 204 ==> Req(res) == Returned(None)
    ensures res.status != 204 && res.body.Some? ==> Req(res) == Returned(res.body)
    ensures res.status != 204 && res.body.None? ==> Req(res) == DecodeError
  {
  }

  // ---------------------------------------------------------------------------
  // init

  /** How `init` ends: the body of the create request it sends, or the error it
      raises before sending one. */
  datatype InitResult = Create(body: map<string, Json>) | Refused(message: string)

  /** `init`: look the image up, ask for the password twice unless
      `--no-password`, and send the SSH key. argparse always defines `ssh_key`,
      so `sshKey` is always sent, null when no key was given. */
  method Init(images: seq<Image>, image: string, noPassword: bool, password: string, confirm: string,
              sshKey: Option<string>) returns (r: InitResult)
    ensures FindImage(images, image).None? ==>
      r == Refused("\"" + image + "\" is not a valid image alias / fingerprint")
    ensures FindImage(images, image).Some? && !noPassword && confirm != password ==>
      r == Refused("Passwords don't match!")
    ensures r.Create? <==> FindImage(images, image).Some? && (noPassword || confirm == password)
    ensures r.Create? ==>
      "image" in r.body && "sshKey" in r.body &&
      r.body["image"] == JStr(images[FindImage(images, image).value].fingerprint) &&
      ("password" in r.body <==> !noPassword) &&
      (!noPassword ==> r.body["password"] == JStr(password)) &&
      r.body["sshKey"] == (if sshKey.Some? then JStr(sshKey.value) else JNull) &&
      r.body.Keys <= {"image", "password", "sshKey"}
  {
    var found := FindImagePasses(images, image);
    if found.None? {
      return Refused("\"" + image + "\" is not a valid image alias / fingerprint");
    }
    var body := map["image" := JStr(images[found.value].fingerprint)];
    if !noPassword {
      body := body["password" := JStr(password)];
      if confirm != body["password"].s {
        return Refused("Passwords don't match!");
      }
    }
    body := body["sshKey" := if sshKey.Some? then JStr(sshKey.value) else JNull];
    return Create(body);
  }
}
