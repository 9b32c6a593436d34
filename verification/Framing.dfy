/**
 Response framing: HttpSession::send prints a status line, two header fields
 and a body; a reader that follows sections 4 and 6.3 of RFC 9112 finds the
 responses again in the concatenated output, exactly if each has a status line
 of the right form and none that must not have a body has one.
 */
module Framing {
  import opened Wrappers
  import opened Decimal

  /** What HttpSession::send takes from the message: version and code from its
      head, its body as text. One char stands for one byte. */
  datatype Response = Response(version: string, code: int, body: string)

  const CRLF := "\r\n"
  const JSON := "application/json; charset=utf-8"

  function StatusLine(r: Response, statusName: int -> string): string {
    "HTTP/" + (r.version + (" " + (PrintInt(r.code) + (" " + statusName(r.code)))))
  }

  function TypeLine(): string { "Content-Type" + (":" + (" " + JSON)) }

  function LengthLine(r: Response): string {
    "Content-Length" + (":" + (" " + PrintNat(|r.body|)))
  }

  /** The text given to the connection. */
  function Render(r: Response, statusName: int -> string): string {
    StatusLine(r, statusName) + CRLF + TypeLine() + CRLF + LengthLine(r) + CRLF + "" + CRLF + r.body
  }

  function RenderAll(rs: seq<Response>, statusName: int -> string): string {
    if rs == [] then "" else Render(rs[0], statusName) + RenderAll(rs[1..], statusName)
  }

  // ---------------------------------------------------------------------
  // A reader
  // ---------------------------------------------------------------------

  /** Which codes end at the empty line, and which version and code text make up
      a status line. */
  datatype Rules = Rules(bodyless: int -> bool, valid: (string, string) -> bool)

  /** The first rule of section 6.3: these end at the empty line, whatever the
      header fields say. */
  predicate NoBody(code: int) {
    100 <= code < 200 || code == 204 || code == 304
  }

  /** Section 4: a digit, a point and a digit; and three digits. */
  predicate StatusForm(version: string, code: string) {
    && |version| == 3 && IsDigit(version[0]) && version[1] == '.' && IsDigit(version[2])
    && |code| == 3 && forall c :: c in code ==> IsDigit(c)
  }

  const RFC := Rules(NoBody, StatusForm)
  const LENIENT := Rules(_ => false, (_, _) => true)

  /** Split at the first occurrence of `c`. */
  function Cut(s: string, c: char): (r: Option<(string, string)>)
    ensures r.Some? ==> |r.value.1| < |s|
  {
    if s == "" then None
    else if s[0] == c then Some(("", s[1..]))
    else match Cut(s[1..], c)
      case None => None
      case Some((before, after)) => Some(([s[0]] + before, after))
  }

  /** Split at the first line end. */
  function ReadLine(s: string): (r: Option<(string, string)>)
    ensures r.Some? ==> |r.value.1| < |s|
  {
    if |s| < 2 then None
    else if s[0] == '\r' && s[1] == '\n' then Some(("", s[2..]))
    else match ReadLine(s[1..])
      case None => None
      case Some((line, rest)) => Some(([s[0]] + line, rest))
  }

  predicate IsBlank(c: char) { c == ' ' || c == '\t' }

  /** Without the optional white space around a field value. */
  function Trim(s: string): string {
    if s != "" && IsBlank(s[0]) then Trim(s[1..])
    else if s != "" && IsBlank(s[|s|-1]) then Trim(s[..|s|-1])
    else s
  }

  function LowerCase(c: char): char {
    if 'A' <= c <= 'Z' then c - 'A' + 'a' else c
  }

  /** Field names are compared without regard to case. */
  predicate SameName(a: string, b: string) {
    |a| == |b| && forall i :: 0 <= i < |a| ==> LowerCase(a[i]) == LowerCase(b[i])
  }

  datatype Status = Status(version: string, code: int, reason: string)

  /** HTTP-version SP status-code SP reason-phrase. */
  function ReadStatus(line: string, rules: Rules): Option<Status> {
    if |line| < 5 || line[..5] != "HTTP/" then None
    else match Cut(line[5..], ' ')
      case None => None
      case Some((version, rest)) =>
        match Cut(rest, ' ')
        case None => None
        case Some((text, reason)) =>
          match ParseInt(text)
          case None => None
          case Some(code) => if rules.valid(version, text) then Some(Status(version, code, reason)) else None
  }

  /** What the header fields say about the length: nothing, a number of octets,
      or something this reader refuses, namely an invalid or contradictory
      Content-Length, or a Transfer-Encoding. */
  datatype Declared = Absent | Octets(n: nat) | Refused

  datatype Fields = Fields(length: Declared, mediaType: Option<string>)

  const NO_FIELDS := Fields(Absent, None)

  /** Header fields up to the empty line. */
  function ReadHeaders(s: string, was: Fields): (r: Option<(Fields, string)>)
    ensures r.Some? ==> |r.value.1| < |s|
    decreases |s|
  {
    match ReadLine(s)
    case None => None
    case Some((line, rest)) =>
      if line == "" then Some((was, rest)) else ReadHeaders(rest, ReadField(line, was))
  }

  function ReadField(line: string, was: Fields): Fields {
    match Cut(line, ':')
    case None => was
    case Some((name, value)) =>
      if SameName(name, "transfer-encoding") then was.(length := Refused)
      else if SameName(name, "content-type") then was.(mediaType := Some(Trim(value)))
      else if !SameName(name, "content-length") then was
      else match ParseNat(Trim(value))
        case None => was.(length := Refused)
        case Some(n) => was.(length := if was.length == Absent || was.length == Octets(n) then Octets(n) else Refused)
  }

  datatype Message = Message(status: Status, mediaType: Option<string>, body: string)

  /** One response to a request other than HEAD and CONNECT. Without a declared
      length the body is all that comes before the connection closes. */
  function ReadMessage(s: string, rules: Rules): (r: Option<(Message, string)>)
    ensures r.Some? ==> |r.value.1| < |s|
  {
    match ReadLine(s)
    case None => None
    case Some((line, rest)) =>
      match (ReadStatus(line, rules), ReadHeaders(rest, NO_FIELDS))
      case (Some(status), Some((fields, left))) =>
        if rules.bodyless(status.code) then Some((Message(status, fields.mediaType, ""), left))
        else (match fields.length
              case Absent => Some((Message(status, fields.mediaType, left), ""))
              case Octets(n) =>
                if n <= |left| then Some((Message(status, fields.mediaType, left[..n]), left[n..])) else None
              case Refused => None)
      case _ => None
  }

  function ReadAll(s: string, rules: Rules): Option<seq<Message>>
    decreases |s|
  {
    if s == "" then Some([])
    else match ReadMessage(s, rules)
      case None => None
      case Some((m, rest)) =>
        match ReadAll(rest, rules)
        case None => None
        case Some(ms) => Some([m] + ms)
  }

  // ---------------------------------------------------------------------
  // The reader inverts the printer
  // ---------------------------------------------------------------------

  lemma {:induction false} CutAt(a: string, c: char, b: string)
    requires c !in a
    ensures Cut(a + ([c] + b), c) == Some((a, b))
  {
    var s := a + ([c] + b);
    if a == "" {
      assert s == [c] + b && s[1..] == b;
    } else {
      assert s[1..] == a[1..] + ([c] + b);
      CutAt(a[1..], c, b);
      assert [a[0]] + a[1..] == a;
    }
  }

  lemma {:induction false} ReadLineAt(line: string, rest: string)
    requires '\r' !in line
    ensures ReadLine(line + CRLF + rest) == Some((line, rest))
  {
    var s := line + CRLF + rest;
    if line == "" {
      assert s[0] == '\r' && s[1] == '\n' && s[2..] == rest;
    } else {
      assert s[1..] == line[1..] + CRLF + rest;
      ReadLineAt(line[1..], rest);
      assert [line[0]] + line[1..] == line;
    }
  }

  /** The status line is one line, and all of it is read back if its version and
      code have the form the reader demands; else it is refused. */
  lemma StatusRead(r: Response, statusName: int -> string, rules: Rules)
    requires ' ' !in r.version && '\r' !in r.version && '\r' !in statusName(r.code)
    ensures '\r' !in StatusLine(r, statusName)
    ensures ReadStatus(StatusLine(r, statusName), rules) ==
      if rules.valid(r.version, PrintInt(r.code)) then Some(Status(r.version, r.code, statusName(r.code))) else None
  {
    var code, name := PrintInt(r.code), statusName(r.code);
    var rest := r.version + ([' '] + (code + ([' '] + name)));
    PrintIntChars(r.code);
    ParsePrintInt(r.code);
    assert StatusLine(r, statusName) == "HTTP/" + rest;
    assert ("HTTP/" + rest)[..5] == "HTTP/" && ("HTTP/" + rest)[5..] == rest;
    CutAt(r.version, ' ', code + ([' '] + name));
    CutAt(code, ' ', name);
    hide Cut, PrintInt, ParseInt;
  }

  lemma LengthRead(r: Response, was: Fields)
    requires was.length == Absent
    ensures '\r' !in LengthLine(r) && LengthLine(r) != ""
    ensures ReadField(LengthLine(r), was) == was.(length := Octets(|r.body|))
  {
    hide PrintNat, ParseNat, Cut, Trim, SameName;
    var digits := PrintNat(|r.body|);
    ParsePrintNat(|r.body|);
    CutAt("Content-Length", ':', " " + digits);
    assert digits[0] in digits && digits[|digits|-1] in digits;
    TrimField(digits);
    LengthName();
    assert "Content-Length" + ([':'] + (" " + digits)) == LengthLine(r);
  }

  lemma TrimField(s: string)
    requires s != "" && !IsBlank(s[0]) && !IsBlank(s[|s|-1])
    ensures Trim(" " + s) == s
  {
    assert (" " + s)[1..] == s;
    assert Trim(s) == s;
  }

  lemma LengthName()
    ensures SameName("Content-Length", "content-length")
    ensures !SameName("Content-Length", "transfer-encoding") && !SameName("Content-Length", "content-type")
  {
    assert |"Content-Length"| == 14 && |"transfer-encoding"| == 17 && |"content-type"| == 12;
  }

  lemma TypeName()
    ensures SameName("Content-Type", "content-type") && !SameName("Content-Type", "transfer-encoding")
  {
    assert |"Content-Type"| == 12 && |"transfer-encoding"| == 17;
  }

  lemma TypeRead(was: Fields)
    ensures '\r' !in TypeLine() && TypeLine() != ""
    ensures ReadField(TypeLine(), was) == was.(mediaType := Some("application/json; charset=utf-8"))
  {
    hide Cut, Trim, SameName;
    CutAt("Content-Type", ':', " " + JSON);
    assert JSON[0] == 'a' && JSON[|JSON|-1] == '8';
    TrimField(JSON);
    TypeName();
    assert "Content-Type" + ([':'] + (" " + JSON)) == TypeLine();
  }

  function Json(n: nat): Fields { Fields(Octets(n), Some("application/json; charset=utf-8")) }

  /** The head of a response is read, and what is left is its body and the rest. */
  lemma HeadRead(r: Response, statusName: int -> string, end: string)
    requires ' ' !in r.version && '\r' !in r.version && '\r' !in statusName(r.code)
    ensures var s := StatusLine(r, statusName) + CRLF + TypeLine() + CRLF + LengthLine(r) + CRLF + "" + CRLF + end;
      && ReadLine(s).Some? && ReadLine(s).value.0 == StatusLine(r, statusName)
      && ReadHeaders(ReadLine(s).value.1, NO_FIELDS) == Some((Json(|r.body|), end))
  {
    var third := "" + CRLF + end;
    var second := LengthLine(r) + CRLF + third;
    var first := TypeLine() + CRLF + second;
    assert StatusLine(r, statusName) + CRLF + TypeLine() + CRLF + LengthLine(r) + CRLF + "" + CRLF + end
        == StatusLine(r, statusName) + CRLF + first;
    StatusRead(r, statusName, LENIENT);
    TypeRead(NO_FIELDS);
    var typed := Fields(Absent, Some("application/json; charset=utf-8"));
    LengthRead(r, typed);
    ReadLineAt(StatusLine(r, statusName), first);
    ReadLineAt(TypeLine(), second);
    ReadLineAt(LengthLine(r), third);
    ReadLineAt("", end);
    hide ReadField, StatusLine, TypeLine, LengthLine, ReadLine, ReadStatus;
    assert ReadHeaders(third, Json(|r.body|)) == Some((Json(|r.body|), end));
    assert ReadHeaders(second, typed) == Some((Json(|r.body|), end));
    assert ReadHeaders(first, NO_FIELDS) == Some((Json(|r.body|), end));
  }

  /** All that a response says: version, code, reason phrase, media type, body. */
  function Meant(r: Response, statusName: int -> string): Message {
    Message(Status(r.version, r.code, statusName(r.code)), Some("application/json; charset=utf-8"), r.body)
  }

  predicate Valid(r: Response, rules: Rules) {
    rules.valid(r.version, PrintInt(r.code))
  }

  /** One response, whatever follows it. Its body is cut where it ends even if
      it holds line ends, digits or header names; but a code that ends at the
      empty line leaves the body in front of the next response, and a status
      line of another form is refused. */
  lemma ResponseRead(r: Response, statusName: int -> string, rules: Rules, tail: string)
    requires ' ' !in r.version && '\r' !in r.version && '\r' !in statusName(r.code)
    ensures ReadMessage(Render(r, statusName) + tail, rules) ==
      if !Valid(r, rules) then None
      else if rules.bodyless(r.code) then Some((Meant(r, statusName).(body := ""), r.body + tail))
      else Some((Meant(r, statusName), tail))
  {
    var end := r.body + tail;
    HeadRead(r, statusName, end);
    StatusRead(r, statusName, rules);
    assert Render(r, statusName) + tail
        == StatusLine(r, statusName) + CRLF + TypeLine() + CRLF + LengthLine(r) + CRLF + "" + CRLF + end;
    hide StatusLine, TypeLine, LengthLine, ReadLine, ReadStatus, ReadHeaders;
    assert end[..|r.body|] == r.body && end[|r.body|..] == tail;
  }

  ghost predicate Printable(rs: seq<Response>, statusName: int -> string) {
    forall r :: r in rs ==> ' ' !in r.version && '\r' !in r.version && '\r' !in statusName(r.code)
  }

  function Sent(rs: seq<Response>, statusName: int -> string): seq<Message> {
    if rs == [] then [] else [Meant(rs[0], statusName)] + Sent(rs[1..], statusName)
  }

  /** The status line has the form demanded, and there is no body where the code
      ends at the empty line. */
  predicate Clear(r: Response, rules: Rules) {
    Valid(r, rules) && (rules.bodyless(r.code) ==> r.body == "")
  }

  ghost predicate Framed(rs: seq<Response>, rules: Rules) {
    forall r :: r in rs ==> Clear(r, rules)
  }

  /** What is read after the first response. */
  function Left(r: Response, rules: Rules, tail: string): string {
    if rules.bodyless(r.code) then r.body + tail else tail
  }

  function First(r: Response, statusName: int -> string, rules: Rules): Message {
    if rules.bodyless(r.code) then Meant(r, statusName).(body := "") else Meant(r, statusName)
  }

  lemma FirstRead(r: Response, statusName: int -> string, rules: Rules, tail: string)
    requires ' ' !in r.version && '\r' !in r.version && '\r' !in statusName(r.code)
    ensures ReadAll(Render(r, statusName) + tail, rules) ==
      if !Valid(r, rules) then None
      else match ReadAll(Left(r, rules, tail), rules)
           case None => None
           case Some(ms) => Some([First(r, statusName, rules)] + ms)
  {
    ResponseRead(r, statusName, rules, tail);
    assert |Render(r, statusName)| > 0;
    hide Render, ReadMessage, Valid;
  }

  lemma FramedOf(rs: seq<Response>, rules: Rules)
    requires rs != []
    ensures Framed(rs, rules) <==> Clear(rs[0], rules) && Framed(rs[1..], rules)
  {
    hide Clear;
    assert rs == [rs[0]] + rs[1..];
  }

  /** The sequence comes back, by any such rules, exactly if framed. */
  lemma {:induction false} ReadBackIffFramed(rs: seq<Response>, statusName: int -> string, rules: Rules)
    requires Printable(rs, statusName)
    ensures ReadAll(RenderAll(rs, statusName), rules) == Some(Sent(rs, statusName)) <==> Framed(rs, rules)
  {
    if rs != [] {
      var r, tail := rs[0], RenderAll(rs[1..], statusName);
      assert r in rs;
      ReadBackIffFramed(rs[1..], statusName, rules);
      FirstRead(r, statusName, rules, tail);
      FramedOf(rs, rules);
      assert r.body == "" ==> Left(r, rules, tail) == tail by { assert "" + tail == tail; }
      SentOf(First(r, statusName, rules), ReadAll(Left(r, rules, tail), rules), rs, statusName);
      hide Render, ReadAll, Framed, Sent, Valid;
    }
  }

  lemma SentOf(first: Message, rest: Option<seq<Message>>, rs: seq<Response>, statusName: int -> string)
    requires rs != []
    ensures (match rest case None => None case Some(ms) => Some([first] + ms)) == Some(Sent(rs, statusName))
      <==> (first == Meant(rs[0], statusName) && rest == Some(Sent(rs[1..], statusName)))
  {
    hide Meant;
    match rest
    case None =>
    case Some(ms) =>
      var all := [first] + ms;
      assert all[0] == first && all[1..] == ms;
      assert Sent(rs, statusName)[0] == Meant(rs[0], statusName);
      assert Sent(rs, statusName)[1..] == Sent(rs[1..], statusName);
  }

  /** A printed code has three digits exactly from 100 to 999. */
  lemma ThreeDigits(code: int)
    ensures |PrintInt(code)| == 3 && (forall c :: c in PrintInt(code) ==> IsDigit(c)) <==> 100 <= code <= 999
  {
    if code < 0 {
      assert PrintInt(code)[0] in PrintInt(code);
    } else if code < 10 {
    } else if code < 100 {
      assert |PrintNat(code / 10)| == 1;
    } else if code < 1000 {
      assert |PrintNat(code / 10 / 10)| == 1 && |PrintNat(code / 10)| == 2;
    } else {
      assert |PrintNat(code / 10 / 10 / 10)| >= 1 && |PrintNat(code / 10 / 10)| >= 2 && |PrintNat(code / 10)| >= 3;
    }
  }

  /** Any number of responses on one connection: a reader by sections 4 and 6.3
      of RFC 9112 gets the exact sequence of versions, codes, reason phrases,
      media types and bodies from the concatenated output, if and only if every
      version is a digit, a point and a digit, every code has three digits, and
      no 1xx, 204 or 304 response has a body. */
  lemma ResponsesRead(rs: seq<Response>, statusName: int -> string)
    requires Printable(rs, statusName)
    ensures ReadAll(RenderAll(rs, statusName), RFC) == Some(Sent(rs, statusName)) <==>
      forall r :: r in rs ==>
        && |r.version| == 3 && IsDigit(r.version[0]) && r.version[1] == '.' && IsDigit(r.version[2])
        && 100 <= r.code <= 999
        && (NoBody(r.code) ==> r.body == "")
  {
    ReadBackIffFramed(rs, statusName, RFC);
    forall r | r in rs
      ensures Clear(r, RFC) <==>
        && |r.version| == 3 && IsDigit(r.version[0]) && r.version[1] == '.' && IsDigit(r.version[2])
        && 100 <= r.code <= 999
        && (NoBody(r.code) ==> r.body == "")
    {
      ThreeDigits(r.code);
    }
    hide ReadAll, RenderAll, Sent, Clear;
  }

  /** Unique decodability: equal output, equal responses, whatever their codes. */
  lemma UniquelyDecodable(a: seq<Response>, b: seq<Response>, statusName: int -> string)
    requires Printable(a, statusName) && Printable(b, statusName)
    requires RenderAll(a, statusName) == RenderAll(b, statusName)
    ensures a == b
  {
    ReadBackIffFramed(a, statusName, LENIENT);
    ReadBackIffFramed(b, statusName, LENIENT);
    hide ReadAll, RenderAll;
    SentDetermines(a, b, statusName);
  }

  lemma {:induction false} SentDetermines(a: seq<Response>, b: seq<Response>, statusName: int -> string)
    requires Sent(a, statusName) == Sent(b, statusName)
    ensures a == b
  {
    if a != [] && b != [] {
      var x, y := Sent(a, statusName), Sent(b, statusName);
      assert x[0] == y[0] && x[1..] == y[1..];
      assert x[1..] == Sent(a[1..], statusName) && y[1..] == Sent(b[1..], statusName);
      SentDetermines(a[1..], b[1..], statusName);
      assert a == [a[0]] + a[1..] && b == [b[0]] + b[1..];
    }
  }
}
