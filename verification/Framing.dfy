/** The stdio framing of internal/server/server.go: a message is one line of JSON
    (the stdio transport of the Model Context Protocol, revision 2025-11-25) or a
    body behind a Content-Length header (the Header Part of the Language Server
    Protocol 3.17 base protocol). Bytes are chars. */
module Framing {
  import opened Common
  import opened Text

  datatype Mode = Line | Header

  datatype Frame = Frame(payload: string, mode: Mode)

  datatype ReadError = EndOfInput | BadLength | MissingLength | TooLarge | ShortBody

  datatype Outcome = Read(frame: Frame) | Failed(error: ReadError)

  const MAX_BODY: nat := 10 * 1024 * 1024
  const LENGTH_PREFIX: string := "content-length:"
  const LENGTH_LABEL: string := "Content-Length: "

  // ------------------------------------------------------------------- input

  datatype LineRead = GotLine(line: string, rest: string) | NoLine

  /** ReadString('\n'), trimmed; without a newline the rest of the input is lost. */
  function NextLine(s: string): (r: LineRead)
    ensures r.GotLine? ==> |r.rest| < |s| && Trimmed(r.line)
  {
    var i := IndexOf(s, '\n');
    if i == |s| then NoLine else GotLine(Trim(s[..i + 1]), s[i + 1..])
  }

  /** The next line that is not blank. */
  function NextVisible(s: string): (r: LineRead)
    ensures r.GotLine? ==> |r.rest| < |s| && Trimmed(r.line) && r.line != []
    decreases |s|
  {
    var r := NextLine(s);
    if r.GotLine? && r.line == [] then NextVisible(r.rest) else r
  }

  function SkipSpaces(s: string): (t: string)
    ensures |t| <= |s|
  {
    if s != [] && (s[0] == ' ' || s[0] == '\t') then SkipSpaces(s[1..]) else s
  }

  /** The leading digits. */
  function Digits(s: string): string {
    if s != [] && IsDigit(s[0]) then [s[0]] + Digits(s[1..]) else []
  }

  lemma {:induction false} DigitsAreDigits(s: string)
    ensures forall i :: 0 <= i < |Digits(s)| ==> IsDigit(Digits(s)[i])
  {
    if s != [] && IsDigit(s[0]) { DigitsAreDigits(s[1..]); }
  }

  /** Within 64 bits, which reach one further below zero than above. */
  predicate Fits(magnitude: nat, negative: bool) {
    magnitude <= MAX_INT64 || (negative && magnitude == MAX_INT64 + 1)
  }

  /** %d: spaces, a sign, digits; whatever follows is ignored. None for no digits or
      a number outside 64 bits. */
  function ScanNumber(s: string): Option<int> {
    var text := SkipSpaces(s);
    var negative := text != [] && text[0] == '-';
    ScanUnsigned(if text != [] && (text[0] == '-' || text[0] == '+') then text[1..] else text, negative)
  }

  function ScanUnsigned(s: string, negative: bool): Option<int> {
    DigitsAreDigits(s);
    var digits := Digits(s);
    if digits == [] || !Fits(NumberOf(digits), negative) then None
    else Some(if negative then 0 - NumberOf(digits) else NumberOf(digits))
  }

  /** What Sscanf reads for "content-length: %d". */
  function ScanLength(lower: string): Option<int>
    requires HasPrefix(lower, LENGTH_PREFIX)
  {
    ScanNumber(lower[|LENGTH_PREFIX|..])
  }

  /** The header lines from `line` on, up to a blank one; the last length wins. */
  function ReadHeaders(line: string, s: string, length: int): (Outcome, string)
    decreases |s|
  {
    var lower := Lower(line);
    var scanned := if HasPrefix(lower, LENGTH_PREFIX) then ScanLength(lower) else Some(length);
    if scanned.None? then (Failed(BadLength), s)
    else
      var r := NextLine(s);
      if r.NoLine? then (Failed(EndOfInput), "")
      else if r.line == [] then ReadBody(r.rest, scanned.value)
      else ReadHeaders(r.line, r.rest, scanned.value)
  }

  function ReadBody(s: string, length: int): (Outcome, string) {
    if length <= 0 then (Failed(MissingLength), s)
    else if length > MAX_BODY then (Failed(TooLarge), s)
    else if length > |s| then (Failed(ShortBody), "")
    else (Read(Frame(s[..length], Header)), s[length..])
  }

  /** One message, and what is left of the input. */
  function NextMessage(s: string): (Outcome, string) {
    var r := NextVisible(s);
    if r.NoLine? then (Failed(EndOfInput), "")
    else if r.line[0] == '{' then (Read(Frame(r.line, Line)), r.rest)
    else ReadHeaders(r.line, r.rest, 0)
  }

  // ------------------------------------------------------- reader and writer

  class Reader {
    var input: string

    constructor (input: string)
      ensures this.input == input
    {
      this.input := input;
    }

    method ReadLine() returns (r: LineRead)
      modifies this
      ensures r == NextLine(old(input))
      ensures input == if r.GotLine? then r.rest else ""
    {
      var i := IndexOf(input, '\n');
      if i == |input| {
        r, input := NoLine, "";
      } else {
        r, input := GotLine(Trim(input[..i + 1]), input[i + 1..]), input[i + 1..];
      }
    }

    method ReadMessage() returns (outcome: Outcome)
      modifies this
      ensures (outcome, input) == NextMessage(old(input))
    {
      var r := ReadLine();
      while r.GotLine? && r.line == []
        invariant r.GotLine? ==> r.rest == input
        invariant r.NoLine? ==> input == ""
        invariant NextVisible(old(input)) == if r.GotLine? && r.line == [] then NextVisible(r.rest) else r
        decreases r.GotLine?, |input|
      {
        r := ReadLine();
      }
      if r.NoLine? {
        return Failed(EndOfInput);
      }
      if r.line[0] == '{' {
        return Read(Frame(r.line, Line));
      }
      outcome := ReadHeaderFrame(r.line);
    }

    method ReadHeaderFrame(first: string) returns (outcome: Outcome)
      modifies this
      ensures (outcome, input) == ReadHeaders(first, old(input), 0)
    {
      var line, length: int := first, 0;
      while true
        invariant ReadHeaders(first, old(input), 0) == ReadHeaders(line, input, length)
        decreases |input|
      {
        var lower := Lower(line);
        if HasPrefix(lower, LENGTH_PREFIX) {
          var scanned := ScanLength(lower);
          if scanned.None? {
            return Failed(BadLength);
          }
          length := scanned.value;
        }
        var r := ReadLine();
        if r.NoLine? {
          return Failed(EndOfInput);
        }
        line := r.line;
        if line == "" {
          break;
        }
      }
      outcome := ReadBodyFrame(length);
    }

    method ReadBodyFrame(length: int) returns (outcome: Outcome)
      modifies this
      ensures (outcome, input) == ReadBody(old(input), length)
    {
      if length <= 0 {
        return Failed(MissingLength);
      }
      if length > MAX_BODY {
        return Failed(TooLarge);
      }
      if length > |input| {
        input := "";
        return Failed(ShortBody);
      }
      outcome, input := Read(Frame(input[..length], Header)), input[length..];
    }
  }

  function Written(f: Frame): string {
    if f.mode == Line then f.payload + "\n" else LENGTH_LABEL + Decimal(|f.payload|) + "\r\n\r\n" + f.payload
  }

  class Writer {
    var output: string

    constructor ()
      ensures output == ""
    {
      output := "";
    }

    method WriteResponse(payload: string, mode: Mode)
      modifies this
      ensures output == old(output) + Written(Frame(payload, mode))
    {
      if mode == Line {
        output := output + payload;
        output := output + "\n";
        return;
      }
      var header := LENGTH_LABEL + Decimal(|payload|) + "\r\n\r\n";
      output := output + header;
      output := output + payload;
    }
  }

  // -------------------------------------------------------------- round trip

  /** What the reader can tell apart: a line that starts with a brace, holds no
      newline and ends with no white space; or a body of 1 byte to 10 MB. */
  predicate Legal(f: Frame) {
    match f.mode
    case Line => f.payload != [] && f.payload[0] == '{' && Trimmed(f.payload) && '\n' !in f.payload
    case Header => 1 <= |f.payload| <= MAX_BODY
  }

  lemma LineOf(line: string, pad: string, rest: string)
    requires line != [] && Trimmed(line) && '\n' !in line && '\n' !in pad && forall i :: 0 <= i < |pad| ==> Space(pad[i])
    ensures NextLine(line + pad + "\n" + rest) == GotLine(line, rest)
  {
    var s := line + pad + "\n" + rest;
    assert s == (line + pad) + ['\n'] + rest;
    IndexOfFirst(line + pad, rest, '\n');
    assert s[..|line + pad| + 1] == line + (pad + "\n");
    TrimPadded(line, pad + "\n");
  }

  lemma LineFrameReads(payload: string, rest: string)
    requires Legal(Frame(payload, Line))
    ensures NextMessage(Written(Frame(payload, Line)) + rest) == (Read(Frame(payload, Line)), rest)
  {
    LineOf(payload, "", rest);
    assert payload + "" + "\n" + rest == payload + "\n" + rest;
  }

  lemma {:induction false} DigitsTake(digits: string, tail: string)
    requires (forall i :: 0 <= i < |digits| ==> IsDigit(digits[i])) && (tail == [] || !IsDigit(tail[0]))
    ensures Digits(digits + tail) == digits
  {
    if digits == [] {
      assert digits + tail == tail;
    } else {
      assert IsDigit(digits[0]) && (digits + tail)[1..] == digits[1..] + tail;
      DigitsTake(digits[1..], tail);
    }
  }

  lemma {:induction false} LowerDigits(s: string)
    requires forall i :: 0 <= i < |s| ==> IsDigit(s[i])
    ensures Lower(s) == s
  {
    forall i | 0 <= i < |s| ensures Lower(s)[i] == s[i] { assert IsDigit(s[i]); }
  }

  lemma ScansDigits(digits: string)
    requires digits != [] && (forall i :: 0 <= i < |digits| ==> IsDigit(digits[i])) && NumberOf(digits) <= MAX_INT64
    ensures ScanNumber(" " + digits) == Some(NumberOf(digits))
  {
    assert SkipSpaces(" " + digits) == digits by {
      assert (" " + digits)[1..] == digits;
      assert IsDigit(digits[0]);
    }
    assert IsDigit(digits[0]);
    UnsignedDigits(digits);
  }

  lemma UnsignedDigits(digits: string)
    requires digits != [] && (forall i :: 0 <= i < |digits| ==> IsDigit(digits[i])) && NumberOf(digits) <= MAX_INT64
    ensures ScanUnsigned(digits, false) == Some(NumberOf(digits))
  {
    DigitsTake(digits, "");
    assert digits + "" == digits;
  }

  lemma LowerLabel(digits: string)
    requires forall i :: 0 <= i < |digits| ==> IsDigit(digits[i])
    ensures Lower(LENGTH_LABEL + digits) == LENGTH_PREFIX + (" " + digits)
  {
    LowerJoin(LENGTH_LABEL, digits);
    LowerDigits(digits);
    assert Lower(LENGTH_LABEL) == LENGTH_PREFIX + " ";
    assert (LENGTH_PREFIX + " ") + digits == LENGTH_PREFIX + (" " + digits);
  }

  lemma LabelLine(digits: string)
    requires digits != [] && forall i :: 0 <= i < |digits| ==> IsDigit(digits[i])
    ensures var line := LENGTH_LABEL + digits; Trimmed(line) && line[0] == 'C' && '\n' !in line
  {
    var line := LENGTH_LABEL + digits;
    assert IsDigit(line[|line| - 1]);
    assert forall i :: 0 <= i < |LENGTH_LABEL| ==> LENGTH_LABEL[i] != '\n';
    forall i | 0 <= i < |line| ensures line[i] != '\n' {
      if i >= |LENGTH_LABEL| { assert IsDigit(digits[i - |LENGTH_LABEL|]); }
    }
  }

  /** The header line as the reader sees it, with the length it announces. */
  lemma LengthLine(n: nat)
    requires n <= MAX_INT64
    ensures var line := LENGTH_LABEL + Decimal(n);
      && Trimmed(line) && line[0] == 'C' && '\n' !in line && HasPrefix(Lower(line), LENGTH_PREFIX)
      && ScanLength(Lower(line)) == Some(n)
  {
    NumberOfDecimal(n);
    LabelLine(Decimal(n));
    LowerLabel(Decimal(n));
    ScansDigits(Decimal(n));
    assert (LENGTH_PREFIX + (" " + Decimal(n)))[|LENGTH_PREFIX|..] == " " + Decimal(n);
  }

  lemma HeaderFrameReads(payload: string, rest: string)
    requires Legal(Frame(payload, Header))
    ensures NextMessage(Written(Frame(payload, Header)) + rest) == (Read(Frame(payload, Header)), rest)
  {
    var line, tail := LENGTH_LABEL + Decimal(|payload|), payload + rest;
    LengthLine(|payload|);
    var blank := "\r\n" + tail;
    var s := Written(Frame(payload, Header)) + rest;
    assert s == line + "\r" + "\n" + blank;
    LineOf(line, "\r", blank);
    BlankLine(tail);
    assert NextMessage(s) == ReadHeaders(line, blank, 0);
    assert ReadHeaders(line, blank, 0) == ReadBody(tail, |payload|);
    assert tail[..|payload|] == payload && tail[|payload|..] == rest;
  }

  lemma BlankLine(rest: string)
    ensures NextLine("\r\n" + rest) == GotLine([], rest)
  {
    var s := "\r\n" + rest;
    assert s == "\r" + ['\n'] + rest;
    IndexOfFirst("\r", rest, '\n');
    assert s[..2] == "\r\n";
    assert "\r\n"[1..] == "\n" && "\n"[1..] == [];
    assert TrimLeft("\n") == TrimLeft([]) == [];
  }

  // --------------------------------------------------- only legal frames come out

  lemma LineHasNoNewline(s: string)
    requires NextLine(s).GotLine?
    ensures '\n' !in NextLine(s).line
  {
    var i := IndexOf(s, '\n');
    var line := s[..i + 1];
    if Trim(line) != [] { TrimDropsLast(s[..i], '\n'); }
    assert line == s[..i] + ['\n'];
  }

  /** Trimming drops a final white-space character, and keeps no other characters
      than those before it. */
  lemma TrimDropsLast(body: string, c: char)
    requires Space(c)
    ensures forall x :: x in Trim(body + [c]) ==> x in body
  {
    TrimLeftWithin(body, c);
    var l := TrimLeft(body + [c]);
    if l != [] {
      assert TrimRight(l) == TrimRight(l[..|l| - 1]);
    }
  }

  lemma {:induction false} TrimLeftWithin(body: string, c: char)
    requires Space(c)
    ensures var l := TrimLeft(body + [c]);
      l == [] || (l[|l| - 1] == c && forall x :: x in l[..|l| - 1] ==> x in body)
  {
    if body != [] && Space(body[0]) {
      assert (body + [c])[1..] == body[1..] + [c];
      TrimLeftWithin(body[1..], c);
      forall x | x in body[1..] ensures x in body {
        var i :| 0 <= i < |body| - 1 && body[1..][i] == x;
        assert body[i + 1] == x;
      }
    } else if body == [] {
      assert body + [c] == [c];
      assert [c][1..] == [];
    } else {
      assert (body + [c])[..|body|] == body;
    }
  }

  lemma {:induction false} VisibleHasNoNewline(s: string)
    requires NextVisible(s).GotLine?
    ensures '\n' !in NextVisible(s).line
    decreases |s|
  {
    LineHasNoNewline(s);
    if NextLine(s).line == [] { VisibleHasNoNewline(NextLine(s).rest); }
  }

  lemma {:induction false} HeadersReadLegal(line: string, s: string, length: int)
    requires ReadHeaders(line, s, length).0.Read?
    ensures ReadHeaders(line, s, length).0.frame.mode == Header && Legal(ReadHeaders(line, s, length).0.frame)
    decreases |s|
  {
    var lower := Lower(line);
    var scanned := if HasPrefix(lower, LENGTH_PREFIX) then ScanLength(lower) else Some(length);
    var r := NextLine(s);
    if r.line != [] { HeadersReadLegal(r.line, r.rest, scanned.value); }
  }

  lemma OnlyLegalRead(s: string)
    requires NextMessage(s).0.Read?
    ensures Legal(NextMessage(s).0.frame)
  {
    var r := NextVisible(s);
    if r.line[0] == '{' {
      VisibleHasNoNewline(s);
    } else {
      HeadersReadLegal(r.line, r.rest, 0);
    }
  }

  /** One frame is read back, with the rest of the input untouched, exactly when it
      is legal. */
  lemma FrameReadsIff(f: Frame, rest: string)
    ensures NextMessage(Written(f) + rest) == (Read(f), rest) <==> Legal(f)
  {
    if Legal(f) {
      if f.mode == Line { LineFrameReads(f.payload, rest); } else { HeaderFrameReads(f.payload, rest); }
    } else if NextMessage(Written(f) + rest).0.Read? {
      OnlyLegalRead(Written(f) + rest);
    }
  }

  lemma {:induction false} Consumes(s: string)
    ensures NextMessage(s).0.Read? ==> |NextMessage(s).1| < |s|
  {
    var r := NextVisible(s);
    if r.GotLine? && r.line[0] != '{' { HeadersConsume(r.line, r.rest, 0); }
  }

  lemma {:induction false} HeadersConsume(line: string, s: string, length: int)
    ensures |ReadHeaders(line, s, length).1| <= |s|
    decreases |s|
  {
    var lower := Lower(line);
    var scanned := if HasPrefix(lower, LENGTH_PREFIX) then ScanLength(lower) else Some(length);
    var r := NextLine(s);
    if scanned.Some? && r.GotLine? && r.line != [] { HeadersConsume(r.line, r.rest, scanned.value); }
  }

  /** Reading until the first failure. */
  function ReadAll(s: string): seq<Frame>
    decreases |s|
  {
    var m := NextMessage(s);
    Consumes(s);
    if m.0.Read? then [m.0.frame] + ReadAll(m.1) else []
  }

  function WrittenAll(frames: seq<Frame>): string {
    if frames == [] then "" else Written(frames[0]) + WrittenAll(frames[1..])
  }

  ghost predicate AllLegal(frames: seq<Frame>) {
    forall i :: 0 <= i < |frames| ==> Legal(frames[i])
  }

  lemma FirstLegal(f: Frame, s: string, rest: string)
    requires Legal(f) && s == Written(f) + rest
    ensures ReadAll(s) == [f] + ReadAll(rest)
  {
    FrameReadsIff(f, rest);
  }

  lemma FirstIllegal(f: Frame, s: string)
    requires !Legal(f)
    ensures ReadAll(s) == [] || ReadAll(s)[0] != f
  {
    if NextMessage(s).0.Read? { OnlyLegalRead(s); }
  }

  /** Any sequence of frames, in either mode, is read back in order exactly when
      every one of them is legal. */
  lemma {:induction false} SequenceReadsIff(frames: seq<Frame>)
    ensures ReadAll(WrittenAll(frames)) == frames <==> AllLegal(frames)
  {
    if frames == [] {
      assert NextLine("") == NoLine;
    } else {
      var f, rest := frames[0], frames[1..];
      SequenceReadsIff(rest);
      assert frames == [f] + rest;
      assert AllLegal(frames) <==> Legal(f) && AllLegal(rest) by {
        forall i | 0 <= i < |rest| ensures rest[i] == frames[i + 1] {
        }
      }
      if Legal(f) { FirstLegal(f, WrittenAll(frames), WrittenAll(rest)); } else { FirstIllegal(f, WrittenAll(frames)); }
    }
  }
}
