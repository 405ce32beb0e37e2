/**
  The control protocol the C9 shell writes on its standard output. Every line
  is tested against four unanchored patterns, each taking only its leftmost
  match:
    C9SHELLHWND=\((\d+)\)            the client window handle, in decimal
    C9SHELLSYMPHONYPIPE              the pipe server is ready
    C9SHELLPOPOUT                    the window was popped out
    C9SHELLTITLE=\(([A-Za-z0-9=]+)\) the window title, base64-encoded
  `Decode` turns one line into the events it carries; applying them to the
  supervisor's state is the business of ShellModel.
 */
module ShellProtocol {
  import opened Wrappers
  import opened Text

  const HwndMarker := "C9SHELLHWND=("
  const PipeMarker := "C9SHELLSYMPHONYPIPE"
  const PopoutMarker := "C9SHELLPOPOUT"
  const TitleMarker := "C9SHELLTITLE=("

  /** The two character classes of the capturing patterns: `\d` and `[A-Za-z0-9=]`. */
  datatype CharClass = Digits | TitleChars

  predicate InClass(c: char, cls: CharClass) {
    match cls
    case Digits => IsDigit(c)
    case TitleChars => 'A' <= c <= 'Z' || 'a' <= c <= 'z' || IsDigit(c) || c == '='
  }

  predicate AllInClass(s: string, cls: CharClass) {
    forall i :: 0 <= i < |s| ==> InClass(s[i], cls)
  }

  /**
    The pattern `marker(cls+)\)` matches `line` at index `i`, capturing `capture`.
    Since `)` is in neither class, the capture is the whole run of class
    characters after the marker, so at most one capture matches at an index.
   */
  ghost predicate MatchAt(line: string, marker: string, cls: CharClass, i: int, capture: string) {
    |capture| >= 1 && AllInClass(capture, cls) && OccursAt(line, marker + capture + ")", i)
  }

  /** Length of the run of `cls` characters of `s` starting at `from`. */
  function RunLength(s: string, from: nat, cls: CharClass): (n: nat)
    requires from <= |s|
    ensures from + n <= |s|
    ensures forall k :: from <= k < from + n ==> InClass(s[k], cls)
    ensures from + n < |s| ==> !InClass(s[from + n], cls)
    decreases |s| - from
  {
    if from < |s| && InClass(s[from], cls) then 1 + RunLength(s, from + 1, cls) else 0
  }

  /** The capture of `marker(cls+)\)` at index `i`, if the pattern matches there. */
  function CaptureAt(line: string, marker: string, cls: CharClass, i: nat): Option<string>
    requires i <= |line|
  {
    if !OccursAt(line, marker, i) then None
    else
      var start := i + |marker|;
      var n := RunLength(line, start, cls);
      if n >= 1 && start + n < |line| && line[start + n] == ')' then Some(line[start..start + n])
      else None
  }

  lemma RunLengthOfCapture(line: string, start: nat, cls: CharClass, capture: string)
    requires start + |capture| < |line|
    requires line[start..start + |capture|] == capture && AllInClass(capture, cls)
    requires line[start + |capture|] == ')'
    ensures RunLength(line, start, cls) == |capture|
    decreases |capture|
  {
    if |capture| > 0 {
      assert line[start] == capture[0];
      assert line[start + 1..start + 1 + |capture[1..]|] == capture[1..];
      RunLengthOfCapture(line, start + 1, cls, capture[1..]);
    }
  }

  lemma CaptureAtMatches(line: string, marker: string, cls: CharClass, i: nat, capture: string)
    requires i <= |line|
    ensures CaptureAt(line, marker, cls, i) == Some(capture) <==> MatchAt(line, marker, cls, i, capture)
  {
    if CaptureAt(line, marker, cls, i) == Some(capture) {
      CaptureIsMatch(line, marker, cls, i, capture);
    }
    if MatchAt(line, marker, cls, i, capture) {
      MatchIsCapture(line, marker, cls, i, capture);
    }
  }

  /** The pattern matches at `i` exactly when the marker does, the capture follows it and `)` follows that. */
  lemma MatchAtParts(line: string, marker: string, cls: CharClass, i: nat, capture: string)
    ensures OccursAt(line, marker + capture + ")", i) <==>
      OccursAt(line, marker, i) && OccursAt(line, capture, i + |marker|) && OccursAt(line, ")", i + |marker| + |capture|)
  {
    OccursAtConcat(line, marker + capture, ")", i);
    OccursAtConcat(line, marker, capture, i);
  }

  lemma CaptureIsMatch(line: string, marker: string, cls: CharClass, i: nat, capture: string)
    requires i <= |line| && CaptureAt(line, marker, cls, i) == Some(capture)
    ensures MatchAt(line, marker, cls, i, capture)
  {
    var start := i + |marker|;
    var n := |capture|;
    assert line[start + n..start + n + 1] == [line[start + n]] == ")";
    MatchAtParts(line, marker, cls, i, capture);
  }

  lemma MatchIsCapture(line: string, marker: string, cls: CharClass, i: nat, capture: string)
    requires i <= |line| && MatchAt(line, marker, cls, i, capture)
    ensures CaptureAt(line, marker, cls, i) == Some(capture)
  {
    var start := i + |marker|;
    var n := |capture|;
    MatchAtParts(line, marker, cls, i, capture);
    assert line[start + n] == line[start + n..start + n + 1][0] == ')';
    RunLengthOfCapture(line, start, cls, capture);
  }

  lemma NoCaptureAt(line: string, marker: string, cls: CharClass, i: nat)
    requires i <= |line| && CaptureAt(line, marker, cls, i).None?
    ensures forall capture :: !MatchAt(line, marker, cls, i, capture)
  {
    forall capture ensures !MatchAt(line, marker, cls, i, capture) {
      CaptureAtMatches(line, marker, cls, i, capture);
    }
  }

  /** A match of the pattern: where it starts and what it captured. */
  datatype Found = Found(position: nat, capture: string)

  /** The leftmost match at or after `from`: what `String.match` without `/g` returns. */
  function FindFrom(line: string, marker: string, cls: CharClass, from: nat): (r: Option<Found>)
    requires from <= |line|
    ensures r.Some? ==> from <= r.value.position && MatchAt(line, marker, cls, r.value.position, r.value.capture)
    ensures forall j, capture :: from <= j && (r.None? || j < r.value.position) ==> !MatchAt(line, marker, cls, j, capture)
    decreases |line| - from
  {
    match CaptureAt(line, marker, cls, from)
    case Some(capture) =>
      CaptureAtMatches(line, marker, cls, from, capture);
      Some(Found(from, capture))
    case None =>
      NoCaptureAt(line, marker, cls, from);
      if from == |line| then None else FindFrom(line, marker, cls, from + 1)
  }

  function Find(line: string, marker: string, cls: CharClass): (r: Option<Found>)
  {
    FindFrom(line, marker, cls, 0)
  }

  /** The events one output line announces, in the order they are handled. */
  datatype LineEvents = LineEvents(hwnd: Option<nat>, pipeReady: bool, poppedOut: bool, title: Option<string>)

  function Decode(line: string): LineEvents {
    var hwnd := match Find(line, HwndMarker, Digits)
      case Some(f) => Some(ParseDecimal(f.capture))
      case None => None;
    var title := match Find(line, TitleMarker, TitleChars)
      case Some(f) => Some(f.capture)
      case None => None;
    LineEvents(hwnd, Includes(line, PipeMarker), Includes(line, PopoutMarker), title)
  }

  /**
    A line announces a handle (a title) exactly when its pattern matches
    somewhere, and the pipe (popout) marker exactly when the line contains it;
    a title is a nonempty run of title characters.
   */
  lemma DecodeMatches(line: string)
    ensures var ev := Decode(line);
      && (ev.hwnd.Some? <==> exists i, capture :: MatchAt(line, HwndMarker, Digits, i, capture))
      && (ev.pipeReady <==> Contains(line, PipeMarker))
      && (ev.poppedOut <==> Contains(line, PopoutMarker))
      && (ev.title.Some? <==> exists i, capture :: MatchAt(line, TitleMarker, TitleChars, i, capture))
      && (ev.title.Some? ==> |ev.title.value| >= 1 && AllInClass(ev.title.value, TitleChars))
  {
  }

  /** The line the shell prints to announce window handle `n`. */
  function HwndLine(n: nat): string {
    HwndMarker + NatToString(n) + ")"
  }

  /** The line the shell prints to announce a base64-encoded title. */
  function TitleLine(encoded: string): string {
    TitleMarker + encoded + ")"
  }

  /** The announced handle is read back exactly. */
  lemma DecodeHwndLine(n: nat)
    ensures Find(HwndLine(n), HwndMarker, Digits) == Some(Found(0, NatToString(n)))
    ensures Decode(HwndLine(n)).hwnd == Some(n)
  {
    var line := HwndLine(n);
    CaptureAtMatches(line, HwndMarker, Digits, 0, NatToString(n));
    assert line[0..|HwndMarker + NatToString(n) + ")"|] == line;
    ParseDecimalOfNatToString(n);
  }

  /** An announced title made of the accepted characters is read back exactly. */
  lemma DecodeTitleLine(encoded: string)
    requires |encoded| >= 1 && AllInClass(encoded, TitleChars)
    ensures Decode(TitleLine(encoded)).title == Some(encoded)
  {
    var line := TitleLine(encoded);
    CaptureAtMatches(line, TitleMarker, TitleChars, 0, encoded);
    assert line[0..|TitleMarker + encoded + ")"|] == line;
  }

  /** A pattern whose character at offset `p` appears nowhere from index `p` on occurs nowhere in the line. */
  lemma AbsentFromOffset(line: string, pattern: string, p: nat)
    requires p < |pattern|
    requires forall k :: p <= k < |line| ==> line[k] != pattern[p]
    ensures forall i :: !OccursAt(line, pattern, i)
  {
    forall i ensures !OccursAt(line, pattern, i) {
      if 0 <= i && i + |pattern| <= |line| {
        assert line[i..i + |pattern|][p] == line[i + p];
      }
    }
  }

  /** The pattern `marker(cls+)\)` matches nowhere when the marker occurs nowhere. */
  lemma NoMarkerNoMatch(line: string, marker: string, cls: CharClass)
    requires forall i :: !OccursAt(line, marker, i)
    ensures forall i, capture :: !MatchAt(line, marker, cls, i, capture)
  {
    forall i, capture ensures !MatchAt(line, marker, cls, i, capture) {
      if i >= 0 {
        MatchAtParts(line, marker, cls, i, capture);
      }
    }
  }

  /** After the `(` of its marker, a handle line holds only digits and the closing `)`. */
  lemma HwndLineTail(n: nat)
    ensures var line := HwndLine(n);
      forall k :: |HwndMarker| <= k < |line| ==> IsDigit(line[k]) || line[k] == ')'
  {
    var digits := NatToString(n);
    var line := HwndLine(n);
    forall k | |HwndMarker| <= k < |line| ensures IsDigit(line[k]) || line[k] == ')' {
      if k < |HwndMarker| + |digits| {
        assert line[k] == digits[k - |HwndMarker|];
      }
    }
  }

  /** A handle line announces the handle and nothing else. */
  lemma DecodeHwndLineOnly(n: nat)
    ensures Decode(HwndLine(n)) == LineEvents(Some(n), false, false, None)
  {
    var line := HwndLine(n);
    HwndLineTail(n);
    HwndLineLetters();
    AbsentFromOffset(line, PipeMarker, 18);
    AbsentFromOffset(line, PopoutMarker, 12);
    AbsentFromOffset(line, TitleMarker, 13);
    NoMarkerNoMatch(line, TitleMarker, TitleChars);
    DecodeHwndLine(n);
    DecodeMatches(line);
  }

  lemma HwndLineLetters()
    ensures PipeMarker[18] == 'E' && PopoutMarker[12] == 'T' && TitleMarker[13] == '('
  {
  }

  /** The popout line announces the popout and nothing else. */
  lemma DecodePopoutLine()
    ensures Decode(PopoutMarker) == LineEvents(None, false, true, None)
  {
    var line := PopoutMarker;
    PopoutLineLetters();
    AbsentFromOffset(line, HwndMarker, 7);
    AbsentFromOffset(line, TitleMarker, 8);
    AbsentFromOffset(line, PipeMarker, 18);
    NoMarkerNoMatch(line, HwndMarker, Digits);
    NoMarkerNoMatch(line, TitleMarker, TitleChars);
    assert OccursAt(line, PopoutMarker, 0);
    DecodeMatches(line);
  }

  lemma PopoutLineLetters()
    ensures HwndMarker[7] == 'H' && TitleMarker[8] == 'I'
    ensures forall k :: 7 <= k < |PopoutMarker| ==> PopoutMarker[k] != 'H' && PopoutMarker[k] != 'I'
  {
  }
}
