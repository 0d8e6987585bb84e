/**
 * The upload form (src/app/components/AnalysisForm.tsx): its file and playback state, the
 * submit guard, the validity flag that enables the submit button, and the time display.
 * The browser hands the handlers what they would read from the DOM: the chosen files, the
 * object URL created for the file, and whether the audio element is mounted.
 */
module AnalysisForm {
  import opened Wrappers
  import opened RealApi

  /** ECMAScript's WhiteSpace and LineTerminator characters, which `trim` removes: tab,
      line feed, vertical tab, form feed, carriage return, space, no-break space, the
      Ogham space mark, U+2000 to U+200A, the line and paragraph separators, the narrow
      no-break space, the medium mathematical space, the ideographic space and the byte
      order mark. */
  const WhiteSpaceChars: set<char> := {
    '\t', '\n', '\U{000B}', '\U{000C}', '\r', ' ', '\U{00A0}', '\U{1680}',
    '\U{2000}', '\U{2001}', '\U{2002}', '\U{2003}', '\U{2004}', '\U{2005}',
    '\U{2006}', '\U{2007}', '\U{2008}', '\U{2009}', '\U{200A}',
    '\U{2028}', '\U{2029}', '\U{202F}', '\U{205F}', '\U{3000}', '\U{FEFF}'
  }

  predicate IsWhiteSpace(c: char)
  {
    c in WhiteSpaceChars
  }

  function TrimStart(s: string): (r: string)
    ensures |r| <= |s| && r == s[|s| - |r|..]
    ensures forall i :: 0 <= i < |s| - |r| ==> IsWhiteSpace(s[i])
    ensures r != [] ==> !IsWhiteSpace(r[0])
  {
    if s != [] && IsWhiteSpace(s[0]) then
      var r := TrimStart(s[1..]);
      assert r == s[|s| - |r|..] by { assert s[1..][|s| - 1 - |r|..] == s[|s| - |r|..]; }
      assert forall i :: 1 <= i < |s| ==> s[i] == s[1..][i - 1];
      r
    else s
  }

  function TrimEnd(s: string): (r: string)
    ensures r <= s
    ensures forall i :: |r| <= i < |s| ==> IsWhiteSpace(s[i])
    ensures r != [] ==> !IsWhiteSpace(r[|r| - 1])
  {
    if s != [] && IsWhiteSpace(s[|s| - 1]) then TrimEnd(s[..|s| - 1]) else s
  }

  /** `s.trim()` */
  function Trim(s: string): (r: string)
    ensures IsTrimmed(s, |s| - |TrimStart(s)|, r)
  {
    var t := TrimStart(s);
    var r := TrimEnd(t);
    TrimmedSlice(s, t, r);
    r
  }

  /** `r` is the slice of `s` starting at `k`, with only white space before and after it in
      `s`, and neither starting nor ending with white space. */
  predicate IsTrimmed(s: string, k: int, r: string)
  {
    && 0 <= k && k + |r| <= |s|
    && (forall i :: 0 <= i < |r| ==> r[i] == s[k + i])
    && (forall i :: 0 <= i < k ==> IsWhiteSpace(s[i]))
    && (forall i :: k + |r| <= i < |s| ==> IsWhiteSpace(s[i]))
    && (r != [] ==> !IsWhiteSpace(r[0]) && !IsWhiteSpace(r[|r| - 1]))
  }

  /** Cutting white space off the front of `s` (giving `t`) and then off the back of `t`
      (giving `r`) leaves a slice of `s` with white space only on either side. */
  lemma TrimmedSlice(s: string, t: string, r: string)
    requires |t| <= |s| && t == s[|s| - |t|..]
    requires forall i :: 0 <= i < |s| - |t| ==> IsWhiteSpace(s[i])
    requires t != [] ==> !IsWhiteSpace(t[0])
    requires r <= t
    requires forall i :: |r| <= i < |t| ==> IsWhiteSpace(t[i])
    requires r != [] ==> !IsWhiteSpace(r[|r| - 1])
    ensures IsTrimmed(s, |s| - |t|, r)
  {
    var k := |s| - |t|;
    forall i | k + |r| <= i < |s|
      ensures IsWhiteSpace(s[i])
    {
      assert s[i] == t[i - k];
    }
    if r != [] {
      assert r[0] == t[0];
    }
  }

  lemma {:induction false} TrimStartEmpty(s: string)
    ensures TrimStart(s) == [] <==> forall i :: 0 <= i < |s| ==> IsWhiteSpace(s[i])
    ensures TrimStart(s) != [] ==> !IsWhiteSpace(TrimStart(s)[0])
  {
    if s != [] && IsWhiteSpace(s[0]) {
      TrimStartEmpty(s[1..]);
      assert forall i :: 1 <= i < |s| ==> s[i] == s[1..][i - 1];
    }
  }

  lemma {:induction false} TrimEndKeepsHead(s: string)
    requires s != [] && !IsWhiteSpace(s[0])
    ensures TrimEnd(s) != []
  {
    if IsWhiteSpace(s[|s| - 1]) {
      TrimEndKeepsHead(s[..|s| - 1]);
    }
  }

  /** Trimming leaves nothing exactly when every character is white space. */
  lemma TrimEmptyIff(s: string)
    ensures Trim(s) == [] <==> forall i :: 0 <= i < |s| ==> IsWhiteSpace(s[i])
  {
    TrimStartEmpty(s);
    if TrimStart(s) != [] {
      TrimEndKeepsHead(TrimStart(s));
    }
  }

  /** `isValid`: the submit button is enabled exactly when the topic has a character other
      than white space and a file is chosen. */
  function IsValid(topic: string, audioFile: Option<File>): (valid: bool)
    ensures valid <==> (exists i :: 0 <= i < |topic| && !IsWhiteSpace(topic[i])) && audioFile.Some?
  {
    TrimEmptyIff(topic);
    Trim(topic) != "" && audioFile.Some?
  }

  /** The file input accepts only audio: `type.startsWith("audio/")`. */
  predicate IsAudio(file: File)
  {
    "audio/" <= file.mimeType
  }

  class Form {
    var topic: string
    var audioFile: Option<File>
    var audioUrl: Option<string>
    var isPlaying: bool
    var currentTime: real

    constructor ()
      ensures topic == "" && audioFile == None && audioUrl == None
      ensures !isPlaying && currentTime == 0.0
    {
      topic := "";
      audioFile := None;
      audioUrl := None;
      isPlaying := false;
      currentTime := 0.0;
    }

    /** The topic input's change handler. */
    method SetTopic(value: string)
      modifies this
      ensures topic == value
      ensures audioFile == old(audioFile) && audioUrl == old(audioUrl)
      ensures isPlaying == old(isPlaying) && currentTime == old(currentTime)
    {
      topic := value;
    }

    /** `handleFileChange`: take the first chosen file if it is audio; otherwise change nothing. */
    method HandleFileChange(files: seq<File>, objectUrl: string)
      requires objectUrl != ""
      modifies this
      ensures |files| > 0 && IsAudio(files[0]) ==>
                && audioFile == Some(files[0]) && audioUrl == Some(objectUrl)
                && !isPlaying && currentTime == 0.0
      ensures !(|files| > 0 && IsAudio(files[0])) ==>
                && audioFile == old(audioFile) && audioUrl == old(audioUrl)
                && isPlaying == old(isPlaying) && currentTime == old(currentTime)
      ensures topic == old(topic)
    {
      if |files| > 0 {
        var file := files[0];
        if IsAudio(file) {
          audioFile := Some(file);
          audioUrl := Some(objectUrl);
          isPlaying := false;
          currentTime := 0.0;
        }
      }
    }

    /** `handleRemoveFile` */
    method HandleRemoveFile()
      modifies this
      ensures audioFile == None && audioUrl == None && !isPlaying && currentTime == 0.0
      ensures topic == old(topic)
    {
      audioFile := None;
      if audioUrl.Some? {
        audioUrl := None;
      }
      isPlaying := false;
      currentTime := 0.0;
    }

    /** `togglePlayPause`: flips the flag only while the audio element is mounted. */
    method TogglePlayPause(hasAudioElement: bool)
      modifies this
      ensures isPlaying == (if hasAudioElement then !old(isPlaying) else old(isPlaying))
      ensures topic == old(topic) && audioFile == old(audioFile) && audioUrl == old(audioUrl)
      ensures currentTime == old(currentTime)
    {
      if hasAudioElement {
        isPlaying := !isPlaying;
      }
    }

    /** `handleEnded`: playback stops and rewinds. */
    method HandleEnded()
      modifies this
      ensures !isPlaying && currentTime == 0.0
      ensures topic == old(topic) && audioFile == old(audioFile) && audioUrl == old(audioUrl)
    {
      isPlaying := false;
      currentTime := 0.0;
    }

    /** `handleSubmit`: the call to `onSubmit` it makes, if any. Its own guard tests the
        untrimmed topic. */
    method HandleSubmit() returns (submitted: Option<(string, File)>)
      ensures submitted.Some? <==> audioFile.Some? && topic != ""
      ensures submitted.Some? ==> submitted.value == (topic, audioFile.value)
    {
      if audioFile.None? || topic == "" {
        return None;
      }
      submitted := Some((topic, audioFile.value));
    }
  }

  /** An enabled submit button always passes `handleSubmit`'s guard, but the guard alone is
      weaker: a blank topic passes it although it disables the button. */
  lemma ValidFormPassesSubmitGuard(topic: string, audioFile: Option<File>, file: File)
    ensures IsValid(topic, audioFile) ==> audioFile.Some? && topic != ""
    ensures !IsValid(" ", Some(file))
  {
    assert IsWhiteSpace(" "[0]);
  }

  /** JavaScript's `Math.trunc` */
  function Trunc(x: real): int
  {
    if x >= 0.0 then x.Floor else -((-x).Floor)
  }

  /** JavaScript's `x % d` for a positive `d`: the remainder takes the sign of `x`. */
  function Rem(x: real, d: real): real
    requires d > 0.0
  {
    x - d * Trunc(x / d) as real
  }

  function DigitChar(d: nat): char
    requires d < 10
  {
    (48 + d) as char
  }

  /** The decimal digits of a natural number, without leading zeros. */
  function NatToString(n: nat): (s: string)
    ensures |s| > 0
    ensures forall i :: 0 <= i < |s| ==> '0' <= s[i] <= '9'
    ensures s[0] == '0' ==> n == 0
  {
    if n < 10 then [DigitChar(n)] else NatToString(n / 10) + [DigitChar(n % 10)]
  }

  /** `n.toString()` for an integer */
  function IntToString(n: int): string
  {
    if n < 0 then "-" + NatToString(-n) else NatToString(n)
  }

  /** `s.padStart(width, [fill])` */
  function PadStart(s: string, width: nat, fill: char): string
  {
    if |s| >= width then s else seq(width - |s|, _ => fill) + s
  }

  /** `formatTime` */
  function FormatTime(time: real): (r: string)
    ensures time >= 0.0 ==>
              var n := time.Floor;
              r == NatToString(n / 60) + ":" + [DigitChar(n % 60 / 10), DigitChar(n % 60 % 10)]
  {
    var minutes := (time / 60.0).Floor;
    var seconds := Rem(time, 60.0).Floor;
    if time >= 0.0 then
      MinutesAndSeconds(time);
      PaddedSeconds(time.Floor % 60);
      IntToString(minutes) + ":" + PadStart(IntToString(seconds), 2, '0')
    else
      IntToString(minutes) + ":" + PadStart(IntToString(seconds), 2, '0')
  }

  /** The value of a string of decimal digits. */
  function DigitsValue(s: string): int
  {
    if s == [] then 0 else 10 * DigitsValue(s[..|s| - 1]) + (s[|s| - 1] as int - 48)
  }

  /** Reading the digits back gives the number. */
  lemma {:induction false} NatToStringRoundTrip(n: nat)
    ensures DigitsValue(NatToString(n)) == n
  {
    if n >= 10 {
      NatToStringRoundTrip(n / 10);
      var s := NatToString(n);
      assert s[..|s| - 1] == NatToString(n / 10);
    }
  }

  /** For a non-negative time, `Math.floor(time / 60)` and `Math.floor(time % 60)` are the
      quotient and remainder of the whole seconds by 60. */
  lemma MinutesAndSeconds(time: real)
    requires time >= 0.0
    ensures (time / 60.0).Floor == time.Floor / 60
    ensures Rem(time, 60.0).Floor == time.Floor % 60
  {
    var n := time.Floor;
    var m := n / 60;
    assert 60 * m <= n < 60 * m + 60;
    assert m as real <= time / 60.0 < m as real + 1.0;
    assert Trunc(time / 60.0) == m;
    assert Rem(time, 60.0) == time - 60.0 * m as real;
  }

  /** A seconds value below 60, padded: exactly two digits that read back as the value. */
  lemma PaddedSeconds(sec: nat)
    requires sec < 60
    ensures PadStart(IntToString(sec), 2, '0') == [DigitChar(sec / 10), DigitChar(sec % 10)]
    ensures DigitsValue([DigitChar(sec / 10), DigitChar(sec % 10)]) == sec
  {
    if sec >= 10 {
      assert NatToString(sec) == NatToString(sec / 10) + [DigitChar(sec % 10)];
    }
    var s := [DigitChar(sec / 10), DigitChar(sec % 10)];
    var head := [DigitChar(sec / 10)];
    assert s[..1] == head && head[..0] == [];
    assert DigitsValue(head) == sec / 10;
    assert DigitsValue(s) == 10 * (sec / 10) + sec % 10;
  }

  /** For a non-negative time: whole minutes, a colon, and the remaining whole seconds as
      exactly two digits, which read back as a number below 60; minutes * 60 + seconds is
      the whole number of seconds. */
  lemma FormatTimeOfNonNegative(time: real)
    requires time >= 0.0
    ensures var n := time.Floor;
            FormatTime(time) == NatToString(n / 60) + ":" + [DigitChar(n % 60 / 10), DigitChar(n % 60 % 10)]
    ensures var s := [DigitChar(time.Floor % 60 / 10), DigitChar(time.Floor % 60 % 10)];
            DigitsValue(s) < 60 && DigitsValue(NatToString(time.Floor / 60)) * 60 + DigitsValue(s) == time.Floor
  {
    PaddedSeconds(time.Floor % 60);
    NatToStringRoundTrip(time.Floor / 60);
  }
}
