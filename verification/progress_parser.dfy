/**
  How the download server reads ffmpeg's diagnostic output (server/server.js:57-94).

  Each stderr chunk is searched for `Duration: HH:MM:SS.ff` and `time=HH:MM:SS.ff`
  with the regular expressions `(\d{2}):(\d{2}):(\d{2}.\d{2})`, whose `.` is not
  escaped: it matches any character except a line terminator. Timestamps are kept
  as whole centiseconds and the percentage as an exact real number.
*/
module ProgressParser {
  import opened Wrappers

  /** The prefixes of the two patterns (server/server.js:62, 72). */
  const DurationLabel: string := "Duration: "
  const TimeLabel: string := "time="

  /** Length of the text the three groups capture, `HH:MM:SS?ff`. */
  const StampLength: nat := 11

  predicate IsDigit(c: char) {
    '0' <= c <= '9'
  }

  /** The characters that a JavaScript `.` does not match. */
  predicate IsLineTerminator(c: char) {
    c == '\n' || c == '\r' || c == '\U{2028}' || c == '\U{2029}'
  }

  /** `t` is text matched by `(\d{2}):(\d{2}):(\d{2}.\d{2})`. The pattern has
      no `u` flag, so its `.` matches one UTF-16 code unit: a character outside
      the Basic Multilingual Plane (two code units) makes the match fail. */
  predicate IsStamp(t: string) {
    && |t| == StampLength
    && IsDigit(t[0]) && IsDigit(t[1]) && t[2] == ':'
    && IsDigit(t[3]) && IsDigit(t[4]) && t[5] == ':'
    && IsDigit(t[6]) && IsDigit(t[7]) && !IsLineTerminator(t[8]) && t[8] as int < 0x1_0000
    && IsDigit(t[9]) && IsDigit(t[10])
  }

  /** The whole pattern `prefix(\d{2}):(\d{2}):(\d{2}.\d{2})` matches `s` at index `i`. */
  predicate MatchesAt(s: string, prefix: string, i: nat) {
    && i + |prefix| + StampLength <= |s|
    && s[i..i + |prefix|] == prefix
    && IsStamp(s[i + |prefix|..i + |prefix| + StampLength])
  }

  /** The three groups of a match at `i`, joined again by ':' (that is, the
      matched text after the prefix). */
  function StampAt(s: string, prefix: string, i: nat): (t: string)
    requires MatchesAt(s, prefix, i)
    ensures IsStamp(t)
  {
    s[i + |prefix|..i + |prefix| + StampLength]
  }

  /** The leftmost match at or after `i`: what a non-global `String.match`
      finds. */
  function FirstMatchFrom(s: string, prefix: string, i: nat): (r: Option<nat>)
    requires i <= |s|
    decreases |s| - i
    ensures r.Some? ==> i <= r.value && MatchesAt(s, prefix, r.value)
  {
    if MatchesAt(s, prefix, i) then Some(i)
    else if i == |s| then None
    else FirstMatchFrom(s, prefix, i + 1)
  }

  /** No position from `i` up to the one FirstMatchFrom returns (or none at all,
      when it returns nothing) matches. */
  lemma {:induction false} FirstMatchFromIsLeftmost(s: string, prefix: string, i: nat)
    requires i <= |s|
    ensures var r := FirstMatchFrom(s, prefix, i);
      forall j :: i <= j && (r.None? || j < r.value) ==> !MatchesAt(s, prefix, j)
    decreases |s| - i
  {
    if !MatchesAt(s, prefix, i) && i < |s| {
      FirstMatchFromIsLeftmost(s, prefix, i + 1);
    }
  }

  /** `chunk.match(prefix + stamp)`: the captured stamp of the first match, if any. */
  function FindStamp(chunk: string, prefix: string): (r: Option<string>)
    ensures r.Some? ==> IsStamp(r.value)
  {
    match FirstMatchFrom(chunk, prefix, 0)
    case Some(i) => Some(StampAt(chunk, prefix, i))
    case None => None
  }

  /** FindStamp finds nothing exactly when the pattern matches nowhere, and
      otherwise returns the stamp of the leftmost match. */
  lemma FindStampIsLeftmost(chunk: string, prefix: string)
    ensures FindStamp(chunk, prefix).None? <==> forall j :: !MatchesAt(chunk, prefix, j)
    ensures FindStamp(chunk, prefix).Some? ==>
      exists i :: && MatchesAt(chunk, prefix, i)
                  && FindStamp(chunk, prefix).value == StampAt(chunk, prefix, i)
                  && forall j :: j < i ==> !MatchesAt(chunk, prefix, j)
  {
    FirstMatchFromIsLeftmost(chunk, prefix, 0);
  }

  function DigitValue(c: char): (d: nat)
    requires IsDigit(c)
    ensures d <= 9
  {
    c as nat - '0' as nat
  }

  /** `parseInt` of two decimal digits. */
  function TwoDigitValue(a: char, b: char): (n: nat)
    requires IsDigit(a) && IsDigit(b)
    ensures n <= 99
  {
    10 * DigitValue(a) + DigitValue(b)
  }

  function Pow10(n: nat): nat {
    if n == 0 then 1 else 10 * Pow10(n - 1)
  }

  function Hours(t: string): nat
    requires IsStamp(t)
  {
    TwoDigitValue(t[0], t[1])
  }

  function Minutes(t: string): nat
    requires IsStamp(t)
  {
    TwoDigitValue(t[3], t[4])
  }

  /** `parseFloat` of the five-character seconds group `d d x d d`, as an exact
      real number of seconds. A '.' starts a two-digit fraction, an 'e' or 'E'
      a two-digit exponent, a digit makes a five-digit integer, and any other
      character ends the number after the first two digits. */
  function ParseSeconds(t: string): (x: real)
    requires IsStamp(t)
    ensures 0.0 <= x
    ensures t[8] == '.' ==>
      TwoDigitValue(t[6], t[7]) as real <= x < TwoDigitValue(t[6], t[7]) as real + 1.0
    ensures t[8] != '.' ==> x == x.Floor as real
  {
    var whole := TwoDigitValue(t[6], t[7]);
    var last := TwoDigitValue(t[9], t[10]);
    if t[8] == '.' then whole as real + last as real / 100.0
    else if t[8] == 'e' || t[8] == 'E' then (whole * Pow10(last)) as real
    else if IsDigit(t[8]) then (1000 * whole + 100 * DigitValue(t[8]) + last) as real
    else whole as real
  }

  /** The seconds group in whole centiseconds. */
  function SecondsCentis(t: string): (c: nat)
    requires IsStamp(t)
    ensures c as real == 100.0 * ParseSeconds(t)
  {
    var whole := TwoDigitValue(t[6], t[7]);
    var last := TwoDigitValue(t[9], t[10]);
    if t[8] == '.' then
      assert 100.0 * (whole as real + last as real / 100.0) == (100 * whole + last) as real;
      100 * whole + last
    else if t[8] == 'e' || t[8] == 'E' then
      var n := whole * Pow10(last);
      assert 100.0 * n as real == (100 * n) as real;
      100 * n
    else if IsDigit(t[8]) then
      var n := 1000 * whole + 100 * DigitValue(t[8]) + last;
      assert 100.0 * n as real == (100 * n) as real;
      100 * n
    else
      assert 100.0 * whole as real == (100 * whole) as real;
      100 * whole
  }

  /** `hours * 3600 + minutes * 60 + seconds` (server/server.js:64-67, 74-77),
      in centiseconds. */
  function StampCentis(t: string): (c: nat)
    requires IsStamp(t)
    ensures c as real / 100.0 == (Hours(t) * 3600 + Minutes(t) * 60) as real + ParseSeconds(t)
    ensures t[8] == '.' ==> c == 100 * (Hours(t) * 3600 + Minutes(t) * 60 + TwoDigitValue(t[6], t[7])) + TwoDigitValue(t[9], t[10])
  {
    100 * (3600 * Hours(t) + 60 * Minutes(t)) + SecondsCentis(t)
  }

  /** Progress in percent (server/server.js:80): 0 while the duration is unknown
      (0), otherwise `currentTime / duration * 100`. */
  function Percent(current: nat, duration: nat): (p: real)
    ensures duration == 0 ==> p == 0.0
    ensures duration != 0 ==> p * duration as real == 100.0 * current as real
    ensures 0.0 <= p
    ensures current <= duration ==> p <= 100.0
  {
    if duration == 0 then 0.0 else current as real / duration as real * 100.0
  }

  /** `Math.round`: the nearest integer, halves rounded up. */
  function Round(x: real): (n: int)
    ensures x - 0.5 < n as real <= x + 0.5
  {
    (x + 0.5).Floor
  }

  /** The unescaped '.' lets an exponent through: `parseFloat("01e02")` is 100. */
  lemma ExponentSeparator()
    ensures IsStamp("00:00:01e02") && StampCentis("00:00:01e02") == 10000
  {
  }

  function Abs(x: real): real {
    if x < 0.0 then -x else x
  }

  /** Values at least 1 apart round to different integers, so consecutive sent
      percentages always differ. */
  lemma RoundSeparates(a: real, b: real)
    requires Abs(b - a) >= 1.0
    ensures Round(a) != Round(b)
  {
  }

  /** The facts the handler takes from one stderr chunk: the value of the
      first `Duration:` match, and the value and text of the first `time=`
      match (server/server.js:62-77). */
  datatype Reading = Reading(duration: Option<nat>, time: Option<TimeReading>)

  datatype TimeReading = TimeReading(centis: nat, text: string)

  /** The value and text of the first match of `prefix` followed by a stamp. */
  function ReadStamp(chunk: string, prefix: string): (r: Option<TimeReading>)
    ensures r.None? <==> forall j :: !MatchesAt(chunk, prefix, j)
    ensures r.Some? ==>
      exists i :: && MatchesAt(chunk, prefix, i)
                  && (forall j :: j < i ==> !MatchesAt(chunk, prefix, j))
                  && r.value.text == StampAt(chunk, prefix, i)
    ensures r.Some? ==> IsStamp(r.value.text) && r.value.centis == StampCentis(r.value.text)
  {
    FindStampIsLeftmost(chunk, prefix);
    match FindStamp(chunk, prefix)
    case Some(t) => Some(TimeReading(StampCentis(t), t))
    case None => None
  }

  /** Both searches of one chunk (server/server.js:62, 72): a duration exactly
      when `Duration:` matches somewhere, then the value of its first match;
      a time exactly when `time=` matches somewhere, then its first match. */
  function ReadChunk(chunk: string): (r: Reading)
    ensures r.duration.None? <==> forall j :: !MatchesAt(chunk, DurationLabel, j)
    ensures r.duration.Some? ==>
      exists i :: && MatchesAt(chunk, DurationLabel, i)
                  && (forall j :: j < i ==> !MatchesAt(chunk, DurationLabel, j))
                  && r.duration.value == StampCentis(StampAt(chunk, DurationLabel, i))
    ensures r.time.None? <==> forall j :: !MatchesAt(chunk, TimeLabel, j)
    ensures r.time.Some? ==>
      exists i :: && MatchesAt(chunk, TimeLabel, i)
                  && (forall j :: j < i ==> !MatchesAt(chunk, TimeLabel, j))
                  && r.time.value.text == StampAt(chunk, TimeLabel, i)
                  && r.time.value.centis == StampCentis(r.time.value.text)
  {
    var d := ReadStamp(chunk, DurationLabel);
    Reading(if d.Some? then Some(d.value.centis) else None, ReadStamp(chunk, TimeLabel))
  }

  /** The two variables the stderr handler keeps for one download
      (server/server.js:54-55): duration in centiseconds, 0 meaning unknown,
      and the last progress value that passed the throttle. */
  datatype Tracker = Tracker(duration: nat, lastProgress: real)

  /** The tracker the handler starts from. */
  const Initial: Tracker := Tracker(0, 0.0)

  /** An update that passed the throttle: the unrounded progress and the
      matched time text. */
  datatype Update = Update(progress: real, time: string)

  datatype StepResult = StepResult(after: Tracker, sent: Option<Update>)

  /** The duration after one chunk: taken from the chunk only while it is
      still 0 (server/server.js:61-68). */
  function NextDuration(duration: nat, reading: Reading): (d: nat)
    ensures duration != 0 ==> d == duration
    ensures duration == 0 && reading.duration.Some? ==> d == reading.duration.value
    ensures reading.duration.None? ==> d == duration
  {
    if duration != 0 then duration
    else match reading.duration
      case Some(found) => found
      case None => duration
  }

  /** What the stderr handler does with one chunk's reading
      (server/server.js:57-94): the new tracker and the update that passed
      the throttle, if any. */
  function Step(st: Tracker, reading: Reading): (r: StepResult)
    ensures r.after.duration == NextDuration(st.duration, reading)
    ensures r.sent.None? ==> r.after.lastProgress == st.lastProgress
    ensures r.sent.Some? ==>
      && r.after.lastProgress == r.sent.value.progress
      && Abs(r.sent.value.progress - st.lastProgress) >= 1.0
    ensures r.sent.Some? <==>
      reading.time.Some? &&
      Abs(Percent(reading.time.value.centis, r.after.duration) - st.lastProgress) >= 1.0
    ensures r.sent.Some? ==>
      r.sent.value == Update(Percent(reading.time.value.centis, r.after.duration), reading.time.value.text)
  {
    var duration := NextDuration(st.duration, reading);
    match reading.time
    case None => StepResult(Tracker(duration, st.lastProgress), None)
    case Some(t) =>
      var progress := Percent(t.centis, duration);
      if Abs(progress - st.lastProgress) >= 1.0 then
        StepResult(Tracker(duration, progress), Some(Update(progress, t.text)))
      else
        StepResult(Tracker(duration, st.lastProgress), None)
  }

  datatype RunResult = RunResult(after: Tracker, sent: seq<Update>)

  /** The handler applied to the readings of successive chunks: the final
      tracker and every update that passed the throttle, in order. */
  function Run(st: Tracker, readings: seq<Reading>): (r: RunResult)
    ensures |r.sent| <= |readings|
    ensures forall k :: 0 <= k < |r.sent| ==> 0.0 <= r.sent[k].progress
    decreases |readings|
  {
    if readings == [] then RunResult(st, [])
    else
      var s := Step(st, readings[0]);
      var rest := Run(s.after, readings[1..]);
      RunResult(rest.after, (if s.sent.Some? then [s.sent.value] else []) + rest.sent)
  }

  /** Consecutive updates are at least 1 apart. */
  predicate Spaced(sent: seq<Update>) {
    forall k :: 0 <= k < |sent| - 1 ==> Abs(sent[k + 1].progress - sent[k].progress) >= 1.0
  }

  lemma SpacedCons(u: Update, rest: seq<Update>)
    requires Spaced(rest)
    requires |rest| > 0 ==> Abs(rest[0].progress - u.progress) >= 1.0
    ensures Spaced([u] + rest)
  {
  }

  /** The first update of a run is at least 1 away from the starting
      `lastProgress`, and the final `lastProgress` is the last update sent (or
      the starting value when none was sent). */
  lemma {:induction false} RunEndsAtLastSent(st: Tracker, readings: seq<Reading>)
    ensures var r := Run(st, readings);
      && (|r.sent| > 0 ==> Abs(r.sent[0].progress - st.lastProgress) >= 1.0)
      && r.after.lastProgress == (if |r.sent| > 0 then r.sent[|r.sent| - 1].progress else st.lastProgress)
    decreases |readings|
  {
    if readings != [] {
      var s := Step(st, readings[0]);
      var rest := Run(s.after, readings[1..]);
      RunEndsAtLastSent(s.after, readings[1..]);
      var head := if s.sent.Some? then [s.sent.value] else [];
      assert Run(st, readings) == RunResult(rest.after, head + rest.sent);
    }
  }

  /** Throttling over a whole run (server/server.js:83-84): consecutive
      updates are at least 1 apart. */
  lemma {:induction false} RunThrottled(st: Tracker, readings: seq<Reading>)
    ensures Spaced(Run(st, readings).sent)
    decreases |readings|
  {
    if readings != [] {
      var s := Step(st, readings[0]);
      var rest := Run(s.after, readings[1..]);
      RunThrottled(s.after, readings[1..]);
      if s.sent.Some? {
        RunEndsAtLastSent(s.after, readings[1..]);
        assert Run(st, readings).sent == [s.sent.value] + rest.sent;
        SpacedCons(s.sent.value, rest.sent);
      } else {
        assert Run(st, readings).sent == rest.sent;
      }
    }
  }

  /** The percentages actually written (`Math.round(progress)`, server/server.js:88)
      are pairwise different between consecutive updates. */
  lemma SentPercentsDiffer(st: Tracker, readings: seq<Reading>)
    ensures var sent := Run(st, readings).sent;
      forall k :: 0 <= k < |sent| - 1 ==> Round(sent[k].progress) != Round(sent[k + 1].progress)
  {
    var sent := Run(st, readings).sent;
    RunThrottled(st, readings);
    forall k | 0 <= k < |sent| - 1
      ensures Round(sent[k].progress) != Round(sent[k + 1].progress)
    {
      RoundSeparates(sent[k].progress, sent[k + 1].progress);
    }
  }

  /** Once the duration is known it is never overwritten by later readings. */
  lemma {:induction false} RunKeepsDuration(st: Tracker, readings: seq<Reading>)
    requires st.duration != 0
    ensures Run(st, readings).after.duration == st.duration
    decreases |readings|
  {
    if readings != [] {
      RunKeepsDuration(Step(st, readings[0]).after, readings[1..]);
    }
  }

  /** While no chunk yields a non-zero duration, the progress stays 0 and so
      nothing passes the throttle: a download whose duration is never found
      sends no progress updates at all. */
  lemma {:induction false} NoDurationNoUpdates(readings: seq<Reading>)
    requires forall k :: 0 <= k < |readings| ==> NextDuration(0, readings[k]) == 0
    ensures Run(Initial, readings) == RunResult(Initial, [])
    decreases |readings|
  {
    if readings != [] {
      assert NextDuration(0, readings[0]) == 0;
      assert Step(Initial, readings[0]).after == Initial;
      NoDurationNoUpdates(readings[1..]);
    }
  }
}
