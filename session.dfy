/** A visit session: its identity, start, pause, and the rule that keeps or
    renews it (src/tracker/Session.ts). The clock is the `now` argument, in
    milliseconds since the Unix epoch. */
module Session {
  import opened Types
  import opened Text
  import opened StorageUtil

  const MAX_UNIQUE_ID_LENGTH := 8
  const MS_PER_DAY := 86400000

  /** The UTC calendar fields `Date` reports for an instant. */
  datatype UtcFields = UtcFields(
    year: int, month: int, day: int,
    hours: int, minutes: int, seconds: int, milliseconds: int)

  predicate FieldsInRange(f: UtcFields) {
    && 1 <= f.month <= 12 && 1 <= f.day <= 31
    && 0 <= f.hours < 24 && 0 <= f.minutes < 60 && 0 <= f.seconds < 60
    && 0 <= f.milliseconds < 1000
  }

  /** Year, month and day of the proleptic Gregorian calendar for a count of
      days since 1970-01-01, counting in 400-year eras that start on
      March 1st. */
  function CivilFromDays(days: int): (r: (int, int, int))
    ensures 1 <= r.1 <= 12 && 1 <= r.2 <= 31
  {
    var z := days + 719468;
    var era := z / 146097;
    var dayOfEra := z % 146097;
    var yearOfEra := YearOfEra(dayOfEra);
    var dayOfYear := dayOfEra - (365 * yearOfEra + yearOfEra / 4 - yearOfEra / 100);
    DayOfYearBound(dayOfEra);
    var mp := (5 * dayOfYear + 2) / 153;
    var day := dayOfYear - (153 * mp + 2) / 5 + 1;
    var month := if mp < 10 then mp + 3 else mp - 9;
    (if month <= 2 then yearOfEra + era * 400 + 1 else yearOfEra + era * 400, month, day)
  }

  function YearOfEra(dayOfEra: int): int {
    (dayOfEra - dayOfEra / 1460 + dayOfEra / 36524 - dayOfEra / 146096) / 365
  }

  /** Within an era, the day of the (March-based) year is 0..365. */
  lemma DayOfYearBound(dayOfEra: int)
    requires 0 <= dayOfEra < 146097
    ensures var y := YearOfEra(dayOfEra);
      0 <= y <= 399 && 0 <= dayOfEra - (365 * y + y / 4 - y / 100) <= 365
  {
    var d := dayOfEra;
    if d == 146096 {
      assert YearOfEra(d) == 399;
    } else {
      var c := d / 36524;
      var r := d % 36524;
      var k := r / 1461;
      var s := r % 1461;
      var j := if s / 365 < 3 then s / 365 else 3;
      assert d == 36524 * c + 1461 * k + s;
      assert 1461 * k + s < 36524;
      assert 0 <= c <= 3 && 0 <= k <= 24 && 0 <= s <= 1460 && 0 <= s - 365 * j <= 365;
      var y := 100 * c + 4 * k + j;
      YearInCentury(d, c, k, s, j);
      Div4(y, 25 * c + k);
      Div100(y, c);
    }
  }

  /** A day `d` of an era, written as century `c`, four-year cycle `k`
      and day `s` of the cycle, falls in year 100c + 4k + j of the era,
      where j is the year within the cycle. */
  lemma YearInCentury(d: int, c: int, k: int, s: int, j: int)
    requires 0 <= c <= 3 && 0 <= k <= 24 && 0 <= s <= 1460 && 0 <= j <= 3
    requires 1461 * k + s < 36524 && d == 36524 * c + 1461 * k + s && d < 146096
    requires j == if s / 365 < 3 then s / 365 else 3
    ensures YearOfEra(d) == 100 * c + 4 * k + j
  {
    var delta := if 24 * c + k + s >= 1460 then 1 else 0;
    Div1460(d, 25 * c + k + delta);
    Div36524(d, c);
    var n := d - d / 1460 + d / 36524 - d / 146096;
    assert n == 365 * (100 * c + 4 * k) + s - delta;
    Div365(n, 100 * c + 4 * k + j);
  }

  lemma Div4(x: int, q: int) requires 4 * q <= x < 4 * q + 4 ensures x / 4 == q {}
  lemma Div100(x: int, q: int) requires 100 * q <= x < 100 * q + 100 ensures x / 100 == q {}
  lemma Div365(x: int, q: int) requires 365 * q <= x < 365 * q + 365 ensures x / 365 == q {}
  lemma Div1460(x: int, q: int) requires 1460 * q <= x < 1460 * q + 1460 ensures x / 1460 == q {}
  lemma Div36524(x: int, q: int) requires 36524 * q <= x < 36524 * q + 36524 ensures x / 36524 == q {}

  function UtcOf(t: int): (f: UtcFields)
    ensures FieldsInRange(f)
  {
    var days := t / MS_PER_DAY;
    var ms := t % MS_PER_DAY;
    var date := CivilFromDays(days);
    UtcFields(date.0, date.1, date.2,
              ms / 3600000, ms / 60000 % 60, ms / 1000 % 60, ms % 1000)
  }

  /** The inverse of `CivilFromDays`: days since 1970-01-01 of a date. */
  function DaysFromCivil(year: int, month: int, day: int): int {
    var y := if month <= 2 then year - 1 else year;
    var era := y / 400;
    var yearOfEra := y - era * 400;
    var mp := if month > 2 then month - 3 else month + 9;
    var dayOfYear := (153 * mp + 2) / 5 + day - 1;
    era * 146097 + yearOfEra * 365 + yearOfEra / 4 - yearOfEra / 100 + dayOfYear - 719468
  }

  lemma DivEra(yearOfEra: int, era: int)
    requires 0 <= yearOfEra < 400
    ensures (yearOfEra + era * 400) / 400 == era
  {
  }

  lemma {:induction false} CivilRoundTrip(days: int)
    ensures var date := CivilFromDays(days); DaysFromCivil(date.0, date.1, date.2) == days
  {
    var z := days + 719468;
    var era := z / 146097;
    var dayOfEra := z % 146097;
    DayOfYearBound(dayOfEra);
    var yearOfEra := YearOfEra(dayOfEra);
    var dayOfYear := dayOfEra - (365 * yearOfEra + yearOfEra / 4 - yearOfEra / 100);
    var mp := (5 * dayOfYear + 2) / 153;
    assert 0 <= mp <= 11;
    var day := dayOfYear - (153 * mp + 2) / 5 + 1;
    var month := if mp < 10 then mp + 3 else mp - 9;
    var y := yearOfEra + era * 400;
    var date := CivilFromDays(days);
    assert date == (if month <= 2 then y + 1 else y, month, day);
    var y' := if date.1 <= 2 then date.0 - 1 else date.0;
    assert y' == y;
    DivEra(yearOfEra, era);
    assert y' / 400 == era && y' - era * 400 == yearOfEra;
    assert (if month > 2 then month - 3 else month + 9) == mp;
    assert (153 * mp + 2) / 5 + day - 1 == dayOfYear;
    assert era * 146097 + dayOfEra == z;
  }

  /** The time of day splits into hours, minutes, seconds and milliseconds. */
  lemma SplitTimeOfDay(ms: int)
    requires 0 <= ms < MS_PER_DAY
    ensures ms == ms / 3600000 * 3600000 + ms / 60000 % 60 * 60000 + ms / 1000 % 60 * 1000 + ms % 1000
  {
    var sec := ms / 1000;
    var min := sec / 60;
    assert ms / 60000 == min;
    assert ms / 3600000 == min / 60;
    assert ms == sec * 1000 + ms % 1000;
    assert sec == min * 60 + sec % 60;
    assert min == min / 60 * 60 + min % 60;
  }

  /** The instant the fields denote. */
  function TimeOf(f: UtcFields): int {
    DaysFromCivil(f.year, f.month, f.day) * MS_PER_DAY
      + f.hours * 3600000 + f.minutes * 60000 + f.seconds * 1000 + f.milliseconds
  }

  /** The calendar breakdown loses nothing: the fields give back the instant. */
  lemma UtcRoundTrip(t: int)
    ensures TimeOf(UtcOf(t)) == t
  {
    var days := t / MS_PER_DAY;
    var ms := t % MS_PER_DAY;
    CivilRoundTrip(days);
    SplitTimeOfDay(ms);
    var f := UtcOf(t);
    assert DaysFromCivil(f.year, f.month, f.day) == days;
    assert t == days * MS_PER_DAY + ms;
  }

  function Pad(n: int, width: int): string {
    PadStart(IntToString(n), width, '0')
  }

  /** A field that fits its width pads to exactly that width and reads back. */
  lemma PadShape(n: nat, width: nat)
    requires |NatToString(n)| <= width
    ensures |Pad(n, width)| == width && ParseInt(Pad(n, width)) == Some(n)
  {
    ParsePadded(n, width);
  }

  /** `getFormatTime` on the fields: YYYYMMDD-HHMMSSmmm, zero-padded. */
  function FormatFields(f: UtcFields): string {
    (Pad(f.year, 4) + Pad(f.month, 2) + Pad(f.day, 2)) + "-"
      + (Pad(f.hours, 2) + Pad(f.minutes, 2) + Pad(f.seconds, 2) + Pad(f.milliseconds, 3))
  }

  /** `getFormatTime` of the instant `now`. */
  function FormatTime(now: int): string {
    FormatFields(UtcOf(now))
  }

  /** Where the pieces of a concatenation sit. */
  lemma Pieces3(a: string, b: string, c: string)
    ensures var d := a + b + c;
      d[..|a|] == a && d[|a|..|a| + |b|] == b && d[|a| + |b|..] == c
  {
  }

  lemma DateParts(a: string, b: string, c: string, year: int, month: int, day: int)
    requires |a| == 4 && |b| == 2 && |c| == 2
    requires ParseInt(a) == Some(year) && ParseInt(b) == Some(month) && ParseInt(c) == Some(day)
    ensures var d := a + b + c;
      && |d| == 8
      && ParseInt(d[0..4]) == Some(year) && ParseInt(d[4..6]) == Some(month)
      && ParseInt(d[6..8]) == Some(day)
  {
    Pieces3(a, b, c);
    var d := a + b + c;
    assert d[0..4] == a && d[4..6] == b && d[6..8] == c;
  }

  lemma ClockParts(a: string, b: string, c: string, e: string, hours: int, minutes: int, seconds: int, ms: int)
    requires |a| == 2 && |b| == 2 && |c| == 2 && |e| == 3
    requires ParseInt(a) == Some(hours) && ParseInt(b) == Some(minutes)
    requires ParseInt(c) == Some(seconds) && ParseInt(e) == Some(ms)
    ensures var d := a + b + c + e;
      && |d| == 9
      && ParseInt(d[0..2]) == Some(hours) && ParseInt(d[2..4]) == Some(minutes)
      && ParseInt(d[4..6]) == Some(seconds) && ParseInt(d[6..9]) == Some(ms)
  {
    Pieces3(a, b, c);
    Pieces3(a + b, c, e);
    var d := a + b + c + e;
    assert d[0..2] == a && d[2..4] == b && d[4..6] == c && d[6..9] == e;
  }

  lemma FormatDateShape(year: int, month: int, day: int)
    requires 0 <= year <= 9999 && 1 <= month <= 12 && 1 <= day <= 31
    ensures var d := Pad(year, 4) + Pad(month, 2) + Pad(day, 2);
      && |d| == 8
      && ParseInt(d[0..4]) == Some(year) && ParseInt(d[4..6]) == Some(month)
      && ParseInt(d[6..8]) == Some(day)
  {
    NatToStringShort(year);
    NatToStringShort(month);
    NatToStringShort(day);
    PadShape(year, 4);
    PadShape(month, 2);
    PadShape(day, 2);
    DateParts(Pad(year, 4), Pad(month, 2), Pad(day, 2), year, month, day);
  }

  lemma FormatClockShape(hours: int, minutes: int, seconds: int, ms: int)
    requires 0 <= hours < 24 && 0 <= minutes < 60 && 0 <= seconds < 60 && 0 <= ms < 1000
    ensures var c := Pad(hours, 2) + Pad(minutes, 2) + Pad(seconds, 2) + Pad(ms, 3);
      && |c| == 9
      && ParseInt(c[0..2]) == Some(hours) && ParseInt(c[2..4]) == Some(minutes)
      && ParseInt(c[4..6]) == Some(seconds) && ParseInt(c[6..9]) == Some(ms)
  {
    NatToStringShort(hours);
    NatToStringShort(minutes);
    NatToStringShort(seconds);
    NatToStringShort(ms);
    PadShape(hours, 2);
    PadShape(minutes, 2);
    PadShape(seconds, 2);
    PadShape(ms, 3);
    ClockParts(Pad(hours, 2), Pad(minutes, 2), Pad(seconds, 2), Pad(ms, 3), hours, minutes, seconds, ms);
  }

  /** For years 0 to 9999 the token is 18 characters with '-' at position 8,
      and each field reads back from its fixed place. */
  lemma FormatFieldsShape(f: UtcFields)
    requires FieldsInRange(f) && 0 <= f.year <= 9999
    ensures var r := FormatFields(f);
      && |r| == 18 && r[8] == '-'
      && ParseInt(r[0..4]) == Some(f.year) && ParseInt(r[4..6]) == Some(f.month)
      && ParseInt(r[6..8]) == Some(f.day) && ParseInt(r[9..11]) == Some(f.hours)
      && ParseInt(r[11..13]) == Some(f.minutes) && ParseInt(r[13..15]) == Some(f.seconds)
      && ParseInt(r[15..18]) == Some(f.milliseconds)
  {
    FormatDateShape(f.year, f.month, f.day);
    FormatClockShape(f.hours, f.minutes, f.seconds, f.milliseconds);
    TokenParts(Pad(f.year, 4) + Pad(f.month, 2) + Pad(f.day, 2),
               Pad(f.hours, 2) + Pad(f.minutes, 2) + Pad(f.seconds, 2) + Pad(f.milliseconds, 3));
  }

  lemma TokenParts(d: string, c: string)
    requires |d| == 8 && |c| == 9
    ensures var r := d + "-" + c;
      && |r| == 18 && r[8] == '-'
      && r[0..4] == d[0..4] && r[4..6] == d[4..6] && r[6..8] == d[6..8]
      && r[9..11] == c[0..2] && r[11..13] == c[2..4] && r[13..15] == c[4..6] && r[15..18] == c[6..9]
  {
    Pieces3(d, "-", c);
  }

  /** Reads a YYYYMMDD-HHMMSSmmm token back into its fields. */
  function TokenFields(r: string): Option<UtcFields> {
    if |r| != 18 || r[8] != '-' then None
    else
      var year := ParseInt(r[0..4]);
      var month := ParseInt(r[4..6]);
      var day := ParseInt(r[6..8]);
      var hours := ParseInt(r[9..11]);
      var minutes := ParseInt(r[11..13]);
      var seconds := ParseInt(r[13..15]);
      var ms := ParseInt(r[15..18]);
      if year.Some? && month.Some? && day.Some? && hours.Some? && minutes.Some? && seconds.Some? && ms.Some?
      then Some(UtcFields(year.value, month.value, day.value, hours.value, minutes.value, seconds.value, ms.value))
      else None
  }

  /** The time token of an instant in years 0 to 9999 is 18 characters with
      '-' at position 8, and reading it back gives the instant's UTC fields
      and so the instant itself. */
  lemma FormatTimeShape(now: int)
    requires 0 <= UtcOf(now).year <= 9999
    ensures |FormatTime(now)| == 18 && FormatTime(now)[8] == '-'
    ensures TokenFields(FormatTime(now)) == Some(UtcOf(now))
    ensures TimeOf(TokenFields(FormatTime(now)).value) == now
  {
    FormatFieldsShape(UtcOf(now));
    UtcRoundTrip(now);
  }

  /** `getSessionId`: the last (at most) eight characters of the user's
      unique id, a '-', and the time token. */
  function SessionId(uniqueId: string, now: int): string
  {
    SliceLast(uniqueId, MAX_UNIQUE_ID_LENGTH) + "-" + FormatTime(now)
  }

  /** For a start in years 0 to 9999 the id is 19 characters longer than
      the unique id's tail, and its last 18 read back as the start time. */
  lemma SessionIdShape(uniqueId: string, now: int)
    ensures var id := SessionId(uniqueId, now); var k := Min(MAX_UNIQUE_ID_LENGTH, |uniqueId|);
      && id[..k] == uniqueId[|uniqueId| - k..]
      && id[k] == '-'
      && id[k + 1..] == FormatTime(now)
    ensures 0 <= UtcOf(now).year <= 9999 ==>
      var id := SessionId(uniqueId, now);
      && |id| == Min(MAX_UNIQUE_ID_LENGTH, |uniqueId|) + 19
      && TokenFields(id[|id| - 18..]) == Some(UtcOf(now))
      && TimeOf(TokenFields(id[|id| - 18..]).value) == now
  {
    var tail := SliceLast(uniqueId, MAX_UNIQUE_ID_LENGTH);
    var token := FormatTime(now);
    Pieces3(tail, "-", token);
    if 0 <= UtcOf(now).year <= 9999 {
      FormatTimeShape(now);
      var id := tail + "-" + token;
      assert id[|id| - 18..] == token;
    }
  }

  /** `createSession`'s value: a fresh, never paused session. */
  function NewSession(uniqueId: string, sessionIndex: int, now: int): SessionData {
    SessionData(SessionId(uniqueId, now), sessionIndex, now, None)
  }

  /** The rule of `getCurrentSession` on values: the previous session, or
      the stored one when there is no previous, is kept while the time since
      its pause is under the timeout, and otherwise followed by a new session
      with the next index; with neither, the first session starts. A session
      never paused has no pause to measure from and is always followed. */
  function CurrentSession(previous: Option<SessionData>, stored: Option<SessionData>,
                          uniqueId: string, timeout: int, now: int): SessionData
  {
    var candidate := if previous.Some? then previous else stored;
    match candidate
    case None => NewSession(uniqueId, 1, now)
    case Some(s) =>
      if s.pauseTime.Some? && now - s.pauseTime.value < timeout then s
      else NewSession(uniqueId, s.sessionIndex + 1, now)
  }

  /** Kept exactly when paused less than `timeout` ago; a kept session is
      not new, and a replacement is new, starts now, and has the next index
      (1 when there was no session at all). */
  lemma CurrentSessionRule(previous: Option<SessionData>, stored: Option<SessionData>,
                           uniqueId: string, timeout: int, now: int)
    ensures var candidate := if previous.Some? then previous else stored;
      var r := CurrentSession(previous, stored, uniqueId, timeout, now);
      && (candidate.None? ==> r.sessionIndex == 1 && r.pauseTime.None? && r.startTime == now)
      && (candidate.Some? ==>
            var s := candidate.value;
            var kept := s.pauseTime.Some? && now - s.pauseTime.value < timeout;
            && (kept ==> r == s && r.pauseTime.Some?)
            && (!kept ==> r.sessionIndex == s.sessionIndex + 1 && r.pauseTime.None? && r.startTime == now)
            && (r.pauseTime.None? <==> !kept))
  {
  }

  /** A live session object; only its pause time ever changes. */
  class Session {
    const sessionId: string
    const sessionIndex: int
    const startTime: int
    var pauseTime: Option<int>

    constructor (data: SessionData)
      ensures Data() == data
    {
      sessionId := data.sessionId;
      sessionIndex := data.sessionIndex;
      startTime := data.startTime;
      pauseTime := data.pauseTime;
    }

    function Data(): SessionData
      reads this
    {
      SessionData(sessionId, sessionIndex, startTime, pauseTime)
    }

    predicate IsNewSession()
      reads this
    {
      pauseTime == None
    }

    function GetDuration(now: int): (d: int)
      reads this
      ensures startTime + d == now
    {
      now - startTime
    }

    method Pause(now: int)
      modifies this
      ensures pauseTime == Some(now) && !IsNewSession()
      ensures Data() == old(Data()).(pauseTime := Some(now))
    {
      pauseTime := Some(now);
    }
  }

  method CreateSession(uniqueId: string, sessionIndex: int, now: int) returns (s: Session)
    ensures fresh(s)
    ensures s.Data() == NewSession(uniqueId, sessionIndex, now) && s.IsNewSession()
  {
    s := new Session(SessionData(SessionId(uniqueId, now), sessionIndex, now, None));
  }

  /** `CurrentSession` by cases on the candidate session. */
  lemma CurrentSessionOf(previous: Option<SessionData>, stored: Option<SessionData>,
                         uniqueId: string, timeout: int, now: int, candidate: Option<SessionData>)
    requires candidate == if previous.Some? then previous else stored
    ensures candidate.Some? && candidate.value.pauseTime.Some? && now - candidate.value.pauseTime.value < timeout ==>
      CurrentSession(previous, stored, uniqueId, timeout, now) == candidate.value
    ensures candidate.None? ==> CurrentSession(previous, stored, uniqueId, timeout, now) == NewSession(uniqueId, 1, now)
    ensures candidate.Some? && !(candidate.value.pauseTime.Some? && now - candidate.value.pauseTime.value < timeout) ==>
      CurrentSession(previous, stored, uniqueId, timeout, now) == NewSession(uniqueId, candidate.value.sessionIndex + 1, now)
  {
  }

  /** `getCurrentSession`: a kept previous session is returned as the same
      object; a stored one is rebuilt from storage. */
  method GetCurrentSession(store: Storage, uniqueId: string, timeout: int, previous: Session?, now: int)
    returns (s: Session)
    ensures previous == null ==> s.Data() == CurrentSession(None, SessionOf(store.items), uniqueId, timeout, now)
    ensures previous != null ==> s.Data() == CurrentSession(Some(previous.Data()), None, uniqueId, timeout, now)
    ensures previous != null && s.Data() == previous.Data() && s.pauseTime.Some? ==> s == previous
    ensures s == previous || fresh(s)
  {
    ghost var prev := if previous == null then None else Some(previous.Data());
    ghost var stored := if previous == null then SessionOf(store.items) else None;
    var session: Session? := previous;
    if previous == null {
      var fromStore := store.GetSession();
      if fromStore.Some? {
        session := new Session(fromStore.value);
      }
    }
    ghost var candidate := if session == null then None else Some(session.Data());
    assert candidate == if prev.Some? then prev else stored;
    if session != null && session.pauseTime.Some? && now - session.pauseTime.value < timeout {
      CurrentSessionOf(prev, stored, uniqueId, timeout, now, candidate);
      assert session.Data() == CurrentSession(prev, stored, uniqueId, timeout, now);
      return session;
    }
    var index := if session == null then 1 else session.sessionIndex + 1;
    CurrentSessionOf(prev, stored, uniqueId, timeout, now, candidate);
    ghost var next := CurrentSession(prev, stored, uniqueId, timeout, now);
    if session == null {
      assert next == NewSession(uniqueId, index, now);
    } else {
      assert index == candidate.value.sessionIndex + 1;
      assert next == NewSession(uniqueId, index, now);
    }
    s := CreateSession(uniqueId, index, now);
  }
}
