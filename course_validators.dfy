/** The field validators of the course schema: clock-time format, YouTube link, minimum
    capacity and the location that only on-site courses must have. */
module CourseValidators {
  import opened CourseModel

  predicate IsDigit(c: char)
  {
    '0' <= c <= '9'
  }

  /** The hour group of the time pattern, `[01]?[0-9]|2[0-3]`. */
  predicate IsHourText(h: string)
  {
    || (|h| == 1 && IsDigit(h[0]))
    || (|h| == 2 && (((h[0] == '0' || h[0] == '1') && IsDigit(h[1])) || (h[0] == '2' && '0' <= h[1] <= '3')))
  }

  /** The minute group of the time pattern, `[0-5][0-9]`. */
  predicate IsMinuteText(m: string)
  {
    |m| == 2 && '0' <= m[0] <= '5' && IsDigit(m[1])
  }

  /** The whole anchored pattern `^([01]?[0-9]|2[0-3]):[0-5][0-9]$`: an hour of one or two
      characters, a colon, and a minute. */
  predicate IsClockTime(s: string)
  {
    || (|s| == 4 && IsHourText(s[..1]) && s[1] == ':' && IsMinuteText(s[2..]))
    || (|s| == 5 && IsHourText(s[..2]) && s[2] == ':' && IsMinuteText(s[3..]))
  }

  /** The `startTime` / `endTime` validator: an absent or empty value passes, anything else must match. */
  predicate TimeValid(v: Option<string>)
  {
    v.None? || v.value == "" || IsClockTime(v.value)
  }

  /** `String.prototype.includes`: `part` occurs somewhere in `s`. */
  predicate Includes(s: string, part: string)
    decreases |s|
  {
    part <= s || (|s| > 0 && Includes(s[1..], part))
  }

  /** The `youtubeUrl` validator: an absent or empty value passes, anything else must contain
      'youtube.com/' or 'youtu.be/'. */
  predicate YoutubeUrlValid(v: Option<string>)
  {
    v.None? || v.value == "" || Includes(v.value, "youtube.com/") || Includes(v.value, "youtu.be/")
  }

  /** `maxParticipants` has `min: 1`. */
  predicate CapacityValid(maxParticipants: int)
  {
    maxParticipants >= 1
  }

  /** `location` is `required` when the category is 'schulungszentrum'; a required string must be
      present and non-empty. */
  predicate LocationValid(category: Category, location: Option<string>)
  {
    category == Schulungszentrum ==> location.Some? && location.value != ""
  }

  /** All field validators of the schema that this model covers. */
  predicate Conforms(c: Course)
  {
    && TimeValid(c.info.startTime)
    && TimeValid(c.info.endTime)
    && LocationValid(c.category, c.info.location)
    && CapacityValid(c.maxParticipants)
    && YoutubeUrlValid(c.info.youtubeUrl)
  }

  // Reference definitions for the clock-time pattern: the texts of hour h and minute m.

  function Digit(d: int): char
    requires 0 <= d <= 9
  {
    ('0' as int + d) as char
  }

  function DigitValue(c: char): int
  {
    c as int - '0' as int
  }

  function TwoDigits(n: int): string
    requires 0 <= n <= 99
  {
    [Digit(n / 10), Digit(n % 10)]
  }

  /** "h:mm" for a one-digit hour written without padding, "hh:mm" otherwise. */
  function ClockText(h: int, m: int, padded: bool): string
    requires 0 <= h <= 23 && 0 <= m <= 59
  {
    (if padded || h >= 10 then TwoDigits(h) else [Digit(h)]) + ":" + TwoDigits(m)
  }

  /** The hour a matching text denotes. */
  function HourOf(s: string): int
    requires |s| >= 2
  {
    if |s| == 4 then DigitValue(s[0]) else 10 * DigitValue(s[0]) + DigitValue(s[1])
  }

  /** The minute a matching text denotes. */
  function MinuteOf(s: string): int
    requires |s| >= 2
  {
    10 * DigitValue(s[|s| - 2]) + DigitValue(s[|s| - 1])
  }

  lemma DigitRoundTrip(c: char)
    requires IsDigit(c)
    ensures 0 <= DigitValue(c) <= 9 && Digit(DigitValue(c)) == c
  {
  }

  /** Every text the pattern accepts is the text of an hour 0-23 and a minute 0-59. */
  lemma ClockTimeSound(s: string)
    requires IsClockTime(s)
    ensures 0 <= HourOf(s) <= 23 && 0 <= MinuteOf(s) <= 59
    ensures s == ClockText(HourOf(s), MinuteOf(s), |s| == 5)
  {
    var n := |s|;
    DigitRoundTrip(s[n - 2]);
    DigitRoundTrip(s[n - 1]);
    DigitRoundTrip(s[0]);
    assert TwoDigits(MinuteOf(s)) == s[n - 2..];
    if n == 5 {
      DigitRoundTrip(s[1]);
      assert TwoDigits(HourOf(s)) == s[..2];
      assert s == s[..2] + ":" + s[3..];
    } else {
      assert [Digit(HourOf(s))] == s[..1];
      assert s == s[..1] + ":" + s[2..];
    }
  }

  /** Every hour 0-23 and minute 0-59 is accepted written as "hh:mm", and a one-digit hour
      also written as "h:mm". */
  lemma ClockTimeComplete(h: int, m: int, padded: bool)
    requires 0 <= h <= 23 && 0 <= m <= 59
    ensures IsClockTime(ClockText(h, m, padded))
  {
    var s := ClockText(h, m, padded);
    if padded || h >= 10 {
      assert s[..2] == TwoDigits(h);
      assert s[3..] == TwoDigits(m);
    } else {
      assert s[..1] == [Digit(h)];
      assert s[2..] == TwoDigits(m);
    }
  }

  /** Reference definition of `includes`: `part` starts at position `i` of `s`. */
  predicate OccursAt(s: string, part: string, i: int)
  {
    0 <= i && i + |part| <= |s| && s[i..i + |part|] == part
  }

  /** An occurrence after the first position of `s` is an occurrence in `s[1..]`. */
  lemma OccursAtShift(s: string, part: string, i: int)
    requires |s| > 0 && i >= 1
    ensures OccursAt(s, part, i) <==> OccursAt(s[1..], part, i - 1)
  {
    if i + |part| <= |s| {
      assert s[1..][i - 1..i - 1 + |part|] == s[i..i + |part|];
    }
  }

  /** `Includes` holds exactly when `part` occurs at some position of `s`. */
  lemma {:induction false} IncludesIff(s: string, part: string)
    ensures Includes(s, part) <==> exists i :: OccursAt(s, part, i)
    decreases |s|
  {
    if part <= s {
      assert OccursAt(s, part, 0);
    } else if |s| > 0 {
      IncludesIff(s[1..], part);
      forall i | i >= 1
        ensures OccursAt(s, part, i) <==> OccursAt(s[1..], part, i - 1)
      {
        OccursAtShift(s, part, i);
      }
      if Includes(s[1..], part) {
        var j :| OccursAt(s[1..], part, j);
        assert OccursAt(s, part, j + 1);
      }
    }
  }

  /** The YouTube validator accepts a non-empty value exactly when one of the two host markers occurs in it. */
  lemma YoutubeUrlValidIff(url: string)
    requires url != ""
    ensures YoutubeUrlValid(Some(url)) <==>
      (exists i :: OccursAt(url, "youtube.com/", i)) || (exists i :: OccursAt(url, "youtu.be/", i))
  {
    IncludesIff(url, "youtube.com/");
    IncludesIff(url, "youtu.be/");
  }

  /** A location is demanded for every on-site course and for no other category. */
  lemma LocationRequiredIff(category: Category)
    ensures (forall loc :: LocationValid(category, loc)) <==> category != Schulungszentrum
  {
    if category == Schulungszentrum {
      assert !LocationValid(category, None);
    }
  }

  /** The clock-time pattern accepts exactly the texts of an hour 0-23 and a minute 0-59. */
  lemma ClockTimeIff(s: string)
    ensures IsClockTime(s) <==>
      exists h, m, padded :: 0 <= h <= 23 && 0 <= m <= 59 && s == ClockText(h, m, padded)
  {
    if IsClockTime(s) {
      ClockTimeSound(s);
    }
    forall h, m, padded | 0 <= h <= 23 && 0 <= m <= 59 && s == ClockText(h, m, padded)
      ensures IsClockTime(s)
    {
      ClockTimeComplete(h, m, padded);
    }
  }

  // Reference definitions of what each validator is meant to accept, stated without the
  // pattern and without `includes`.

  /** An optional clock time that is absent, empty, or the text of an hour and a minute. */
  ghost predicate IsClockTimeOrBlank(v: Option<string>)
  {
    v.None? || v.value == "" ||
    exists h, m, padded :: 0 <= h <= 23 && 0 <= m <= 59 && v.value == ClockText(h, m, padded)
  }

  /** An optional link that is absent, empty, or has one of the two YouTube host markers at some position. */
  ghost predicate IsYoutubeLinkOrBlank(v: Option<string>)
  {
    v.None? || v.value == "" ||
    (exists i :: OccursAt(v.value, "youtube.com/", i)) || (exists i :: OccursAt(v.value, "youtu.be/", i))
  }

  /** The schema accepts a document exactly when its capacity is at least one, an on-site course
      has a non-empty location, each clock time is blank or the text of an hour 0-23 and a
      minute 0-59, and the link is blank or names a YouTube host. */
  lemma ConformsIff(c: Course)
    ensures Conforms(c) <==>
      && c.maxParticipants >= 1
      && (c.category == Schulungszentrum ==> c.info.location.Some? && c.info.location.value != "")
      && IsClockTimeOrBlank(c.info.startTime)
      && IsClockTimeOrBlank(c.info.endTime)
      && IsYoutubeLinkOrBlank(c.info.youtubeUrl)
  {
    if c.info.startTime.Some? {
      ClockTimeIff(c.info.startTime.value);
    }
    if c.info.endTime.Some? {
      ClockTimeIff(c.info.endTime.value);
    }
    if c.info.youtubeUrl.Some? {
      IncludesIff(c.info.youtubeUrl.value, "youtube.com/");
      IncludesIff(c.info.youtubeUrl.value, "youtu.be/");
    }
  }
}
