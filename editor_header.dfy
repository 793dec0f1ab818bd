/** The countdown shown in the editor header (src/components/ide/EditorHeader.tsx):
    `formatTime` renders a number of seconds as `HH:MM:SS`. */
module EditorHeader {
  import opened Options
  import opened Strings

  /** Hours, minutes and seconds of a count of seconds. */
  datatype Clock = Clock(hours: nat, minutes: nat, seconds: nat)

  /** The three fields `formatTime` computes with floor division and remainder. */
  function Fields(total: nat): (c: Clock)
    ensures c.hours * 3600 + c.minutes * 60 + c.seconds == total
    ensures c.minutes < 60 && c.seconds < 60
  {
    Clock(total / 3600, (total % 3600) / 60, total % 60)
  }

  /** The decomposition is the only one with minutes and seconds below 60,
      so the fields determine the count and the count the fields. */
  lemma FieldsUnique(total: nat, c: Clock)
    requires c.hours * 3600 + c.minutes * 60 + c.seconds == total
    requires c.minutes < 60 && c.seconds < 60
    ensures Fields(total) == c
  {
    var rest := c.minutes * 60 + c.seconds;
    assert 0 <= rest < 3600;
    assert total == c.hours * 3600 + rest;
    assert total / 3600 == c.hours && total % 3600 == rest;
    assert rest / 60 == c.minutes;
    assert total == (c.hours * 60 + c.minutes) * 60 + c.seconds;
    assert total % 60 == c.seconds;
  }

  /** `n.toString().padStart(2, "0")`. */
  function TwoDigits(n: nat): (r: string)
    ensures |r| >= 2 && AllDigits(r)
    ensures n < 100 ==> |r| == 2
    ensures n >= 100 ==> |r| >= 3
  {
    DecimalValuePadStart(NatToString(n), 2);
    PadStartZero(NatToString(n), 2)
  }

  /** The padded field reads back as the number. */
  lemma TwoDigitsValue(n: nat)
    ensures DecimalValue(TwoDigits(n)) == n
  {
    DecimalValuePadStart(NatToString(n), 2);
    DecimalValueOfNatToString(n);
  }

  /** Three fields joined by ':'; the last two have two characters each, so
      the separators sit at fixed distances from the end. */
  function JoinClock(h: string, m: string, s: string): (r: string)
    requires |m| == 2 && |s| == 2
    ensures |r| == |h| + 6 && r[|r| - 3] == ':' && r[|r| - 6] == ':'
  {
    var r := h + ":" + m + ":" + s;
    ColonPositions(h, m, s, r);
    r
  }

  /** `formatTime(seconds)`: three zero-padded fields joined by ':'. Hours are
      not capped, so from 100 hours on the first field has three or more digits. */
  function FormatTime(total: nat): (r: string)
    ensures total < 360000 ==> |r| == 8
    ensures total >= 360000 ==> |r| >= 9
    ensures |r| >= 8 && r[|r| - 3] == ':' && r[|r| - 6] == ':'
  {
    var c := Fields(total);
    var h := TwoDigits(c.hours);
    var m := TwoDigits(c.minutes);
    var s := TwoDigits(c.seconds);
    assert |m| == 2 && |s| == 2;
    HoursBelow100(total);
    assert total < 360000 <==> |h| == 2;
    JoinClock(h, m, s)
  }

  /** Fewer than 100 hours is fewer than 360000 seconds. */
  lemma HoursBelow100(total: nat)
    ensures Fields(total).hours < 100 <==> total < 360000
  {
    var c := Fields(total);
    assert 0 <= c.minutes * 60 + c.seconds < 3600;
  }

  /** Where the separators sit in three fields joined by ':'. */
  lemma ColonPositions(h: string, m: string, s: string, r: string)
    requires |m| == 2 && |s| == 2 && r == h + ":" + m + ":" + s
    ensures |r| == |h| + 6 && r[|r| - 3] == ':' && r[|r| - 6] == ':'
  {
    assert r == (h + ":") + (m + ":" + s);
    assert r[|h|] == ':';
    assert r == (h + ":" + m + ":") + s;
    assert r[|h| + 3] == ':';
  }

  /** Reads `H:M:S` back into a count of seconds. */
  function ParseTime(t: string): Option<nat> {
    ParseFields(Split(t, ':'))
  }

  /** Three digit fields, weighted as hours, minutes and seconds. */
  function ParseFields(parts: seq<string>): Option<nat> {
    if |parts| == 3 && AllDigits(parts[0]) && AllDigits(parts[1]) && AllDigits(parts[2])
    then Some(DecimalValue(parts[0]) * 3600 + DecimalValue(parts[1]) * 60 + DecimalValue(parts[2]))
    else None
  }

  /** The rendered time loses nothing: reading it back gives the input. */
  lemma FormatTimeRoundTrip(total: nat)
    ensures ParseTime(FormatTime(total)) == Some(total)
  {
    var c := Fields(total);
    var h := TwoDigits(c.hours);
    var m := TwoDigits(c.minutes);
    var s := TwoDigits(c.seconds);
    TwoDigitsValue(c.hours);
    TwoDigitsValue(c.minutes);
    TwoDigitsValue(c.seconds);
    var t := FormatTime(total);
    assert t == h + ":" + m + ":" + s by {
      FormatTimeFields(total);
    }
    ParseThreeFields(h, m, s, t, c.hours, c.minutes, c.seconds);
    assert c.hours * 3600 + c.minutes * 60 + c.seconds == total;
  }

  /** `FormatTime` spelled out on the fields. */
  lemma FormatTimeFields(total: nat)
    ensures FormatTime(total) == TwoDigits(Fields(total).hours) + ":" + TwoDigits(Fields(total).minutes)
                                 + ":" + TwoDigits(Fields(total).seconds)
  {
    var c := Fields(total);
    assert FormatTime(total) == JoinClock(TwoDigits(c.hours), TwoDigits(c.minutes), TwoDigits(c.seconds));
  }

  /** Three digit strings joined by ':' read back as their weighted sum. */
  lemma ParseThreeFields(h: string, m: string, s: string, t: string, hours: nat, minutes: nat, seconds: nat)
    requires AllDigits(h) && AllDigits(m) && AllDigits(s)
    requires DecimalValue(h) == hours && DecimalValue(m) == minutes && DecimalValue(s) == seconds
    requires t == h + ":" + m + ":" + s
    ensures ParseTime(t) == Some(hours * 3600 + minutes * 60 + seconds)
  {
    var parts := [h, m, s];
    NoColonInDigits(h);
    NoColonInDigits(m);
    NoColonInDigits(s);
    JoinThree(h, m, s, ':');
    assert t == Join(parts, ':');
    SplitJoin(parts, ':');
    assert ParseTime(t) == ParseFields(parts);
    ParseFieldsOfDigits(h, m, s);
  }

  lemma ParseFieldsOfDigits(h: string, m: string, s: string)
    requires AllDigits(h) && AllDigits(m) && AllDigits(s)
    ensures ParseFields([h, m, s])
         == Some(DecimalValue(h) * 3600 + DecimalValue(m) * 60 + DecimalValue(s))
  {
    var parts := [h, m, s];
    assert |parts| == 3 && parts[0] == h && parts[1] == m && parts[2] == s;
  }

  lemma JoinThree(a: string, b: string, c: string, sep: char)
    ensures Join([a, b, c], sep) == a + [sep] + b + [sep] + c
  {
    var parts := [a, b, c];
    assert parts[1..] == [b, c];
    assert [b, c][1..] == [c];
    assert Join([b, c], sep) == b + [sep] + c;
    assert Join(parts, sep) == a + [sep] + (b + [sep] + c);
    assert a + [sep] + (b + [sep] + c) == a + [sep] + b + [sep] + c;
  }

  lemma NoColonInDigits(s: string)
    requires AllDigits(s)
    ensures ':' !in s
  {
    forall i | 0 <= i < |s| ensures s[i] != ':' {
      assert IsDigit(s[i]);
    }
  }

  /** The header's default of one hour. */
  lemma FormatTimeDefault()
    ensures FormatTime(3600) == "01:00:00"
  {
    FormatTimeFields(3600);
    assert Fields(3600) == Clock(1, 0, 0);
    assert TwoDigits(1) == "01" by {
      assert NatToString(1) == "1";
      assert PadStartZero("1", 2) == "01";
    }
    assert TwoDigits(0) == "00" by {
      assert NatToString(0) == "0";
      assert PadStartZero("0", 2) == "00";
    }
    assert "01" + ":" + "00" + ":" + "00" == "01:00:00";
  }
}
