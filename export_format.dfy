/** The duration formatter of the export cog (commands/export.py): whole
    hours and minutes when there is at least an hour, otherwise minutes and
    seconds, otherwise seconds alone. */
module ExportFormat {
  import opened Text
  import opened Wrappers
  import ConfigCommands

  /** `ExportCog._format_time`. Python's `//` and `%` round toward minus
      infinity; for the positive divisors used here that agrees with
      Dafny's Euclidean `/` and `%`, also for negative `seconds`. Below
      one hour the text ends in seconds; from one hour on it ends in
      minutes. */
  function FormatTime(seconds: int): (r: string)
    ensures |r| >= 2
    ensures r[|r| - 1] == (if seconds >= 3600 then 'm' else 's')
  {
    Decomposition(seconds);
    var hours := seconds / 3600;
    var minutes := (seconds % 3600) / 60;
    var secs := seconds % 60;
    if hours > 0 then NatToString(hours) + ['h'] + " " + NatToString(minutes) + ['m']
    else if minutes > 0 then NatToString(minutes) + ['m'] + " " + NatToString(secs) + ['s']
    else NatToString(secs) + ['s']
  }

  /** The three fields add back up to the input, minutes and seconds stay
      below sixty, and the hours field is shown exactly from one hour on. */
  lemma Decomposition(seconds: int)
    ensures (seconds / 3600) * 3600 + ((seconds % 3600) / 60) * 60 + seconds % 60 == seconds
    ensures 0 <= (seconds % 3600) / 60 < 60 && 0 <= seconds % 60 < 60
    ensures seconds / 3600 > 0 <==> seconds >= 3600
    ensures (seconds % 3600) % 60 == seconds % 60
  {
    var q, r := seconds / 3600, seconds % 3600;
    assert seconds == q * 3600 + r && 0 <= r < 3600;
    var m, s := r / 60, r % 60;
    assert r == m * 60 + s && 0 <= s < 60;
    assert seconds == (q * 60 + m) * 60 + s;
    assert seconds % 60 == s;
  }

  /** Reading the formatted text back with the configuration cog's
      duration parser gives the input, except that seconds are dropped
      once the text shows hours. */
  lemma FormatParsesBack(seconds: int)
    requires 0 <= seconds <= ConfigCommands.MaxParsedSeconds
    ensures ConfigCommands.ParseTime(FormatTime(seconds))
            == Ok(if seconds >= 3600 then seconds - seconds % 60 else seconds)
  {
    Decomposition(seconds);
    if seconds >= 3600 {
      HoursParseBack(seconds);
    } else if seconds >= 60 {
      MinutesParseBack(seconds);
    } else {
      SecondsParseBack(seconds);
    }
  }

  lemma HoursParseBack(seconds: int)
    requires 3600 <= seconds <= ConfigCommands.MaxParsedSeconds
    ensures ConfigCommands.ParseTime(FormatTime(seconds)) == Ok(seconds - seconds % 60)
  {
    Decomposition(seconds);
    var hours, minutes := seconds / 3600, (seconds % 3600) / 60;
    var total := seconds - seconds % 60;
    assert total == hours * 3600 + minutes * 60;
    assert ConfigCommands.Multiplier('h') == 3600 && ConfigCommands.Multiplier('m') == 60;
    assert FormatTime(seconds) == NatToString(hours) + ['h'] + " " + NatToString(minutes) + ['m'];
    ParsesAs(hours, 'h', minutes, 'm', FormatTime(seconds), total);
  }

  lemma MinutesParseBack(seconds: int)
    requires 60 <= seconds < 3600
    ensures ConfigCommands.ParseTime(FormatTime(seconds)) == Ok(seconds)
  {
    Decomposition(seconds);
    var minutes, secs := (seconds % 3600) / 60, seconds % 60;
    assert FormatTime(seconds) == NatToString(minutes) + ['m'] + " " + NatToString(secs) + ['s'];
    ParsesAs(minutes, 'm', secs, 's', FormatTime(seconds), seconds);
  }

  lemma SecondsParseBack(seconds: int)
    requires 0 <= seconds < 60
    ensures ConfigCommands.ParseTime(FormatTime(seconds)) == Ok(seconds)
  {
    assert FormatTime(seconds) == NatToString(seconds) + ['s'];
    ConfigCommands.ParseOneToken(seconds, 's');
  }

  /** Two space-separated unit fields parse to the seconds they denote. */
  lemma ParsesAs(a: nat, u1: char, b: nat, u2: char, f: string, total: nat)
    requires ConfigCommands.IsUnit(u1) && ConfigCommands.IsUnit(u2)
    requires f == NatToString(a) + [u1] + " " + NatToString(b) + [u2]
    requires total == ConfigCommands.Multiplier(u1) * a + ConfigCommands.Multiplier(u2) * b
    requires total <= ConfigCommands.MaxParsedSeconds
    ensures ConfigCommands.ParseTime(f) == Ok(total)
  {
    ConfigCommands.ParseTwoTokens(a, u1, " ", b, u2);
  }

  /** A negative duration is shown as its remainder modulo one hour, so
      minus one second prints as "59m 59s". */
  lemma NegativeShownModuloHour(seconds: int)
    requires seconds < 0
    ensures FormatTime(seconds) == FormatTime(seconds % 3600)
  {
    Decomposition(seconds);
    Decomposition(seconds % 3600);
  }
}
