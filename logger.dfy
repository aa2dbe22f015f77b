/** `logger.py`: a log line is the message wrapped in an ANSI colour chosen
    by its level (blue for any unknown level) and the reset sequence. The
    `print` that writes the line to standard output is not modelled. */
module Logger {
  import opened Wrappers

  // The `Color` constants: bright foreground colours and the reset.
  const Green := "\U{1B}[92m"
  const Red := "\U{1B}[91m"
  const Yellow := "\U{1B}[93m"
  const Blue := "\U{1B}[94m"
  const Reset := "\U{1B}[0m"

  /** The default level of `log`. */
  const DefaultLevel := "info"

  /** The level → colour table of `log`. */
  const Colors: map<string, string> :=
    map["info" := Blue, "success" := Green, "warn" := Yellow, "error" := Red]

  /** A bright foreground colour escape `ESC [ 9 n m` with n in 1..4. */
  predicate IsBrightColor(c: string) {
    |c| == 5 && c[0] == '\U{1B}' && c[1] == '[' && c[2] == '9' && '1' <= c[3] <= '4' && c[4] == 'm'
  }

  /** `colors.get(level, Color.BLUE)`: the table's colour for a known level,
      blue for any other. */
  function ColorFor(level: string): (c: string)
    ensures IsBrightColor(c)
    ensures level !in Colors ==> c == Blue
    ensures c == Blue <==> level == "info" || level !in Colors
  {
    if level in Colors then Colors[level] else Blue
  }

  /** The level a colour stands for: the inverse of ColorFor on the table. */
  function LevelOf(c: string): (level: string)
    ensures level in Colors
  {
    if c == Green then "success"
    else if c == Yellow then "warn"
    else if c == Red then "error"
    else "info"
  }

  /** The line `log(message, level)` prints: colour, message, reset. */
  function Render(message: string, level: string): (line: string)
    ensures |line| == |ColorFor(level)| + |message| + |Reset|
    ensures line[..5] == ColorFor(level)
    ensures line[5..|line| - |Reset|] == message
    ensures line[|line| - |Reset|..] == Reset
  {
    ColorFor(level) + message + Reset
  }

  /** A printed line split back into its colour and its message; None for a
      line `log` cannot print. */
  function ParseLine(line: string): (r: Option<(string, string)>)
    ensures r.Some? ==> IsBrightColor(r.value.0) && Render(r.value.1, LevelOf(r.value.0)) == line
  {
    if 5 + |Reset| <= |line| && IsBrightColor(line[..5]) && line[|line| - |Reset|..] == Reset
       && line[..5] in Colors.Values
    then
      var c, m := line[..5], line[5..|line| - |Reset|];
      assert ColorFor(LevelOf(c)) == c;
      assert line == c + m + Reset;
      Some((c, m))
    else None
  }

  /** Every printed line can be split back: its colour is the level's and
      its message comes back unchanged. */
  lemma RenderRoundTrip(message: string, level: string)
    ensures ParseLine(Render(message, level)) == Some((ColorFor(level), message))
  {
    var line := Render(message, level);
    assert ColorFor(level) in Colors.Values by {
      if level in Colors { assert Colors[level] in Colors.Values; } else { assert Colors["info"] == Blue; }
    }
  }

  /** The colour identifies the level: the table's levels get pairwise
      distinct colours, and every unknown level is shown as "info". */
  lemma ColorIdentifiesLevel(level: string)
    ensures LevelOf(ColorFor(level)) == (if level in Colors then level else DefaultLevel)
  {
  }

  /** Distinct known levels give distinct line prefixes. */
  lemma DistinctLevelsDistinctLines(m1: string, m2: string, l1: string, l2: string)
    requires l1 in Colors && l2 in Colors && l1 != l2
    ensures Render(m1, l1)[..5] != Render(m2, l2)[..5]
  {
    ColorIdentifiesLevel(l1);
    ColorIdentifiesLevel(l2);
  }

  /** A line logged without a level is blue. */
  lemma DefaultLevelIsBlue(message: string)
    ensures Render(message, DefaultLevel) == Blue + message + Reset
  {
  }
}
