/** The organiser's progress log. Each entry is one line of the log; its
    text is given by `Text`. */
module Log {
  import opened Types

  datatype LogLine =
    | GettingSavedTracks
    | GettingPlaylists
    | GettingArtists
    | PuttingTogether
    | Extending(key: Genre)
    | Creating(key: Genre)
    | Skipping(key: Genre, message: string)

  /** Start of the line written for a genre group whose handling failed. */
  const SkippingPrefix := "Skipping interrupted "

  function Text(line: LogLine): string
  {
    match line
    case GettingSavedTracks => "Getting saved tracks."
    case GettingPlaylists => "Getting existing playlists."
    case GettingArtists => "Getting artists info."
    case PuttingTogether => "Putting pieces together."
    case Extending(key) => "Extending " + key + " playlist."
    case Creating(key) => "Creating " + key + " playlist."
    case Skipping(key, message) => SkippingPrefix + key + " playlist: " + message
  }

  predicate IsSkipLine(text: string)
  {
    SkippingPrefix <= text
  }

  /** A line reads as a skip line exactly when it reports a failed group,
      and then it names the group and ends with the failure's message. */
  lemma SkipLineIff(line: LogLine)
    ensures IsSkipLine(Text(line)) <==> line.Skipping?
    ensures line.Skipping? ==> Text(line)[|Text(line)| - |line.message|..] == line.message
  {
    match line
    case Skipping(key, message) =>
      var t := Text(line);
      assert t == SkippingPrefix + (key + " playlist: " + message);
      assert t[..|SkippingPrefix|] == SkippingPrefix;
      assert t == (SkippingPrefix + key + " playlist: ") + message;
    case _ =>
      assert Text(line)[0] != SkippingPrefix[0];
  }

  /** The number of skip lines in the log. */
  function SkipLines(lines: seq<LogLine>): nat
  {
    if lines == [] then 0
    else SkipLines(lines[..|lines| - 1]) + if IsSkipLine(Text(lines[|lines| - 1])) then 1 else 0
  }

  lemma {:induction false} SkipLinesAppend(a: seq<LogLine>, b: seq<LogLine>)
    ensures SkipLines(a + b) == SkipLines(a) + SkipLines(b)
  {
    if b == [] {
      assert a + b == a;
    } else {
      var b', z := b[..|b| - 1], b[|b| - 1];
      assert (a + b)[..|a + b| - 1] == a + b';
      SkipLinesAppend(a, b');
    }
  }
}
