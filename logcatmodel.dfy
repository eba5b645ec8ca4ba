/** The log record (`LogEntry`) and its derived display properties. */
module LogcatModel {
  import opened Text

  /** One parsed log line. */
  datatype LogEntry = LogEntry(
    timestamp: string,
    pid: int,
    tid: int,
    level: string,
    tag: string,
    message: string)

  /** The six priority letters and their names. */
  const LevelNames: map<string, string> := map[
    "V" := "Verbose",
    "D" := "Debug",
    "I" := "Info",
    "W" := "Warning",
    "E" := "Error",
    "F" := "Fatal"]

  /** The six priority letters and their display colours. */
  const LevelColors: map<string, string> := map[
    "V" := "#888888",
    "D" := "#4ec9b0",
    "I" := "#ffffff",
    "W" := "#dcdcaa",
    "E" := "#f48771",
    "F" := "#d16969"]

  /** `level_text`: the name of the level, or "Unknown". */
  function LevelText(e: LogEntry): (r: string)
    ensures e.level in LevelNames ==> r == LevelNames[e.level]
    ensures e.level !in LevelNames ==> r == "Unknown"
  {
    if e.level in LevelNames then LevelNames[e.level] else "Unknown"
  }

  /** `level_color`: the colour of the level, white when the level is not one of the six. */
  function LevelColor(e: LogEntry): (r: string)
    ensures e.level in LevelColors ==> r == LevelColors[e.level]
    ensures e.level !in LevelColors ==> r == "#ffffff"
  {
    if e.level in LevelColors then LevelColors[e.level] else "#ffffff"
  }

  /**
   * Both tables have the same six keys; a level has a name iff it is one of
   * them, and distinct levels have distinct names. Info and unknown levels
   * share the colour white.
   */
  lemma {:induction false} LevelTables(e: LogEntry, f: LogEntry)
    ensures LevelNames.Keys == LevelColors.Keys == {"V", "D", "I", "W", "E", "F"}
    ensures LevelText(e) != "Unknown" <==> e.level in LevelNames
    ensures LevelText(e) != "Unknown" && LevelText(e) == LevelText(f) ==> e.level == f.level
    ensures LevelColor(e) == "#ffffff" <==> e.level == "I" || e.level !in LevelColors
  {
  }

  /** `str(e)`: "<timestamp> <level>/<tag>: <message>". */
  function ToString(e: LogEntry): (r: string)
    ensures StartsWith(r, e.timestamp + " " + e.level + "/" + e.tag + ": ")
    ensures EndsWith(r, ": " + e.message)
    ensures |r| == |e.timestamp| + |e.level| + |e.tag| + |e.message| + 4
  {
    e.timestamp + " " + e.level + "/" + e.tag + ": " + e.message
  }

  /** For a one-letter level, the timestamp, the level and a colon-free tag can be read back from the text. */
  lemma {:induction false} ToStringFields(e: LogEntry)
    requires |e.level| == 1 && ':' !in e.tag
    ensures var t := ToString(e); var n := |e.timestamp|;
      t[..n] == e.timestamp && t[n + 1..n + 2] == e.level && t[n + 2] == '/' &&
      Split(t[n + 3..], ": ")[0] == e.tag
  {
    var t := ToString(e);
    var n := |e.timestamp|;
    var tail := e.tag + ": " + e.message;
    assert t[..n] == e.timestamp && t[n + 1..n + 2] == e.level && t[n + 2] == '/' && t[n + 3..] == tail by {
      assert t == e.timestamp + (" " + (e.level + ("/" + tail)));
    }
    SplitHeadPrefix(e.tag, ": ", e.message);
  }
}
