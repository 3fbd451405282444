/** Display labels of a match summary: the game-mode and queue tables, each
    with a fallback for values the tables do not know. */
module Labels {
  import opened Js
  import opened JsNumbers

  /** `gameModeMap`. */
  const GameModeMap: map<string, string> := map[
    "CLASSIC" := "Summoner’s Rift",
    "ARAM" := "ARAM",
    "URF" := "Ultra Rapid Fire",
    "ONEFORALL" := "One For All",
    "CHERRY" := "Arena",
    "TUTORIAL" := "Tutorial",
    "ASCENSION" := "Ascension",
    "FIRSTBLOOD" := "Snowdown Showdown",
    "KINGPORO" := "Legend of the Poro King",
    "NEXUSBLITZ" := "Nexus Blitz"
  ]

  /** `queueTypeMap`, keyed by queue id. */
  const QueueTypeMap: map<int, string> := map[
    400 := "Normal Draft Pick",
    420 := "Ranked Solo/Duo",
    440 := "Ranked Flex",
    450 := "ARAM",
    490 := "Normal Quickplay",
    700 := "Clash",
    900 := "URF",
    1020 := "One For All",
    1700 := "Arena",
    1300 := "Nexus Blitz",
    830 := "Co-op vs. AI (Beginner)",
    840 := "Co-op vs. AI (Intermediate)",
    850 := "Co-op vs. AI (Intro)"
  ]

  const QueuePrefix := "Queue ID "

  /** `gameModeMap[mode] || mode`. */
  function GameModeLabel(mode: string): (text: string)
    ensures text in GameModeMap.Values || text == mode
    ensures mode != "" ==> text != ""
  {
    if mode in GameModeMap then GameModeMap[mode] else mode
  }

  /** `queueTypeMap[queueId] || "Queue ID " + queueId`. */
  function QueueTypeLabel(queueId: int): (text: string)
    ensures text != ""
    ensures text in QueueTypeMap.Values
      || (|text| > |QueuePrefix| && text[..|QueuePrefix|] == QueuePrefix)
  {
    if queueId in QueueTypeMap then QueueTypeMap[queueId] else QueuePrefix + IntToDecimal(queueId)
  }

  /** An unknown game mode is shown as the raw mode string; a known one gets
      its non-empty table label. */
  lemma GameModeFallBack(mode: string)
    ensures mode in GameModeMap ==> GameModeLabel(mode) == GameModeMap[mode] && GameModeLabel(mode) != ""
    ensures mode !in GameModeMap ==> GameModeLabel(mode) == mode
  {
  }

  /** A known queue id gets its table label, none of which starts like the
      fallback; an unknown one is shown after "Queue ID " in a form that
      `parseInt` reads back as the same id. */
  lemma QueueFallBack(queueId: int)
    ensures queueId in QueueTypeMap ==> QueueTypeLabel(queueId) == QueueTypeMap[queueId]
    ensures queueId in QueueTypeMap ==> QueueTypeLabel(queueId) != "" && QueueTypeLabel(queueId)[0] != 'Q'
    ensures queueId !in QueueTypeMap ==>
      var text := QueueTypeLabel(queueId);
      |text| > |QueuePrefix| && text[..|QueuePrefix|] == QueuePrefix
      && ParseInt(text[|QueuePrefix|..]) == Some(queueId)
  {
    if queueId !in QueueTypeMap {
      var text := QueueTypeLabel(queueId);
      assert text[|QueuePrefix|..] == IntToDecimal(queueId) + [];
      ParseIntOfDecimal(queueId, []);
    }
  }

  lemma KnownQueueLabelsDistinct(a: int, b: int)
    requires a in QueueTypeMap && b in QueueTypeMap && QueueTypeMap[a] == QueueTypeMap[b]
    ensures a == b
  {
  }

  /** Distinct queue ids never share a label, so the queue label identifies
      the queue. */
  lemma {:induction false} QueueLabelsDistinct(a: int, b: int)
    requires QueueTypeLabel(a) == QueueTypeLabel(b)
    ensures a == b
  {
    QueueFallBack(a);
    QueueFallBack(b);
    if a in QueueTypeMap && b in QueueTypeMap {
      KnownQueueLabelsDistinct(a, b);
    }
  }
}
