/** What one resample of the debug window reads from the client's
    collaborators (time synchroniser, game clock, network worker, vessel
    worker, dynamic-tick worker, warp worker, settings) and how each reading
    is turned into the text that goes into a panel line. */
module Sampling {
  import opened Lines
  import NumberText

  /** Rounding to the given number of decimals followed by the runtime's
      number-to-text conversion; the same conversion for the whole process. */
  type RoundText = (real, nat) -> string

  /** Raw readings, as the collaborators report them. Tick counts of the time
      synchroniser are integers; all other measured rates and times are reals. */
  datatype Readings = Readings(
    timeScale: real,
    averageSkewRate: real,
    currentSubspace: int,
    subspaceSpeed: real,
    currentError: real,
    universalTime: real,
    networkLatencyAverage: int,
    clockOffsetAverage: int,
    serverLag: int,
    lastSendTime: int,
    lastReceiveTime: int,
    highPriorityQueueLength: int,
    splitPriorityQueueLength: int,
    lowPriorityQueueLength: int,
    storedFutureUpdates: int,
    storedFutureProtoUpdates: int,
    sendTickRate: int,
    maxSecondryVesselsPerTick: int,
    playerName: string,
    requestedRate: real,
    clientSkewList: seq<(string, real)>)

  /** The same readings as the text that each panel line shows. */
  datatype Snapshot = Snapshot(
    timeScale: string,
    averageSkewRate: string,
    currentSubspace: string,
    subspaceSpeed: string,
    currentErrorMs: string,
    universalTime: string,
    networkLatencyMs: string,
    clockOffsetMs: string,
    serverLagMs: string,
    lastSendTime: string,
    lastReceiveTime: string,
    highPriorityQueueLength: string,
    splitPriorityQueueLength: string,
    lowPriorityQueueLength: string,
    storedFutureUpdates: string,
    storedFutureProtoUpdates: string,
    sendTickRate: string,
    maxSecondryVesselsPerTick: string,
    playerName: string,
    requestedRate: string,
    clientSkewList: seq<(string, string)>)

  /** Seconds to milliseconds, for the synchronisation error. */
  function SecondsToMs(seconds: real): real
  {
    seconds * 1000.0
  }

  /** Time-synchroniser tick counts (ten thousand per millisecond) to milliseconds. */
  function TicksToMs(ticks: int): real
  {
    ticks as real / 10000.0
  }

  /** Each peer's requested rate, rounded to three decimals, in the same order. */
  function SkewTexts(skew: seq<(string, real)>, round: RoundText): seq<(string, string)>
  {
    seq(|skew|, i requires 0 <= i < |skew| => (skew[i].0, round(skew[i].1, 3)))
  }

  /** The text of every reading: rates and times to three decimals, the
      synchronisation error in whole milliseconds, integers in decimal. */
  function Format(r: Readings, round: RoundText): Snapshot
  {
    Snapshot(
      round(r.timeScale, 3),
      round(r.averageSkewRate, 3),
      NumberText.IntToString(r.currentSubspace),
      round(r.subspaceSpeed, 3),
      round(SecondsToMs(r.currentError), 0),
      round(r.universalTime, 3),
      round(TicksToMs(r.networkLatencyAverage), 3),
      round(TicksToMs(r.clockOffsetAverage), 3),
      round(TicksToMs(r.serverLag), 3),
      NumberText.IntToString(r.lastSendTime),
      NumberText.IntToString(r.lastReceiveTime),
      NumberText.IntToString(r.highPriorityQueueLength),
      NumberText.IntToString(r.splitPriorityQueueLength),
      NumberText.IntToString(r.lowPriorityQueueLength),
      NumberText.IntToString(r.storedFutureUpdates),
      NumberText.IntToString(r.storedFutureProtoUpdates),
      NumberText.IntToString(r.sendTickRate),
      NumberText.IntToString(r.maxSecondryVesselsPerTick),
      r.playerName,
      round(r.requestedRate, 3),
      SkewTexts(r.clientSkewList, round))
  }

  /** True when the rounding conversion never produces a newline. */
  ghost predicate SingleLineRounding(round: RoundText)
  {
    forall x, d :: NoNewline(round(x, d))
  }

  lemma RoundedSingleLine(round: RoundText, x: real, d: nat)
    requires SingleLineRounding(round)
    ensures NoNewline(round(x, d))
  {
  }

  /** True when no name in the readings holds a newline. */
  predicate SingleLineNames(r: Readings)
  {
    NoNewline(r.playerName) && forall i :: 0 <= i < |r.clientSkewList| ==> NoNewline(r.clientSkewList[i].0)
  }

  /** True when every text of the snapshot fits on one line. */
  predicate SingleLineSnapshot(s: Snapshot)
  {
    NoNewline(s.timeScale) && NoNewline(s.averageSkewRate) && NoNewline(s.currentSubspace)
    && NoNewline(s.subspaceSpeed) && NoNewline(s.currentErrorMs) && NoNewline(s.universalTime)
    && NoNewline(s.networkLatencyMs) && NoNewline(s.clockOffsetMs) && NoNewline(s.serverLagMs)
    && NoNewline(s.lastSendTime) && NoNewline(s.lastReceiveTime)
    && NoNewline(s.highPriorityQueueLength) && NoNewline(s.splitPriorityQueueLength)
    && NoNewline(s.lowPriorityQueueLength) && NoNewline(s.storedFutureUpdates)
    && NoNewline(s.storedFutureProtoUpdates) && NoNewline(s.sendTickRate)
    && NoNewline(s.maxSecondryVesselsPerTick) && NoNewline(s.playerName) && NoNewline(s.requestedRate)
    && forall i :: 0 <= i < |s.clientSkewList| ==> NoNewline(s.clientSkewList[i].0) && NoNewline(s.clientSkewList[i].1)
  }

  /** Formatting keeps every reading on one line, so each panel line stays one line. */
  lemma FormatSingleLine(r: Readings, round: RoundText)
    requires SingleLineRounding(round) && SingleLineNames(r)
    ensures SingleLineSnapshot(Format(r, round))
  {
    NumberText.IntToStringShape(r.currentSubspace);
    NumberText.IntToStringShape(r.lastSendTime);
    NumberText.IntToStringShape(r.lastReceiveTime);
    NumberText.IntToStringShape(r.highPriorityQueueLength);
    NumberText.IntToStringShape(r.splitPriorityQueueLength);
    NumberText.IntToStringShape(r.lowPriorityQueueLength);
    NumberText.IntToStringShape(r.storedFutureUpdates);
    NumberText.IntToStringShape(r.storedFutureProtoUpdates);
    NumberText.IntToStringShape(r.sendTickRate);
    NumberText.IntToStringShape(r.maxSecondryVesselsPerTick);
    var skew := SkewTexts(r.clientSkewList, round);
    forall i | 0 <= i < |skew|
      ensures NoNewline(skew[i].0) && NoNewline(skew[i].1)
    {
      var rate := round(r.clientSkewList[i].1, 3);
      RoundedSingleLine(round, r.clientSkewList[i].1, 3);
      assert skew[i] == (r.clientSkewList[i].0, rate);
    }
  }

  /** Every integer statistic reads back as the value the collaborator reported. */
  lemma FormatIntegersReadBack(r: Readings, round: RoundText)
    ensures var s := Format(r, round);
      NumberText.ReadsBackAs(s.currentSubspace, r.currentSubspace)
      && NumberText.ReadsBackAs(s.lastSendTime, r.lastSendTime)
      && NumberText.ReadsBackAs(s.lastReceiveTime, r.lastReceiveTime)
      && NumberText.ReadsBackAs(s.highPriorityQueueLength, r.highPriorityQueueLength)
      && NumberText.ReadsBackAs(s.splitPriorityQueueLength, r.splitPriorityQueueLength)
      && NumberText.ReadsBackAs(s.lowPriorityQueueLength, r.lowPriorityQueueLength)
      && NumberText.ReadsBackAs(s.storedFutureUpdates, r.storedFutureUpdates)
      && NumberText.ReadsBackAs(s.storedFutureProtoUpdates, r.storedFutureProtoUpdates)
      && NumberText.ReadsBackAs(s.sendTickRate, r.sendTickRate)
      && NumberText.ReadsBackAs(s.maxSecondryVesselsPerTick, r.maxSecondryVesselsPerTick)
  {
    NumberText.ParseIntToString(r.storedFutureUpdates);
    NumberText.ParseIntToString(r.lastSendTime);
    NumberText.ParseIntToString(r.lastReceiveTime);
    NumberText.ParseIntToString(r.highPriorityQueueLength);
    NumberText.ParseIntToString(r.splitPriorityQueueLength);
    NumberText.ParseIntToString(r.lowPriorityQueueLength);
    NumberText.ParseIntToString(r.storedFutureProtoUpdates);
    NumberText.ParseIntToString(r.sendTickRate);
    NumberText.ParseIntToString(r.maxSecondryVesselsPerTick);
    NumberText.ParseIntToString(r.currentSubspace);
  }
}
