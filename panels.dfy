/** The four statistics panels of the debug window: how a resample writes each
    panel text, one newline-terminated line appended after another, and which
    lines a reader of that text sees. */
module Panels {
  import opened Lines
  import opened Sampling
  import NumberText

  datatype Panel = NtpPanel | ConnectionPanel | DynamicTickPanel | RequestedRatesPanel

  /** The four cached panel texts. */
  datatype Texts = Texts(ntp: string, connection: string, dynamicTick: string, requestedRate: string)

  const NoTexts := Texts("", "", "", "")

  function PanelText(tx: Texts, p: Panel): string
  {
    match p
    case NtpPanel => tx.ntp
    case ConnectionPanel => tx.connection
    case DynamicTickPanel => tx.dynamicTick
    case RequestedRatesPanel => tx.requestedRate
  }

  // Line labels of the time-synchronisation panel
  const WarpRateLabel := "Warp rate: "
  const AverageWarpRateLabel := "Average Warp rate: "
  const SubspaceLabel := "Current subspace: "
  const SubspaceRateLabel := "Current subspace rate: "
  const ErrorLabel := "Current Error: "
  const UniverseTimeLabel := "Current universe time: "
  const LatencyLabel := "Network latency: "
  const ClockDifferenceLabel := "Server clock difference: "
  const ServerLagLabel := "Server lag: "
  // Line labels of the connection panel
  const LastSendLabel := "Last send time: "
  const LastReceiveLabel := "Last receive time: "
  const HighQueueLabel := "Queued outgoing messages (High): "
  const SplitQueueLabel := "Queued outgoing messages (Split): "
  const LowQueueLabel := "Queued outgoing messages (Low): "
  const FutureUpdatesLabel := "Stored future updates: "
  const FutureProtoUpdatesLabel := "Stored future proto updates: "
  // Line labels of the dynamic-tick panel
  const TickRateLabel := "Current tick rate: "
  const MaxSecondaryVesselsLabel := "Current max secondry vessels: "

  // ---------------------------------------------------------------------------
  // Text written one labelled line at a time

  /** One appended line: its label, the reading it shows, and its ending,
      newline included. */
  datatype LineSpec = LineSpec(head: string, value: string, ending: string)

  /** The text one append adds. */
  function Piece(l: LineSpec): string
  {
    l.head + l.value + l.ending
  }

  /** `e` without its final character. */
  function Chomp(e: string): string
  {
    if e == [] then e else e[..|e| - 1]
  }

  /** The line as a reader sees it: the piece without its newline. */
  function Line(l: LineSpec): string
  {
    l.head + l.value + Chomp(l.ending)
  }

  /** True when `ending` is a tail without newlines followed by exactly one newline. */
  predicate IsLineEnding(ending: string)
  {
    NoNewline(Chomp(ending)) && ending == Chomp(ending) + "\n"
  }

  /** True when the append adds exactly one line: label and reading on one line,
      then a line ending. */
  predicate IsOneLine(l: LineSpec)
  {
    NoNewline(l.head) && NoNewline(l.value) && IsLineEnding(l.ending)
  }

  /** The text after the first `k` appends of `ls`. */
  function Prefix(ls: seq<LineSpec>, k: nat): string
    requires k <= |ls|
  {
    if k == 0 then "" else Prefix(ls, k - 1) + Piece(ls[k - 1])
  }

  /** The lines of the first `k` appends of `ls`, in order. */
  function LinesUpTo(ls: seq<LineSpec>, k: nat): (r: seq<string>)
    requires k <= |ls|
    ensures |r| == k
    ensures forall i :: 0 <= i < k ==> r[i] == Line(ls[i])
  {
    if k == 0 then [] else LinesUpTo(ls, k - 1) + [Line(ls[k - 1])]
  }

  /** When every append adds one line, the text after `k` appends splits into
      exactly the `k` lines appended, and ends at the start of a new line. */
  lemma {:induction false} PrefixLines(ls: seq<LineSpec>, k: nat)
    requires k <= |ls|
    requires forall i :: 0 <= i < |ls| ==> IsOneLine(ls[i])
    ensures SplitLines(Prefix(ls, k)) == LinesUpTo(ls, k)
    ensures AtLineStart(Prefix(ls, k))
  {
    if k > 0 {
      PrefixLines(ls, k - 1);
      var l := ls[k - 1];
      AppendLabelledLine(Prefix(ls, k - 1), l.head, l.value, l.ending, Chomp(l.ending));
    }
  }

  // ---------------------------------------------------------------------------
  // The three panels with a fixed number of lines

  /** The panels a resample writes with a fixed number of lines; the lines of
      the requested-rates panel come from the skew list instead. */
  predicate IsFixedPanel(p: Panel)
  {
    p != RequestedRatesPanel
  }

  /** How many lines a resample writes to a fixed panel. */
  function FixedLineCount(p: Panel): nat
    requires IsFixedPanel(p)
  {
    match p
    case NtpPanel => 9
    case ConnectionPanel => 7
    case DynamicTickPanel => 2
  }

  /** The lines a resample appends to panel `p`, in the order it appends them. */
  function PanelParts(p: Panel, s: Snapshot): (r: seq<LineSpec>)
    requires IsFixedPanel(p)
    ensures |r| == FixedLineCount(p)
  {
    match p
    case NtpPanel =>
      [ LineSpec(WarpRateLabel, s.timeScale, "x.\n"),
        LineSpec(AverageWarpRateLabel, s.averageSkewRate, "x.\n"),
        LineSpec(SubspaceLabel, s.currentSubspace, ".\n"),
        LineSpec(SubspaceRateLabel, s.subspaceSpeed, "x.\n"),
        LineSpec(ErrorLabel, s.currentErrorMs, " ms.\n"),
        LineSpec(UniverseTimeLabel, s.universalTime, " UT\n"),
        LineSpec(LatencyLabel, s.networkLatencyMs, " ms\n"),
        LineSpec(ClockDifferenceLabel, s.clockOffsetMs, " ms\n"),
        LineSpec(ServerLagLabel, s.serverLagMs, " ms\n") ]
    case ConnectionPanel =>
      [ LineSpec(LastSendLabel, s.lastSendTime, "ms.\n"),
        LineSpec(LastReceiveLabel, s.lastReceiveTime, "ms.\n"),
        LineSpec(HighQueueLabel, s.highPriorityQueueLength, ".\n"),
        LineSpec(SplitQueueLabel, s.splitPriorityQueueLength, ".\n"),
        LineSpec(LowQueueLabel, s.lowPriorityQueueLength, ".\n"),
        LineSpec(FutureUpdatesLabel, s.storedFutureUpdates, "\n"),
        LineSpec(FutureProtoUpdatesLabel, s.storedFutureProtoUpdates, ".\n") ]
    case DynamicTickPanel =>
      [ LineSpec(TickRateLabel, s.sendTickRate, "hz.\n"),
        LineSpec(MaxSecondaryVesselsLabel, s.maxSecondryVesselsPerTick, ".\n") ]
  }

  /** The full text of a fixed panel, as a resample leaves it. */
  function FixedText(p: Panel, s: Snapshot): string
    requires IsFixedPanel(p)
  {
    Prefix(PanelParts(p, s), FixedLineCount(p))
  }

  /** The lines of a fixed panel, as a reader of its text sees them. */
  function PanelLines(p: Panel, s: Snapshot): seq<string>
    requires IsFixedPanel(p)
  {
    LinesUpTo(PanelParts(p, s), FixedLineCount(p))
  }

  /** True when no reading shown by the lines `ls` holds a newline. */
  predicate ValuesSingleLine(ls: seq<LineSpec>)
  {
    forall i :: 0 <= i < |ls| ==> NoNewline(ls[i].value)
  }

  /** No label of the time-synchronisation panel holds a newline. */
  lemma NtpLabelsAreSingleLine()
    ensures NoNewline(WarpRateLabel) && NoNewline(AverageWarpRateLabel) && NoNewline(SubspaceLabel)
    ensures NoNewline(SubspaceRateLabel) && NoNewline(ErrorLabel) && NoNewline(UniverseTimeLabel)
    ensures NoNewline(LatencyLabel) && NoNewline(ClockDifferenceLabel) && NoNewline(ServerLagLabel)
  {
  }

  /** No label of the connection panel holds a newline. */
  lemma ConnectionLabelsAreSingleLine()
    ensures NoNewline(LastSendLabel) && NoNewline(LastReceiveLabel) && NoNewline(HighQueueLabel)
    ensures NoNewline(SplitQueueLabel) && NoNewline(LowQueueLabel) && NoNewline(FutureUpdatesLabel)
    ensures NoNewline(FutureProtoUpdatesLabel)
  {
  }

  /** No label of the dynamic-tick panel holds a newline. */
  lemma DynamicTickLabelsAreSingleLine()
    ensures NoNewline(TickRateLabel) && NoNewline(MaxSecondaryVesselsLabel)
  {
  }

  /** Every ending a fixed panel uses is a line ending. */
  lemma EndingsAreLineEndings()
    ensures IsLineEnding("x.\n") && IsLineEnding(".\n") && IsLineEnding(" ms.\n") && IsLineEnding(" UT\n")
    ensures IsLineEnding(" ms\n") && IsLineEnding("ms.\n") && IsLineEnding("\n") && IsLineEnding("hz.\n")
  {
    assert Chomp("x.\n") == "x.";
    assert Chomp(".\n") == ".";
    assert Chomp(" ms.\n") == " ms.";
    assert Chomp(" UT\n") == " UT";
    assert Chomp(" ms\n") == " ms";
    assert Chomp("ms.\n") == "ms.";
    assert Chomp("\n") == "";
    assert Chomp("hz.\n") == "hz.";
  }

  /** With one-line readings, every append of the time-synchronisation panel adds one line. */
  lemma NtpPartsAreLines(s: Snapshot)
    requires ValuesSingleLine(PanelParts(NtpPanel, s))
    ensures forall i :: 0 <= i < 9 ==> IsOneLine(PanelParts(NtpPanel, s)[i])
  {
    EndingsAreLineEndings();
    NtpLabelsAreSingleLine();
  }

  /** With one-line readings, every append of the connection panel adds one line. */
  lemma ConnectionPartsAreLines(s: Snapshot)
    requires ValuesSingleLine(PanelParts(ConnectionPanel, s))
    ensures forall i :: 0 <= i < 7 ==> IsOneLine(PanelParts(ConnectionPanel, s)[i])
  {
    EndingsAreLineEndings();
    ConnectionLabelsAreSingleLine();
  }

  /** With one-line readings, every append of the dynamic-tick panel adds one line. */
  lemma DynamicTickPartsAreLines(s: Snapshot)
    requires ValuesSingleLine(PanelParts(DynamicTickPanel, s))
    ensures forall i :: 0 <= i < 2 ==> IsOneLine(PanelParts(DynamicTickPanel, s)[i])
  {
    EndingsAreLineEndings();
    DynamicTickLabelsAreSingleLine();
  }

  /** When the readings a fixed panel shows are one line each, every append of
      that panel adds exactly one line. */
  lemma PanelPartsAreLines(p: Panel, s: Snapshot)
    requires IsFixedPanel(p) && ValuesSingleLine(PanelParts(p, s))
    ensures forall i :: 0 <= i < |PanelParts(p, s)| ==> IsOneLine(PanelParts(p, s)[i])
  {
    match p
    case NtpPanel => NtpPartsAreLines(s);
    case ConnectionPanel => ConnectionPartsAreLines(s);
    case DynamicTickPanel => DynamicTickPartsAreLines(s);
  }

  /** A fixed panel's text holds exactly its lines: nine for time
      synchronisation, seven for the connection, two for the dynamic tick. */
  lemma FixedTextLines(p: Panel, s: Snapshot)
    requires IsFixedPanel(p) && ValuesSingleLine(PanelParts(p, s))
    ensures SplitLines(FixedText(p, s)) == PanelLines(p, s)
    ensures |SplitLines(FixedText(p, s))| == FixedLineCount(p)
    ensures AtLineStart(FixedText(p, s))
  {
    PanelPartsAreLines(p, s);
    PrefixLines(PanelParts(p, s), FixedLineCount(p));
  }

  /** The connection panel's lines, label by label; the stored-future-updates
      line is the one with nothing after the count. */
  lemma ConnectionLinesInOrder(s: Snapshot)
    ensures PanelLines(ConnectionPanel, s) ==
      [ LastSendLabel + s.lastSendTime + "ms.",
        LastReceiveLabel + s.lastReceiveTime + "ms.",
        HighQueueLabel + s.highPriorityQueueLength + ".",
        SplitQueueLabel + s.splitPriorityQueueLength + ".",
        LowQueueLabel + s.lowPriorityQueueLength + ".",
        FutureUpdatesLabel + s.storedFutureUpdates,
        FutureProtoUpdatesLabel + s.storedFutureProtoUpdates + "." ]
  {
    var lines := PanelLines(ConnectionPanel, s);
    assert lines[0] == LastSendLabel + s.lastSendTime + "ms.";
    assert lines[1] == LastReceiveLabel + s.lastReceiveTime + "ms.";
    assert lines[2] == HighQueueLabel + s.highPriorityQueueLength + ".";
    assert lines[3] == SplitQueueLabel + s.splitPriorityQueueLength + ".";
    assert lines[4] == LowQueueLabel + s.lowPriorityQueueLength + ".";
    assert lines[5] == FutureUpdatesLabel + s.storedFutureUpdates + "";
    assert FutureUpdatesLabel + s.storedFutureUpdates + "" == FutureUpdatesLabel + s.storedFutureUpdates;
    assert lines[6] == FutureProtoUpdatesLabel + s.storedFutureProtoUpdates + ".";
  }

  /** Every connection line but the stored-future-updates one ends with a period. */
  lemma ConnectionLineEndsWithPeriod(s: Snapshot, k: nat)
    requires k < 7 && k != 5
    ensures var line := PanelLines(ConnectionPanel, s)[k]; line != [] && line[|line| - 1] == '.'
  {
    var l := PanelParts(ConnectionPanel, s)[k];
    var tail := Chomp(l.ending);
    assert tail == "ms." || tail == ".";
    assert (l.head + l.value + tail)[|l.head + l.value + tail| - 1] == tail[|tail| - 1];
  }

  /** With a formatted count, the stored-future-updates line ends with the last
      digit of the count, while every other connection line ends with a period. */
  lemma StoredFutureUpdatesLineHasNoPeriod(r: Readings, round: RoundText, k: nat)
    requires k < 7
    ensures var line := PanelLines(ConnectionPanel, Format(r, round))[k];
      line != [] && (line[|line| - 1] == '.' <==> k != 5)
  {
    var s := Format(r, round);
    if k == 5 {
      NumberText.IntToStringShape(r.storedFutureUpdates);
      var v := s.storedFutureUpdates;
      var line := FutureUpdatesLabel + v + "";
      assert PanelLines(ConnectionPanel, s)[5] == line;
      assert line[|line| - 1] == v[|v| - 1];
    } else {
      ConnectionLineEndsWithPeriod(s, k);
    }
  }

  // ---------------------------------------------------------------------------
  // The requested-rates panel

  /** One requested-rate line: who asked, and for which rate. */
  function RateLine(who: string, rate: string): string
  {
    who + ": " + rate + "x."
  }

  /** The requested-rates panel text: the local player's line, then one line
      for each peer of `skew` in order. */
  function RequestedRateText(name: string, rate: string, skew: seq<(string, string)>): string
  {
    if skew == [] then name + ": " + rate + "x.\n"
    else
      var last := skew[|skew| - 1];
      RequestedRateText(name, rate, skew[..|skew| - 1]) + (last.0 + ": " + last.1 + "x.\n")
  }

  /** The local player's rate line, then one rate line per peer in order. */
  function RequestedRateLines(name: string, rate: string, skew: seq<(string, string)>): (r: seq<string>)
    ensures |r| == 1 + |skew| && r[0] == RateLine(name, rate)
    ensures forall i :: 0 <= i < |skew| ==> r[i + 1] == RateLine(skew[i].0, skew[i].1)
  {
    if skew == [] then [RateLine(name, rate)]
    else
      var last := skew[|skew| - 1];
      RequestedRateLines(name, rate, skew[..|skew| - 1]) + [RateLine(last.0, last.1)]
  }

  /** The requested-rates text is the local player's line followed by one line
      per peer, in the order of the skew list; with no peers, only the local line. */
  lemma {:induction false} RequestedRateTextLines(name: string, rate: string, skew: seq<(string, string)>)
    requires NoNewline(name) && NoNewline(rate)
    requires forall i :: 0 <= i < |skew| ==> NoNewline(skew[i].0) && NoNewline(skew[i].1)
    ensures SplitLines(RequestedRateText(name, rate, skew)) == RequestedRateLines(name, rate, skew)
    ensures AtLineStart(RequestedRateText(name, rate, skew))
    decreases |skew|
  {
    if skew == [] {
      NoNewlineJoin(name, ": ");
      var t := name + ": " + rate + "x.\n";
      AppendLabelledLine("", name + ": ", rate, "x.\n", "x.");
      assert "" + t == t;
    } else {
      var n := |skew| - 1;
      var last := skew[n];
      RequestedRateTextLines(name, rate, skew[..n]);
      NoNewlineJoin(last.0, ": ");
      AppendLabelledLine(RequestedRateText(name, rate, skew[..n]), last.0 + ": ", last.1, "x.\n", "x.");
    }
  }

  // ---------------------------------------------------------------------------
  // All four panels

  /** The four panel texts a resample from `s` produces. */
  function Render(s: Snapshot): Texts
  {
    Texts(FixedText(NtpPanel, s), FixedText(ConnectionPanel, s), FixedText(DynamicTickPanel, s),
          RequestedRateText(s.playerName, s.requestedRate, s.clientSkewList))
  }

  /** A snapshot whose texts are all one line gives each fixed panel one-line readings. */
  lemma SnapshotValuesSingleLine(p: Panel, s: Snapshot)
    requires IsFixedPanel(p) && SingleLineSnapshot(s)
    ensures ValuesSingleLine(PanelParts(p, s))
  {
  }

  /** Every panel text of a resample splits into that panel's lines. */
  lemma RenderLines(s: Snapshot)
    requires SingleLineSnapshot(s)
    ensures SplitLines(Render(s).ntp) == PanelLines(NtpPanel, s)
    ensures SplitLines(Render(s).connection) == PanelLines(ConnectionPanel, s)
    ensures SplitLines(Render(s).dynamicTick) == PanelLines(DynamicTickPanel, s)
    ensures SplitLines(Render(s).requestedRate) == RequestedRateLines(s.playerName, s.requestedRate, s.clientSkewList)
  {
    SnapshotValuesSingleLine(NtpPanel, s);
    FixedTextLines(NtpPanel, s);
    SnapshotValuesSingleLine(ConnectionPanel, s);
    FixedTextLines(ConnectionPanel, s);
    SnapshotValuesSingleLine(DynamicTickPanel, s);
    FixedTextLines(DynamicTickPanel, s);
    RequestedRateTextLines(s.playerName, s.requestedRate, s.clientSkewList);
  }

  /** From the readings: the requested-rates text a resample writes is the local
      player's line with the requested rate to three decimals, then one line per
      peer of the skew list, in order, with that peer's rate to three decimals. */
  lemma FormatRequestedRateLines(r: Readings, round: RoundText)
    requires SingleLineRounding(round) && SingleLineNames(r)
    ensures var lines := SplitLines(Render(Format(r, round)).requestedRate);
      |lines| == 1 + |r.clientSkewList|
      && lines[0] == RateLine(r.playerName, round(r.requestedRate, 3))
      && forall i :: 0 <= i < |r.clientSkewList| ==>
           lines[i + 1] == RateLine(r.clientSkewList[i].0, round(r.clientSkewList[i].1, 3))
  {
    var s := Format(r, round);
    FormatSingleLine(r, round);
    RequestedRateTextLines(s.playerName, s.requestedRate, s.clientSkewList);
    assert |s.clientSkewList| == |r.clientSkewList|;
    forall i | 0 <= i < |r.clientSkewList|
      ensures s.clientSkewList[i] == (r.clientSkewList[i].0, round(r.clientSkewList[i].1, 3))
    {
    }
  }

  // ---------------------------------------------------------------------------
  // Building the texts, as a resample does

  /** Builds the time-synchronisation panel text line by line. */
  method BuildNtpText(snap: Snapshot) returns (ntpText: string)
    ensures ntpText == FixedText(NtpPanel, snap)
  {
    ntpText := WarpRateLabel + snap.timeScale + "x.\n";
    assert ntpText == Prefix(PanelParts(NtpPanel, snap), 1);
    ntpText := ntpText + (AverageWarpRateLabel + snap.averageSkewRate + "x.\n");
    assert ntpText == Prefix(PanelParts(NtpPanel, snap), 2);
    ntpText := ntpText + (SubspaceLabel + snap.currentSubspace + ".\n");
    assert ntpText == Prefix(PanelParts(NtpPanel, snap), 3);
    ntpText := ntpText + (SubspaceRateLabel + snap.subspaceSpeed + "x.\n");
    assert ntpText == Prefix(PanelParts(NtpPanel, snap), 4);
    ntpText := ntpText + (ErrorLabel + snap.currentErrorMs + " ms.\n");
    assert ntpText == Prefix(PanelParts(NtpPanel, snap), 5);
    ntpText := ntpText + (UniverseTimeLabel + snap.universalTime + " UT\n");
    assert ntpText == Prefix(PanelParts(NtpPanel, snap), 6);
    ntpText := ntpText + (LatencyLabel + snap.networkLatencyMs + " ms\n");
    assert ntpText == Prefix(PanelParts(NtpPanel, snap), 7);
    ntpText := ntpText + (ClockDifferenceLabel + snap.clockOffsetMs + " ms\n");
    assert ntpText == Prefix(PanelParts(NtpPanel, snap), 8);
    ntpText := ntpText + (ServerLagLabel + snap.serverLagMs + " ms\n");
  }

  /** Builds the connection panel text line by line. */
  method BuildConnectionText(snap: Snapshot) returns (connectionText: string)
    ensures connectionText == FixedText(ConnectionPanel, snap)
  {
    connectionText := LastSendLabel + snap.lastSendTime + "ms.\n";
    assert connectionText == Prefix(PanelParts(ConnectionPanel, snap), 1);
    connectionText := connectionText + (LastReceiveLabel + snap.lastReceiveTime + "ms.\n");
    assert connectionText == Prefix(PanelParts(ConnectionPanel, snap), 2);
    connectionText := connectionText + (HighQueueLabel + snap.highPriorityQueueLength + ".\n");
    assert connectionText == Prefix(PanelParts(ConnectionPanel, snap), 3);
    connectionText := connectionText + (SplitQueueLabel + snap.splitPriorityQueueLength + ".\n");
    assert connectionText == Prefix(PanelParts(ConnectionPanel, snap), 4);
    connectionText := connectionText + (LowQueueLabel + snap.lowPriorityQueueLength + ".\n");
    assert connectionText == Prefix(PanelParts(ConnectionPanel, snap), 5);
    connectionText := connectionText + (FutureUpdatesLabel + snap.storedFutureUpdates + "\n");
    assert connectionText == Prefix(PanelParts(ConnectionPanel, snap), 6);
    connectionText := connectionText + (FutureProtoUpdatesLabel + snap.storedFutureProtoUpdates + ".\n");
  }

  /** Builds the dynamic-tick panel text line by line. */
  method BuildDynamicTickText(snap: Snapshot) returns (dynamicTickText: string)
    ensures dynamicTickText == FixedText(DynamicTickPanel, snap)
  {
    dynamicTickText := TickRateLabel + snap.sendTickRate + "hz.\n";
    assert dynamicTickText == Prefix(PanelParts(DynamicTickPanel, snap), 1);
    dynamicTickText := dynamicTickText + (MaxSecondaryVesselsLabel + snap.maxSecondryVesselsPerTick + ".\n");
  }

  /** Builds the requested-rates panel text: the local player's line, then one
      line per peer in the order of `skew`. */
  method BuildRequestedRateText(playerName: string, requestedRate: string, skew: seq<(string, string)>)
    returns (requestedRateText: string)
    ensures requestedRateText == RequestedRateText(playerName, requestedRate, skew)
  {
    requestedRateText := playerName + ": " + requestedRate + "x.\n";
    var i := 0;
    while i < |skew|
      invariant i <= |skew|
      invariant requestedRateText == RequestedRateText(playerName, requestedRate, skew[..i])
    {
      var (key, value) := skew[i];
      requestedRateText := requestedRateText + (key + ": " + value + "x.\n");
      assert skew[..i + 1][..i] == skew[..i];
      i := i + 1;
    }
    assert skew[..i] == skew;
  }
}
