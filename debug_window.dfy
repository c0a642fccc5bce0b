/** The debug window object: a latch for its visibility, a gate that decides
    when to resample, the cached panel texts every resample rebuilds, and the
    toggles that decide which of those texts are drawn. */
module DebugWindow {
  import opened Sampling
  import opened Panels
  import opened Layout

  /** Seconds that must pass, strictly, between two resamples unless fast mode is on. */
  const DisplayUpdateInterval: real := 0.2

  /** The refresh gate: strictly more than the interval has passed, or fast mode. */
  predicate ShouldResample(now: real, lastUpdateTime: real, fast: bool)
  {
    now - lastUpdateTime > DisplayUpdateInterval || fast
  }

  /** Exactly one interval after the last resample the gate is still closed,
      unless fast mode is on; any later time opens it. */
  lemma GateAtInterval(lastUpdateTime: real, delay: real)
    ensures ShouldResample(lastUpdateTime + delay, lastUpdateTime, false) <==> delay > DisplayUpdateInterval
    ensures ShouldResample(lastUpdateTime + delay, lastUpdateTime, true)
  {
  }

  /** Builds the four panel texts of one resample. */
  method BuildTexts(snap: Snapshot) returns (tx: Texts)
    ensures tx == Render(snap)
  {
    var ntp := BuildNtpText(snap);
    var connection := BuildConnectionText(snap);
    var dynamicTick := BuildDynamicTickText(snap);
    var requestedRate := BuildRequestedRateText(snap.playerName, snap.requestedRate, snap.clientSkewList);
    tx := Texts(ntp, connection, dynamicTick, requestedRate);
  }

  class DebugWindow {
    /** Requested visibility, written by other parts of the client. */
    var display: bool
    /** Copy of `display` latched at the start of each Update and read by Draw. */
    var safeDisplay: bool
    var displayFast: bool
    var displayNTP: bool
    var displayConnectionQueue: bool
    var displayDynamicTickStats: bool
    var displayRequestedRates: bool
    var ntpText: string
    var connectionText: string
    var dynamicTickText: string
    var requestedRateText: string
    /** Time of the last resample, in seconds since start-up. */
    var lastUpdateTime: real
    /** The readings of the last resample, if there was one. */
    ghost var lastSample: Option<Snapshot>

    function CachedTexts(): Texts
      reads this`ntpText, this`connectionText, this`dynamicTickText, this`requestedRateText
    {
      Texts(ntpText, connectionText, dynamicTickText, requestedRateText)
    }

    function ToggleState(): Toggles
      reads this`displayFast, this`displayNTP, this`displayConnectionQueue
      reads this`displayDynamicTickStats, this`displayRequestedRates
    {
      Toggles(displayFast, displayNTP, displayConnectionQueue, displayDynamicTickStats, displayRequestedRates)
    }

    /** The cached texts are always those of the most recent resample, or all
        empty before the first one. */
    ghost predicate Valid()
      reads this`lastSample, this`lastUpdateTime
      reads this`ntpText, this`connectionText, this`dynamicTickText, this`requestedRateText
    {
      match lastSample
      case None => CachedTexts() == NoTexts && lastUpdateTime == 0.0
      case Some(s) => CachedTexts() == Render(s)
    }

    constructor ()
      ensures Valid() && lastSample == None
      ensures !display && !safeDisplay
      ensures ToggleState() == Toggles(false, false, false, false, false)
      ensures CachedTexts() == NoTexts && lastUpdateTime == 0.0
    {
      display := false;
      // the remaining fields keep the runtime's defaults: false and zero
      safeDisplay, displayFast := false, false;
      displayNTP, displayConnectionQueue := false, false;
      displayDynamicTickStats, displayRequestedRates := false, false;
      lastUpdateTime := 0.0;
      ntpText := "";
      connectionText := "";
      dynamicTickText := "";
      requestedRateText := "";
      lastSample := None;
    }

    /** One tick: latch the visibility, then resample every panel if the gate is open. */
    method Update(now: real, snap: Snapshot)
      requires Valid()
      modifies this
      ensures Valid()
      ensures safeDisplay == old(display)
      ensures display == old(display) && ToggleState() == old(ToggleState())
      ensures old(display) && ShouldResample(now, old(lastUpdateTime), old(displayFast)) ==>
                lastUpdateTime == now && CachedTexts() == Render(snap) && lastSample == Some(snap)
      ensures !(old(display) && ShouldResample(now, old(lastUpdateTime), old(displayFast))) ==>
                lastUpdateTime == old(lastUpdateTime) && CachedTexts() == old(CachedTexts()) && lastSample == old(lastSample)
    {
      safeDisplay := display;
      if display {
        if now - lastUpdateTime > DisplayUpdateInterval || displayFast {
          Resample(now, snap);
        }
      }
    }

    /** Takes a new sample: records its time and rebuilds every panel text from scratch. */
    method Resample(now: real, snap: Snapshot)
      modifies this`lastUpdateTime, this`ntpText, this`connectionText, this`dynamicTickText
      modifies this`requestedRateText, this`lastSample
      ensures Valid()
      ensures lastUpdateTime == now && CachedTexts() == Render(snap) && lastSample == Some(snap)
    {
      lastUpdateTime := now;
      var tx := BuildTexts(snap);
      ntpText := tx.ntp;
      connectionText := tx.connection;
      dynamicTickText := tx.dynamicTick;
      requestedRateText := tx.requestedRate;
      lastSample := Some(snap);
    }

    /** Lays out the window content for one frame, applying the clicks of that
        frame to the toggles before each panel decides whether to show its text. */
    method DrawContent(clicks: set<Toggle>) returns (content: seq<Widget>)
      modifies this`displayFast, this`displayNTP, this`displayConnectionQueue
      modifies this`displayDynamicTickStats, this`displayRequestedRates
      ensures ToggleState() == Clicked(old(ToggleState()), clicks)
      ensures content == Content(ToggleState(), CachedTexts())
    {
      displayFast := GuiToggle(displayFast, FastUpdate in clicks);
      content := [Button(FastUpdate, displayFast)];
      displayNTP := GuiToggle(displayNTP, ShowPanel(NtpPanel) in clicks);
      AppendSection(content, NtpPanel, displayNTP, ntpText);
      content := content + [Button(ShowPanel(NtpPanel), displayNTP)];
      if displayNTP {
        content := content + [TextLabel(ntpText)];
      }
      displayConnectionQueue := GuiToggle(displayConnectionQueue, ShowPanel(ConnectionPanel) in clicks);
      AppendSection(content, ConnectionPanel, displayConnectionQueue, connectionText);
      content := content + [Button(ShowPanel(ConnectionPanel), displayConnectionQueue)];
      if displayConnectionQueue {
        content := content + [TextLabel(connectionText)];
      }
      displayDynamicTickStats := GuiToggle(displayDynamicTickStats, ShowPanel(DynamicTickPanel) in clicks);
      AppendSection(content, DynamicTickPanel, displayDynamicTickStats, dynamicTickText);
      content := content + [Button(ShowPanel(DynamicTickPanel), displayDynamicTickStats)];
      if displayDynamicTickStats {
        content := content + [TextLabel(dynamicTickText)];
      }
      displayRequestedRates := GuiToggle(displayRequestedRates, ShowPanel(RequestedRatesPanel) in clicks);
      AppendSection(content, RequestedRatesPanel, displayRequestedRates, requestedRateText);
      content := content + [Button(ShowPanel(RequestedRatesPanel), displayRequestedRates)];
      if displayRequestedRates {
        content := content + [TextLabel(requestedRateText)];
      }
      ContentSections(ToggleState(), CachedTexts());
    }

    /** Draws one frame: the window with its content when the latched visibility
        is on, and nothing at all, with no state change, when it is off. */
    method Draw(clicks: set<Toggle>) returns (frame: Frame)
      modifies this`displayFast, this`displayNTP, this`displayConnectionQueue
      modifies this`displayDynamicTickStats, this`displayRequestedRates
      ensures !old(safeDisplay) ==> frame == NoWindow && ToggleState() == old(ToggleState())
      ensures old(safeDisplay) ==>
                ToggleState() == Clicked(old(ToggleState()), clicks)
                && frame == Window(WindowTitle, Content(ToggleState(), CachedTexts()))
      ensures CachedTexts() == old(CachedTexts()) && lastUpdateTime == old(lastUpdateTime)
      ensures display == old(display) && safeDisplay == old(safeDisplay) && lastSample == old(lastSample)
    {
      if safeDisplay {
        var content := DrawContent(clicks);
        frame := Window(WindowTitle, content);
      } else {
        frame := NoWindow;
      }
    }
  }
}
