/** What the debug window draws in one immediate-mode frame: five toggle
    buttons, fast mode first, and under each panel toggle that is on, the
    cached text of that panel. */
module Layout {
  import opened Panels

  datatype Option<T> = None | Some(value: T)

  /** The five toggle buttons of the window: fast mode and one per panel. */
  datatype Toggle = FastUpdate | ShowPanel(panel: Panel)

  /** The state of the five toggle buttons. */
  datatype Toggles = Toggles(fast: bool, ntp: bool, connectionQueue: bool, dynamicTick: bool, requestedRates: bool)

  function IsOn(tg: Toggles, t: Toggle): bool
  {
    match t
    case FastUpdate => tg.fast
    case ShowPanel(NtpPanel) => tg.ntp
    case ShowPanel(ConnectionPanel) => tg.connectionQueue
    case ShowPanel(DynamicTickPanel) => tg.dynamicTick
    case ShowPanel(RequestedRatesPanel) => tg.requestedRates
  }

  function Caption(t: Toggle): string
  {
    match t
    case FastUpdate => "Fast debug update"
    case ShowPanel(NtpPanel) => "Display NTP/Subspace statistics"
    case ShowPanel(ConnectionPanel) => "Display connection statistics"
    case ShowPanel(DynamicTickPanel) => "Display dynamic tick statistics"
    case ShowPanel(RequestedRatesPanel) => "Display requested rates"
  }

  /** No two toggle buttons share a caption. This is why a `Button` widget
      can carry its `Toggle` rather than its caption text: the caption is a
      function of the toggle and tells the five buttons apart. */
  lemma CaptionsDiffer(t: Toggle, u: Toggle)
    requires t != u
    ensures Caption(t) != Caption(u)
  {
    var a, b := Caption(t), Caption(u);
    if |a| == |b| {
      assert a[8] != b[8] || a[9] != b[9];
    }
  }

  /** A toggle button returns its value flipped when it was clicked in this frame. */
  function GuiToggle(value: bool, clicked: bool): bool
  {
    if clicked then !value else value
  }

  /** The toggle state after one frame in which the buttons in `clicks` were clicked. */
  function Clicked(tg: Toggles, clicks: set<Toggle>): Toggles
  {
    Toggles(GuiToggle(tg.fast, FastUpdate in clicks),
            GuiToggle(tg.ntp, ShowPanel(NtpPanel) in clicks),
            GuiToggle(tg.connectionQueue, ShowPanel(ConnectionPanel) in clicks),
            GuiToggle(tg.dynamicTick, ShowPanel(DynamicTickPanel) in clicks),
            GuiToggle(tg.requestedRates, ShowPanel(RequestedRatesPanel) in clicks))
  }

  /** A click flips its own toggle and no other. */
  lemma ClickFlipsOnlyItsToggle(tg: Toggles, clicks: set<Toggle>, t: Toggle)
    ensures IsOn(Clicked(tg, clicks), t) == (IsOn(tg, t) != (t in clicks))
  {
  }

  /** Clicking the same buttons in two frames restores every toggle. */
  lemma ClickTwiceRestores(tg: Toggles, clicks: set<Toggle>)
    ensures Clicked(Clicked(tg, clicks), clicks) == tg
  {
  }

  /** A toggle button, drawn with its toggle's caption, or a text label. */
  datatype Widget = Button(toggle: Toggle, on: bool) | TextLabel(text: string)

  /** The panels in the order their toggles appear, top to bottom. */
  function PanelAt(i: nat): Panel
    requires i < 4
  {
    if i == 0 then NtpPanel
    else if i == 1 then ConnectionPanel
    else if i == 2 then DynamicTickPanel
    else RequestedRatesPanel
  }

  /** The position of a panel's toggle among the panel toggles. */
  function PanelIndex(p: Panel): (i: nat)
    ensures i < 4 && PanelAt(i) == p
  {
    match p
    case NtpPanel => 0
    case ConnectionPanel => 1
    case DynamicTickPanel => 2
    case RequestedRatesPanel => 3
  }

  /** A panel's toggle button, followed by the panel text when it is on. */
  function Section(p: Panel, on: bool, text: string): seq<Widget>
  {
    [Button(ShowPanel(p), on)] + (if on then [TextLabel(text)] else [])
  }

  /** Appending a panel's button and then, when it is on, its text appends its section. */
  lemma AppendSection(ws: seq<Widget>, p: Panel, on: bool, text: string)
    ensures ws + Section(p, on, text)
         == if on then ws + [Button(ShowPanel(p), on)] + [TextLabel(text)] else ws + [Button(ShowPanel(p), on)]
  {
  }

  /** The fast-mode toggle followed by the sections of the first `k` panels. */
  function ContentUpTo(tg: Toggles, tx: Texts, k: nat): seq<Widget>
    requires k <= 4
  {
    if k == 0 then [Button(FastUpdate, tg.fast)]
    else
      var p := PanelAt(k - 1);
      ContentUpTo(tg, tx, k - 1) + Section(p, IsOn(tg, ShowPanel(p)), PanelText(tx, p))
  }

  /** The whole window content, top to bottom. */
  function Content(tg: Toggles, tx: Texts): seq<Widget>
  {
    ContentUpTo(tg, tx, 4)
  }

  /** The whole content written out: the fast-mode toggle, then the four sections in order. */
  lemma ContentSections(tg: Toggles, tx: Texts)
    ensures Content(tg, tx)
         == [Button(FastUpdate, tg.fast)]
            + Section(NtpPanel, tg.ntp, tx.ntp)
            + Section(ConnectionPanel, tg.connectionQueue, tx.connection)
            + Section(DynamicTickPanel, tg.dynamicTick, tx.dynamicTick)
            + Section(RequestedRatesPanel, tg.requestedRates, tx.requestedRate)
  {
    assert ContentUpTo(tg, tx, 1) == [Button(FastUpdate, tg.fast)] + Section(NtpPanel, tg.ntp, tx.ntp);
    assert ContentUpTo(tg, tx, 2) == ContentUpTo(tg, tx, 1) + Section(ConnectionPanel, tg.connectionQueue, tx.connection);
    assert ContentUpTo(tg, tx, 3) == ContentUpTo(tg, tx, 2) + Section(DynamicTickPanel, tg.dynamicTick, tx.dynamicTick);
  }

  predicate HasButton(ws: seq<Widget>, t: Toggle)
  {
    exists i :: 0 <= i < |ws| && ws[i].Button? && ws[i].toggle == t
  }

  /** The text drawn directly under the first button of toggle `t`, if any. */
  function ShownText(ws: seq<Widget>, t: Toggle): Option<string>
  {
    if ws == [] then None
    else if ws[0].Button? && ws[0].toggle == t then
      if |ws| > 1 && ws[1].TextLabel? then Some(ws[1].text) else None
    else ShownText(ws[1..], t)
  }

  lemma HasButtonAppend(ws: seq<Widget>, more: seq<Widget>, t: Toggle)
    ensures HasButton(ws + more, t) <==> HasButton(ws, t) || HasButton(more, t)
  {
    if HasButton(ws + more, t) {
      var i :| 0 <= i < |ws + more| && (ws + more)[i].Button? && (ws + more)[i].toggle == t;
      if i >= |ws| {
        assert more[i - |ws|] == (ws + more)[i];
      }
    }
    if HasButton(ws, t) {
      var i :| 0 <= i < |ws| && ws[i].Button? && ws[i].toggle == t;
      assert (ws + more)[i] == ws[i];
    }
    if HasButton(more, t) {
      var i :| 0 <= i < |more| && more[i].Button? && more[i].toggle == t;
      assert (ws + more)[|ws| + i] == more[i];
    }
  }

  /** Widgets before the first button of `t` do not change what is shown under it. */
  lemma {:induction false} ShownTextSkip(ws: seq<Widget>, rest: seq<Widget>, t: Toggle)
    requires !HasButton(ws, t)
    ensures ShownText(ws + rest, t) == ShownText(rest, t)
    decreases |ws|
  {
    if ws != [] {
      assert ws[0] == (ws + rest)[0];
      assert !(ws[0].Button? && ws[0].toggle == t);
      assert (ws + rest)[1..] == ws[1..] + rest;
      ShownTextSkip(ws[1..], rest, t);
    } else {
      assert ws + rest == rest;
    }
  }

  /** Widgets after the first button of `t` do not change what is shown
      under it, when they start with a button. */
  lemma {:induction false} ShownTextKeep(ws: seq<Widget>, more: seq<Widget>, t: Toggle)
    requires HasButton(ws, t)
    requires more == [] || more[0].Button?
    ensures ShownText(ws + more, t) == ShownText(ws, t)
    decreases |ws|
  {
    assert (ws + more)[0] == ws[0];
    if !(ws[0].Button? && ws[0].toggle == t) {
      assert (ws + more)[1..] == ws[1..] + more;
      var i :| 0 <= i < |ws| && ws[i].Button? && ws[i].toggle == t;
      assert ws[1..][i - 1] == ws[i];
      ShownTextKeep(ws[1..], more, t);
    } else if |ws| > 1 {
      assert (ws + more)[1] == ws[1];
    }
  }

  lemma ShownTextOfSection(p: Panel, on: bool, text: string)
    ensures HasButton(Section(p, on, text), ShowPanel(p))
    ensures ShownText(Section(p, on, text), ShowPanel(p)) == if on then Some(text) else None
    ensures forall t :: t != ShowPanel(p) ==> !HasButton(Section(p, on, text), t)
  {
    var ws := Section(p, on, text);
    assert ws[0] == Button(ShowPanel(p), on);
  }

  /** Up to the first `k` panels, a toggle's button is present exactly when it is
      fast mode or one of those panels, and a panel's text is drawn under its
      button exactly when that toggle is on. */
  lemma {:induction false} ContentUpToShows(tg: Toggles, tx: Texts, k: nat, t: Toggle)
    requires k <= 4
    ensures HasButton(ContentUpTo(tg, tx, k), t) <==> (t.FastUpdate? || PanelIndex(t.panel) < k)
    ensures ShownText(ContentUpTo(tg, tx, k), t)
         == if t.ShowPanel? && PanelIndex(t.panel) < k && IsOn(tg, t) then Some(PanelText(tx, t.panel)) else None
  {
    if k == 0 {
      var ws := ContentUpTo(tg, tx, 0);
      assert ws[0].toggle == FastUpdate;
    } else {
      var p := PanelAt(k - 1);
      var ws := ContentUpTo(tg, tx, k - 1);
      var sec := Section(p, IsOn(tg, ShowPanel(p)), PanelText(tx, p));
      ContentUpToShows(tg, tx, k - 1, t);
      HasButtonAppend(ws, sec, t);
      ShownTextOfSection(p, IsOn(tg, ShowPanel(p)), PanelText(tx, p));
      if HasButton(ws, t) {
        assert sec[0].Button?;
        ShownTextKeep(ws, sec, t);
      } else {
        ShownTextSkip(ws, sec, t);
        if t != ShowPanel(p) {
          ShownTextSkip(sec, [], t);
          assert sec + [] == sec;
        }
      }
    }
  }

  /** A panel's text is drawn under its toggle exactly when that toggle is on;
      nothing is drawn under the fast-mode toggle. */
  lemma PanelShownIffOn(tg: Toggles, tx: Texts, t: Toggle)
    ensures ShownText(Content(tg, tx), t)
         == if t.ShowPanel? && IsOn(tg, t) then Some(PanelText(tx, t.panel)) else None
  {
    ContentUpToShows(tg, tx, 4, t);
  }

  /** What one immediate-mode frame draws: nothing, or the titled window and its content. */
  datatype Frame = NoWindow | Window(title: string, content: seq<Widget>)

  const WindowTitle := "DarkMultiPlayer - Debug"
}
