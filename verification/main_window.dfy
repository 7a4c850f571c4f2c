/**
 The part of the window that decides what the store is asked to do and
 what the status label says. The two line edits and the label are
 abstracted to their text; each button handler is a function from the
 window and the registry store (plus the store's answer for this
 attempt) to the window and store afterwards.
 */
module MainWindow {
  import opened Text
  import opened Optional
  import opened Registry
  import opened ProxyManager

  datatype Window = Window(ipInput: string, portInput: string, statusLabel: string)

  const StatusPrefix: string := "状态: "
  const IpPrefix: string := "IP: "
  const PortPrefix: string := "端口: "

  /** The text the label is created with, before the first refresh. */
  const InitialLabel: string := "状态: OFF\nIP: -\n端口: -"

  function OnOff(enabled: bool): string {
    if enabled then "ON" else "OFF"
  }

  /** A field as the label shows it: a dash stands for an empty field. */
  function Shown(field: string): string {
    if field == "" then "-" else field
  }

  /** The three-line label `refresh_stats` writes for a read triple. */
  function StatusText(s: Settings): string {
    StatusPrefix + OnOff(s.enabled) + "\n" + IpPrefix + Shown(s.ip) + "\n" + PortPrefix + Shown(s.port)
  }

  /**
   Reads a label back: its three lines with their prefixes removed, or
   `None` when the text is not three lines carrying those prefixes.
   */
  function LabelFields(text: string): Option<(string, string, string)> {
    var lines := Split(text, '\n');
    if |lines| == 3 && StatusPrefix <= lines[0] && IpPrefix <= lines[1] && PortPrefix <= lines[2] then
      Some((lines[0][|StatusPrefix|..], lines[1][|IpPrefix|..], lines[2][|PortPrefix|..]))
    else None
  }

  /**
   The label can be read back: its status field is "ON" exactly when the
   triple is enabled and "OFF" otherwise, and its address and port fields
   are "-" for an empty field and the field verbatim otherwise (fields
   that hold no line break).
   */
  lemma LabelRoundTrip(s: Settings)
    ensures '\n' !in s.ip && '\n' !in s.port ==>
              LabelFields(StatusText(s)) ==
                Some((if s.enabled then "ON" else "OFF",
                      if s.ip == "" then "-" else s.ip,
                      if s.port == "" then "-" else s.port))
  {
    if '\n' in s.ip || '\n' in s.port {
      return;
    }
    var l0 := StatusPrefix + OnOff(s.enabled);
    var l1 := IpPrefix + Shown(s.ip);
    var l2 := PortPrefix + Shown(s.port);
    LabelLines(s, l0, l1, l2);
    assert l0[|StatusPrefix|..] == OnOff(s.enabled);
    assert l1[|IpPrefix|..] == Shown(s.ip);
    assert l2[|PortPrefix|..] == Shown(s.port);
  }

  /** The label splits at its line breaks into the status, address and port lines. */
  lemma LabelLines(s: Settings, l0: string, l1: string, l2: string)
    requires '\n' !in s.ip && '\n' !in s.port
    requires l0 == StatusPrefix + OnOff(s.enabled)
    requires l1 == IpPrefix + Shown(s.ip)
    requires l2 == PortPrefix + Shown(s.port)
    ensures Split(StatusText(s), '\n') == [l0, l1, l2]
  {
    assert StatusText(s) == l0 + ['\n'] + (l1 + ['\n'] + l2);
    assert '\n' !in l0 by {
      assert l0 == "状态: ON" || l0 == "状态: OFF";
    }
    assert '\n' !in l1 by {
      assert '\n' !in IpPrefix;
      assert '\n' !in Shown(s.ip);
    }
    assert '\n' !in l2 by {
      assert '\n' !in PortPrefix;
      assert '\n' !in Shown(s.port);
    }
    SplitAfterPrefix(l0, l1 + ['\n'] + l2, '\n');
    SplitAfterPrefix(l1, l2, '\n');
    SplitWithoutSeparator(l2, '\n');
  }

  /**
   Whatever the address and port hold, the label's first line reads
   "ON" exactly when the triple is enabled.
   */
  lemma StatusLineSaysOn(s: Settings)
    ensures Split(StatusText(s), '\n')[0] == StatusPrefix + "ON" <==> s.enabled
  {
    var l0 := StatusPrefix + OnOff(s.enabled);
    var rest := IpPrefix + Shown(s.ip) + "\n" + PortPrefix + Shown(s.port);
    assert StatusText(s) == l0 + ['\n'] + rest;
    assert '\n' !in l0 by {
      assert l0 == "状态: ON" || l0 == "状态: OFF";
    }
    SplitAfterPrefix(l0, rest, '\n');
    assert !s.enabled ==> l0 != StatusPrefix + "ON" by {
      if !s.enabled {
        assert |l0| == |StatusPrefix + "ON"| + 1;
      }
    }
  }

  /** The label the window is created with is what a failed or cleared read displays. */
  lemma InitialLabelShowsDefault()
    ensures StatusText(Default) == InitialLabel
  {
  }

  /**
   `refresh_stats`: a fresh read rendered into the label; the input
   fields are not touched. Any failed read shows the start-up label, and
   otherwise the label reads back as the triple the read returned.
   */
  function RefreshStats(w: Window, st: Store): (r: Window)
    ensures r.ipInput == w.ipInput && r.portInput == w.portInput
    ensures r.statusLabel == StatusText(GetProxySettings(st))
    ensures ReadStore(st).Failed? ==> r.statusLabel == InitialLabel
    ensures var s := GetProxySettings(st);
            '\n' !in s.ip && '\n' !in s.port ==>
              LabelFields(r.statusLabel) == Some((OnOff(s.enabled), Shown(s.ip), Shown(s.port)))
  {
    var s := GetProxySettings(st);
    InitialLabelShowsDefault();
    LabelRoundTrip(s);
    w.(statusLabel := StatusText(s))
  }

  /**
   The "set" button: both inputs are stripped; if either is then empty
   nothing at all happens. Otherwise the stripped values go to the store,
   and the label is refreshed only when the store reports success. The
   input fields themselves keep their unstripped text.
   */
  function SetProxyClicked(w: Window, st: Store, fault: WriteFault): (r: (Window, Store))
    ensures Strip(w.ipInput) == "" || Strip(w.portInput) == "" ==> r == (w, st)
    ensures r.0.ipInput == w.ipInput && r.0.portInput == w.portInput
    ensures Strip(w.ipInput) != "" && Strip(w.portInput) != "" ==>
              r.1 == SetProxy(st, Strip(w.ipInput), Strip(w.portInput), fault).0
    ensures !st.openable ==> r == (w, st)
    ensures Strip(w.ipInput) != "" && Strip(w.portInput) != ""
            && SetProxy(st, Strip(w.ipInput), Strip(w.portInput), fault).1 ==>
              r.0.statusLabel == StatusText(GetProxySettings(r.1))
    ensures r.0.statusLabel != w.statusLabel ==>
              Strip(w.ipInput) != "" && Strip(w.portInput) != ""
              && SetProxy(st, Strip(w.ipInput), Strip(w.portInput), fault).1
              && r.0.statusLabel == StatusText(GetProxySettings(r.1))
  {
    var ip := Strip(w.ipInput);
    var port := Strip(w.portInput);
    if ip == "" || port == "" then (w, st)
    else
      var (st', ok) := SetProxy(st, ip, port, fault);
      if ok then (RefreshStats(w, st'), st') else (w, st')
  }

  /** Inputs that are blank or all whitespace leave window and store as they were. */
  lemma BlankInputChangesNothing(w: Window, st: Store, fault: WriteFault)
    requires SpaceBetween(w.ipInput, 0, |w.ipInput|) || SpaceBetween(w.portInput, 0, |w.portInput|)
    ensures SetProxyClicked(w, st, fault) == (w, st)
  {
  }

  /**
   A successful "set" with inputs that strip to colon- and line-break-free
   values turns the proxy on, and the label then reads "ON" with exactly
   the stripped address and port.
   */
  lemma SetClickedShowsInputs(w: Window, st: Store, fault: WriteFault)
    requires Strip(w.ipInput) != "" && Strip(w.portInput) != ""
    requires ':' !in Strip(w.ipInput) && ':' !in Strip(w.portInput)
    requires '\n' !in Strip(w.ipInput) && '\n' !in Strip(w.portInput)
    requires st.openable && Completes(fault, 2)
    ensures GetProxySettings(SetProxyClicked(w, st, fault).1) ==
              Settings(true, Strip(w.ipInput), Strip(w.portInput))
    ensures LabelFields(SetProxyClicked(w, st, fault).0.statusLabel) ==
              Some(("ON", Strip(w.ipInput), Strip(w.portInput)))
  {
    var ip, port := Strip(w.ipInput), Strip(w.portInput);
    ReadAfterSet(st, ip, port, fault);
    LabelRoundTrip(Settings(true, ip, port));
  }

  /**
   The "reset" button: on success both inputs are cleared and the label
   shows the disabled, empty state; on failure the window is unchanged
   (the store may still hold a partly applied reset).
   */
  function ResetClicked(w: Window, st: Store, fault: WriteFault): (r: (Window, Store))
    ensures r.1 == ResetProxy(st, fault).0
    ensures ResetProxy(st, fault).1 ==> r.0 == Window("", "", InitialLabel)
    ensures !ResetProxy(st, fault).1 ==> r.0 == w
  {
    var (st', ok) := ResetProxy(st, fault);
    if ok then
      ReadAfterReset(st, fault);
      InitialLabelShowsDefault();
      assert GetProxySettings(st') == Default;
      (RefreshStats(w.(ipInput := "", portInput := ""), st'), st')
    else (w, st')
  }

  /**
   The "toggle" button: the label is refreshed exactly when the store
   reports success; inputs are never touched.
   */
  function ToggleClicked(w: Window, st: Store, fault: WriteFault): (r: (Window, Store))
    ensures r.1 == ToggleProxy(st, fault).0
    ensures r.0.ipInput == w.ipInput && r.0.portInput == w.portInput
    ensures !ToggleProxy(st, fault).1 ==> r == (w, st)
    ensures ToggleProxy(st, fault).1 ==> r.0.statusLabel == StatusText(GetProxySettings(r.1))
  {
    var (st', ok) := ToggleProxy(st, fault);
    if ok then (RefreshStats(w, st'), st') else (w, st')
  }

  /**
   Two successful toggles on a readable key put the label back to what a
   refresh showed before them.
   */
  lemma ToggleClickedTwice(w: Window, st: Store, f1: WriteFault, f2: WriteFault)
    requires ReadStore(st).Read?
    requires ToggleProxy(st, f1).1 && ToggleProxy(ToggleProxy(st, f1).0, f2).1
    ensures var (w1, st1) := ToggleClicked(w, st, f1);
            ToggleClicked(w1, st1, f2).0 == RefreshStats(w, st)
  {
    ToggleTwice(st, f1, f2);
  }
}
