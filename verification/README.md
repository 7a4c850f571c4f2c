# proxy_change — a Dafny model of the proxy-settings accessor

`proxy_change` is a small Windows utility that shows and changes the
per-user system proxy. Its logic lives in `ProxyManager`, which reads the
`ProxyEnable` and `ProxyServer` values of the "Internet Settings" registry
key as an `(enabled, ip, port)` triple and writes them back in three ways:
set an address and port, reset, and toggle the enable flag. The window
adds a thin layer: it strips and guards the inputs, refreshes a
three-line status label only when the store reports success, and clears
the inputs after a successful reset.

The model is functional:

- `text.dfy` (module `Text`) holds the string operations the code relies
  on: Python's `str.split(":")`, its inverse `join`, and `str.strip()`.
- `registry.dfy` (module `Registry`) holds the registry key as an
  immutable record. It has an optional `ProxyEnable` integer, an optional
  `ProxyServer` string and a flag saying whether the key opens. A write
  is a session of value writes. A `WriteFault` parameter says where the
  operating system refuses: at the open, or at the k-th value write, after
  the earlier writes took effect.
- `optional.dfy` (module `Optional`) holds the `Option` type shared by
  the store and the label reader.
- `proxy_manager.dfy` (module `ProxyManager`) holds the four operations.
  The read comes in two forms. `ReadStore` keeps the reason a read failed.
  `GetProxySettings` collapses every failure to `(False, "", "")`, as the
  source does.
- `main_window.dfy` (module `MainWindow`) holds the label formatter
  `StatusText`, the reader `LabelFields` that parses a label back into its
  fields, and the three button handlers. The handlers are functions from
  the window's text fields and the store to the window and store
  afterwards.

Two formatters have no contract of their own; each is characterised by a
partner lemma. `Compose` builds the `ip:port` text that `set_proxy` writes
(proxy_manager.py:35); `ParseCompose` shows that the read takes it apart
again. `StatusText` builds the three-line label of `refresh_stats`
(main.py:271-272); `LabelRoundTrip` shows that `LabelFields` reads it back.

The read unpacks `server.split(":")` into exactly two names. It does not
cut at the first colon, so a server text with two or more colons raises
inside the read, and the read falls back to `(False, "", "")`. The model
proves two consequences:

- A successful set whose address contains a colon (an IPv6 address, for
  instance) leaves the proxy on while every read reports it off
  (`SetWithColonReadsDefault`).
- On such a key every successful toggle writes 1, so toggling can never
  switch the proxy off (`ToggleCannotDisable`).

## Model

| member | source | states |
|---|---|---|
| Text.Split | proxy_manager.py:22 | `split(":")` gives one more piece than there are colons; no piece holds a colon; joining the pieces with colons gives the text back |
| Text.Strip | main.py:275-276 | `strip()` keeps a contiguous slice whose first and last characters are not whitespace, and everything dropped on either side is whitespace; the result is empty exactly when the input is all whitespace |
| Text.StripIdempotent | main.py:275-276 | stripping an already stripped value changes nothing |
| Registry.Session | proxy_manager.py:36-39 | a `with OpenKey(...)` write session succeeds exactly when the key opens and no value write is refused; on success every write is applied in order; on failure only a strict prefix of the writes is applied, and none when the open is refused |
| Registry.ApplyAll | proxy_manager.py:37-38 | applying value writes never changes whether the key opens; a session that writes only `ProxyEnable` leaves `ProxyServer` as it was; the value named by the session's final write ends up holding that write's contents |
| Registry.FailedPairSession | proxy_manager.py:36-38 | a failed two-write session leaves the key unchanged or with only its first write done |
| ProxyManager.ParseServer | proxy_manager.py:18-24 | the parse fails exactly when the server text has two or more colons; without a colon the whole text is the address and the port is empty; with exactly one colon the fields hold no colon and rejoin to the text |
| ProxyManager.ParseCompose | proxy_manager.py:20-24 | an address and port without colons, composed as `ip:port`, parse back to the same address and port |
| ProxyManager.ComposeWithColonHasTwo | proxy_manager.py:35 | if the address or port holds a colon, the composed server text holds at least two colons |
| ProxyManager.ReadStore | proxy_manager.py:10-29 | the read fails because the key does not open exactly when the key does not open; because `ProxyEnable` is missing exactly when it is absent on an openable key; because unpacking finds too many pieces exactly when the server text has two or more colons |
| ProxyManager.GetProxySettings | proxy_manager.py:8-29 | an unopenable key, a missing `ProxyEnable` or a server text with two or more colons gives exactly `(False, "", "")`; otherwise enabled is whether `ProxyEnable` is non-zero, a colon-free server text is all address with an empty port, and a single-colon text is cut at the colon |
| ProxyManager.ReadOneColon | proxy_manager.py:21-22 | a server text with exactly one colon, at index i, reads as the text before i and the text after i |
| ProxyManager.ReadNoColon | proxy_manager.py:23-24 | a server text with no colon reads as the whole text for the address and an empty port |
| ProxyManager.ReadEmptyServer | proxy_manager.py:13-26 | an absent or empty `ProxyServer` reads as empty address and port, with enabled still taken from `ProxyEnable` |
| ProxyManager.ReadScenarios | proxy_manager.py:8-29 | key `(1, "127.0.0.1:7890")` reads `(True, "127.0.0.1", "7890")`; key `(0, "")` reads `(False, "", "")`; an unopenable key reads `(False, "", "")` |
| ProxyManager.SetProxy | proxy_manager.py:32-42 | succeeds exactly when the key opens and both writes go through, leaving `ProxyServer` = `ip:port` and `ProxyEnable` = 1 with nothing else changed; on failure it returns false, and at most the server text was written |
| ProxyManager.ResetProxy | proxy_manager.py:45-54 | succeeds exactly when the key opens and both writes go through, leaving `ProxyServer` empty and `ProxyEnable` = 0; on failure it returns false, and at most the server text was cleared |
| ProxyManager.ToggleProxy | proxy_manager.py:56-66 | never touches `ProxyServer`; on success writes `ProxyEnable` = 0 when the key reads as enabled and 1 otherwise, an unreadable key counting as disabled; on failure it returns false and changes nothing |
| ProxyManager.ReadAfterSet | proxy_manager.py:35-38 | after a successful set with colon-free address and port, the read succeeds and returns `(True, ip, port)` |
| ProxyManager.SetWithColonReadsDefault | proxy_manager.py:35-38 | after a successful set whose address or port holds a colon, `ProxyEnable` is 1, yet the read fails with too many values and reports `(False, "", "")` |
| ProxyManager.ReadAfterReset | proxy_manager.py:48-51 | after a successful reset the read succeeds (it does not fall back) and returns `(False, "", "")` |
| ProxyManager.ToggleTwice | proxy_manager.py:59-62 | on a readable key, two successful toggles restore the truth value of `ProxyEnable` and the whole read triple |
| ProxyManager.ToggleCannotDisable | proxy_manager.py:59-62 | on a key whose server text has two or more colons, a successful toggle always writes 1 and the key stays unreadable |
| MainWindow.LabelRoundTrip | main.py:271-272 | reading the label back gives "ON" exactly when enabled and "OFF" otherwise, "-" for an empty address or port and the field verbatim otherwise (for fields without a line break) |
| MainWindow.StatusLineSaysOn | main.py:271 | whatever the fields hold, the label's first line is the "ON" status line exactly when enabled |
| MainWindow.InitialLabelShowsDefault | main.py:173 | the label the window starts with is the one a disabled, empty read produces |
| MainWindow.RefreshStats | main.py:269-272 | a refresh leaves the input fields alone and always sets the label to the formatted text of a fresh read; after any failed read that is the start-up label; when the read's fields hold no line break, the label reads back as the status, address and port of the read, with dashes for empty fields |
| MainWindow.SetProxyClicked | main.py:274-281 | if either stripped input is empty, neither window nor store changes; otherwise the store receives the stripped values; the inputs keep their text; when the store reports success the label is refreshed from a fresh read, and the label changes only in that case |
| MainWindow.BlankInputChangesNothing | main.py:275-278 | an input that is empty or all whitespace leaves window and store exactly as they were |
| MainWindow.SetClickedShowsInputs | main.py:274-281 | a successful set with inputs that strip to colon- and line-break-free values makes the store read `(True, ip, port)` and the label read back as "ON" with the stripped address and port |
| MainWindow.ResetClicked | main.py:283-287 | the store ends as the reset left it; on success both inputs are empty and the label shows the disabled, empty state; on failure the window is unchanged |
| MainWindow.ToggleClicked | main.py:289-291 | the store ends as the toggle left it and the inputs are untouched; the label is refreshed only when the toggle reports success, and on failure nothing changes |
| MainWindow.ToggleClickedTwice | main.py:289-291 | on a readable key, two successful toggle clicks bring the window back to what a refresh showed before them |

## Left out

- The `winreg` calls and the registry path are not modelled. They become the `Store` record and the `WriteFault` parameter. One `openable` flag stands for both the read-access and the write-access open of the key.
- Closing the key is not modelled; a refusal at close time is not one of the modelled faults.
- The `print` diagnostics on each failure path are not modelled; they are console output with no effect on results.
- ProxyManager.GetProxySettings: models `ProxyEnable` as an integer and `ProxyServer` as a string. Other registry value types make Python's `bool()` and `in` behave differently, and that is not modelled. Errors other than "value not found" while reading `ProxyServer` are not modelled either.
- `ProxyEnable` is modelled as an unbounded integer rather than a 32-bit DWORD. The source itself only writes 0 and 1.
- Text.Strip: whitespace is the set of characters Python's `str.isspace()` accepts, written out by code point. No other Unicode behaviour of `str.strip()` is modelled.
- The Qt window is not modelled: construction, styles, layout, tray icon and menu, window dragging, and `open_github`. The start-up call to `refresh_stats` is the same `RefreshStats`.
- `resource_path` is not modelled; it is a PyInstaller and file-system path lookup.
- Other programs may change the key between toggle's read and its write. This race is outside the program and is not modelled.
