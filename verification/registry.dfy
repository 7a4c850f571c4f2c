/**
 The per-user "Internet Settings" registry key, abstracted to the two
 values the proxy tool touches and whether the key can be opened at all.
 A write session opens the key once and sets values one after another;
 a session can be refused at the open or at any single value write, in
 which case the values set before the refusal stay set.
 */
module Registry {
  import opened Optional

  /**
   `openable` says whether the key can be opened; `proxyEnable` is the
   DWORD `ProxyEnable` and `proxyServer` the string `ProxyServer`, each
   `None` when the value does not exist under the key.
   */
  datatype Store = Store(openable: bool, proxyEnable: Option<int>, proxyServer: Option<string>)

  /** One `SetValueEx` call. */
  datatype Assignment = SetProxyServer(text: string) | SetProxyEnable(flag: int)

  /**
   Where a write session fails, a parameter standing for the operating
   system's answer: `FailAt(0)` is a refused open, `FailAt(k)` for k >= 1
   a refusal of the k-th value write after the earlier ones took effect.
   A step past the end of the session means the session meets no refusal.
   */
  datatype WriteFault = NoFault | FailAt(step: nat)

  /** A session of `n` value writes is not interrupted by `fault`. */
  predicate Completes(fault: WriteFault, n: nat) {
    fault.NoFault? || fault.step > n
  }

  function Apply(st: Store, a: Assignment): Store {
    match a
    case SetProxyServer(text) => st.(proxyServer := Some(text))
    case SetProxyEnable(flag) => st.(proxyEnable := Some(flag))
  }

  predicate OnlyEnableWrites(ws: seq<Assignment>) {
    forall i :: 0 <= i < |ws| ==> ws[i].SetProxyEnable?
  }

  /**
   The writes of `ws` in order. Opening is untouched, a value no write
   names keeps its old contents, and a value that is written ends up with
   the last write to it.
   */
  function ApplyAll(st: Store, ws: seq<Assignment>): (r: Store)
    ensures r.openable == st.openable
    ensures OnlyEnableWrites(ws) ==> r.proxyServer == st.proxyServer
    ensures |ws| > 0 && ws[|ws| - 1].SetProxyEnable? ==> r.proxyEnable == Some(ws[|ws| - 1].flag)
    ensures |ws| > 0 && ws[|ws| - 1].SetProxyServer? ==> r.proxyServer == Some(ws[|ws| - 1].text)
    decreases |ws|
  {
    if |ws| == 0 then st
    else ApplyAll(Apply(st, ws[0]), ws[1..])
  }

  /**
   Outcome of one open/write/close session: the key afterwards and
   whether it succeeded. It succeeds exactly when the key opens and the
   fault lies past the last write; on failure the key holds a strict
   prefix of the writes, and nothing at all when the open was refused.
   */
  function Session(st: Store, ws: seq<Assignment>, fault: WriteFault): (res: (Store, bool))
    ensures res.1 <==> st.openable && Completes(fault, |ws|)
    ensures res.1 ==> res.0 == ApplyAll(st, ws)
    ensures !res.1 ==> exists k :: 0 <= k <= |ws| && (k < |ws| || k == 0) && res.0 == ApplyAll(st, ws[..k])
    ensures !st.openable || fault == FailAt(0) ==> res == (st, false)
  {
    if !st.openable then
      assert ws[..0] == [];
      (st, false)
    else if Completes(fault, |ws|) then (ApplyAll(st, ws), true)
    else
      var done := if fault.step == 0 then 0 else fault.step - 1;
      assert ws[..0] == [];
      (ApplyAll(st, ws[..done]), false)
  }

  /**
   A failed two-write session leaves the key as it was or with only the
   first write done.
   */
  lemma FailedPairSession(st: Store, a: Assignment, b: Assignment, fault: WriteFault)
    ensures !Session(st, [a, b], fault).1 ==> Session(st, [a, b], fault).0 in {st, Apply(st, a)}
  {
    var ws := [a, b];
    if Session(st, ws, fault).1 {
      return;
    }
    var k :| 0 <= k <= |ws| && (k < |ws| || k == 0) && Session(st, ws, fault).0 == ApplyAll(st, ws[..k]);
    if k == 1 {
      assert ws[..1] == [a];
      assert ApplyAll(st, [a]) == ApplyAll(Apply(st, a), []);
    } else {
      assert ws[..0] == [];
    }
  }
}
