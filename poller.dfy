/**
 * The export-readiness poller that FileURL starts when given a channel:
 * probe the status URL, and on a 200 send the download URL once and stop;
 * otherwise sleep the current interval and double it, while the interval is
 * below the ceiling. Run here sequentially, with time counted in whole
 * seconds: each probe and each send is recorded instead of performed.
 */
module Poller {

  const PollingInterval: nat := 10    // 10 * time.Second
  const PollingTimeout: nat := 120    // 2 * time.Minute

  /** One existence probe: the URL asked, and the seconds slept since polling began (probes take no time here). */
  datatype Probe = Probe(url: string, at: nat)

  function Pow2(k: nat): (r: nat)
    ensures r >= 1
  {
    if k == 0 then 1 else 2 * Pow2(k - 1)
  }

  /** Seconds elapsed when probe number k (from 0) is made: the sum of the k sleeps before it. */
  function Offset(k: nat): nat
  {
    PollingInterval * (Pow2(k) - 1)
  }

  /** The schedule the constants give: probes at 0, 10, 30 and 70 s, and the ceiling reached before a fifth. */
  lemma Schedule()
    ensures Offset(0) == 0 && Offset(1) == 10 && Offset(2) == 30 && Offset(3) == 70
    ensures forall k: nat | k < 4 :: PollingInterval * Pow2(k) < PollingTimeout
    ensures PollingInterval * Pow2(4) >= PollingTimeout
  {
  }

  /**
   * The polling goroutine. `head(url, t)` says whether http.Head(url) made t
   * seconds after polling began succeeded with status 200. Returns the probes
   * made, the values sent down the ready channel, and the seconds elapsed
   * when the goroutine ends.
   */
  method Poll(pollingURL: string, downloadURL: string, head: (string, nat) -> bool)
    returns (probes: seq<Probe>, sent: seq<string>, elapsed: nat)
    ensures 1 <= |probes| <= 4
    ensures forall i | 0 <= i < |probes| :: probes[i] == Probe(pollingURL, Offset(i))
    ensures forall i | 0 <= i < |probes| :: probes[i].at == [0, 10, 30, 70][i]
    // every probe before the last one failed
    ensures forall i | 0 <= i < |probes| - 1 :: !head(pollingURL, probes[i].at)
    // the download URL is sent at most once, exactly when the last probe succeeded
    ensures sent == if head(pollingURL, probes[|probes| - 1].at) then [downloadURL] else []
    // nothing sent: all four probes failed and the goroutine gave up after the last sleep
    ensures sent == [] ==> |probes| == 4 && elapsed == 150
    ensures sent != [] ==> elapsed == probes[|probes| - 1].at
  {
    Schedule();
    probes, sent, elapsed := [], [], 0;
    var interval := PollingInterval;
    while interval < PollingTimeout
      invariant |probes| <= 4
      invariant interval == PollingInterval * Pow2(|probes|)
      invariant elapsed == Offset(|probes|)
      invariant forall i | 0 <= i < |probes| :: probes[i] == Probe(pollingURL, Offset(i))
      invariant forall i | 0 <= i < |probes| :: !head(pollingURL, probes[i].at)
      invariant sent == []
      decreases PollingTimeout - interval
    {
      probes := probes + [Probe(pollingURL, elapsed)];
      if head(pollingURL, elapsed) {
        sent := sent + [downloadURL];
        break;
      }
      elapsed := elapsed + interval;
      interval := interval * 2;
    }
  }
}
