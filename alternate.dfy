/**
 * The choice of USB alternate setting made by stk1160_set_alternate: the
 * first setting whose maximum packet size reaches the bandwidth threshold,
 * or, when none does, the one with the largest packet size.
 */
module Alternate {

  /**
   * The selected setting after the loop has looked at settings i and on,
   * holding `alt` so far: a setting that meets the threshold ends the scan,
   * one strictly larger than the current choice replaces it.
   */
  function AltScan(sizes: seq<nat>, minPkt: nat, alt: nat, i: nat): (r: nat)
    requires alt < |sizes| && i <= |sizes|
    ensures r < |sizes|
    decreases |sizes| - i
  {
    if i == |sizes| then alt
    else if sizes[i] >= minPkt then i
    else if sizes[i] > sizes[alt] then AltScan(sizes, minPkt, i, i + 1)
    else AltScan(sizes, minPkt, alt, i + 1)
  }

  /** The setting the whole scan leaves selected, starting from the previous one. */
  function ChosenAlt(sizes: seq<nat>, minPkt: nat, prev: nat): nat
    requires prev < |sizes|
  {
    AltScan(sizes, minPkt, prev, 0)
  }

  lemma {:induction false} ScanStopsAtFirstSufficient(sizes: seq<nat>, minPkt: nat, alt: nat, i: nat, k: nat)
    requires alt < |sizes| && i <= k < |sizes| && sizes[k] >= minPkt
    requires forall j :: i <= j < k ==> sizes[j] < minPkt
    ensures AltScan(sizes, minPkt, alt, i) == k
    decreases k - i
  {
    if i < k {
      if sizes[i] > sizes[alt] {
        ScanStopsAtFirstSufficient(sizes, minPkt, i, i + 1, k);
      } else {
        ScanStopsAtFirstSufficient(sizes, minPkt, alt, i + 1, k);
      }
    }
  }

  /** When some setting offers enough bandwidth, the first such setting is chosen. */
  lemma ChosenAltFirstSufficient(sizes: seq<nat>, minPkt: nat, prev: nat, k: nat)
    requires prev < |sizes| && k < |sizes| && sizes[k] >= minPkt
    requires forall j :: 0 <= j < k ==> sizes[j] < minPkt
    ensures ChosenAlt(sizes, minPkt, prev) == k
  {
    ScanStopsAtFirstSufficient(sizes, minPkt, prev, 0, k);
  }

  lemma {:induction false} ScanKeepsRunningMax(sizes: seq<nat>, minPkt: nat, alt: nat, i: nat)
    requires alt < |sizes| && i <= |sizes|
    requires forall j :: i <= j < |sizes| ==> sizes[j] < minPkt
    ensures var r := AltScan(sizes, minPkt, alt, i);
            && sizes[alt] <= sizes[r]
            && (forall j :: i <= j < |sizes| ==> sizes[j] <= sizes[r])
            && (r == alt || (i <= r && sizes[alt] < sizes[r] && forall j :: i <= j < r ==> sizes[j] < sizes[r]))
    decreases |sizes| - i
  {
    if i < |sizes| {
      if sizes[i] > sizes[alt] {
        ScanKeepsRunningMax(sizes, minPkt, i, i + 1);
      } else {
        ScanKeepsRunningMax(sizes, minPkt, alt, i + 1);
      }
    }
  }

  /**
   * When no setting offers enough bandwidth, the chosen one has the largest
   * packet size of all; it is the previous setting if that one is already
   * largest, and otherwise the first setting of largest size.
   */
  lemma ChosenAltFallback(sizes: seq<nat>, minPkt: nat, prev: nat)
    requires prev < |sizes|
    requires forall j :: 0 <= j < |sizes| ==> sizes[j] < minPkt
    ensures var r := ChosenAlt(sizes, minPkt, prev);
            && (forall j :: 0 <= j < |sizes| ==> sizes[j] <= sizes[r])
            && (r == prev || (sizes[prev] < sizes[r] && forall j :: 0 <= j < r ==> sizes[j] < sizes[r]))
  {
    ScanKeepsRunningMax(sizes, minPkt, prev, 0);
  }
}
