// The idle reaper of app.js (clearOldPods) as a function of the activity
// ledger and the pod listing: which pods it deletes, what it writes into the
// ledger, and where it stops.
module Reaper {
  import opened JsValues
  import opened Kube

  /** One hour in milliseconds: 60 * 1000 * 60. */
  const POD_TIMEOUT: int := 60 * 1000 * 60

  /** One entry of `store.pods`: when the pod was last seen active. */
  datatype Activity = Activity(lastActive: int)

  /** The ledger key of a listed pod: `pod.status.podIP`, which is the string
      "undefined" when the pod has no IP yet. */
  function LedgerKey(pod: Pod): string
  {
    Interpolate(pod.podIP)
  }

  /** `storePod.lastActive < now - POD_TIMEOUT`: strictly more than an hour. */
  predicate Idle(a: Activity, now: int)
  {
    a.lastActive < now - POD_TIMEOUT
  }

  /** The outcome of one reaper cycle: the ledger afterwards, the names
      deletePod was called with (in order), and whether the cycle ended by a
      throw. */
  datatype Cycle = Cycle(ledger: map<string, Activity>, deletes: seq<string>, threw: bool)

  /** A cycle that first deleted `done` and then went on as `c`. */
  function After(done: seq<string>, c: Cycle): Cycle
  {
    Cycle(c.ledger, done + c.deletes, c.threw)
  }

  /** The loop of clearOldPods over `pods`. A pod without a ledger entry is
      seeded with `now` by updatePodActive, which then throws (it reassigns a
      `const`), and the throw ends the cycle; an idle pod is deleted with
      deletePod, whose error also ends the cycle; other pods are skipped. */
  function Reap(ledger: map<string, Activity>, pods: seq<Pod>, cluster: Cluster, now: int): (c: Cycle)
    ensures forall k :: k in ledger ==> k in c.ledger && c.ledger[k] == ledger[k]
    ensures |c.deletes| <= |pods|
    decreases |pods|
  {
    if pods == [] then Cycle(ledger, [], false)
    else
      var key := LedgerKey(pods[0]);
      if key !in ledger then Cycle(ledger[key := Activity(now)], [], true)
      else if Idle(ledger[key], now) then
        if DeletePod(cluster, pods[0].name) == Threw then Cycle(ledger, [pods[0].name], true)
        else After([pods[0].name], Reap(ledger, pods[1..], cluster, now))
      else Reap(ledger, pods[1..], cluster, now)
  }

  /** clearOldPods: when findRunningPods throws, nothing else happens. */
  function ReapCycle(ledger: map<string, Activity>, cluster: Cluster, now: int): (c: Cycle)
    ensures cluster.listed.None? ==> c.threw && c.deletes == [] && c.ledger == ledger
    ensures cluster.listed.Some? ==> c.deletes <= IdleNames(ledger, cluster.listed.value, now)
  {
    match cluster.listed
    case None => Cycle(ledger, [], true)
    case Some(pods) =>
      ReapDeletesIdlePrefix(ledger, pods, cluster, now);
      Reap(ledger, pods, cluster, now)
  }

  /** The names of the listed pods that have a ledger entry and are idle, in
      listing order: what a cycle deletes when nothing goes wrong. */
  function IdleNames(ledger: map<string, Activity>, pods: seq<Pod>, now: int): (names: seq<string>)
    ensures forall n :: n in names <==>
      exists i :: 0 <= i < |pods| && pods[i].name == n && LedgerKey(pods[i]) in ledger && Idle(ledger[LedgerKey(pods[i])], now)
  {
    if pods == [] then []
    else
      var key := LedgerKey(pods[0]);
      var rest := IdleNames(ledger, pods[1..], now);
      assert forall n :: n in rest <==>
        exists i :: 1 <= i < |pods| && pods[i].name == n && LedgerKey(pods[i]) in ledger && Idle(ledger[LedgerKey(pods[i])], now)
      by {
        forall n ensures n in rest <==>
          exists i :: 1 <= i < |pods| && pods[i].name == n && LedgerKey(pods[i]) in ledger && Idle(ledger[LedgerKey(pods[i])], now)
        {
          if n in rest {
            var j :| 0 <= j < |pods[1..]| && pods[1..][j].name == n && LedgerKey(pods[1..][j]) in ledger
                     && Idle(ledger[LedgerKey(pods[1..][j])], now);
            assert pods[j + 1] == pods[1..][j];
          }
          if exists i :: 1 <= i < |pods| && pods[i].name == n && LedgerKey(pods[i]) in ledger && Idle(ledger[LedgerKey(pods[i])], now) {
            var i :| 1 <= i < |pods| && pods[i].name == n && LedgerKey(pods[i]) in ledger && Idle(ledger[LedgerKey(pods[i])], now);
            assert pods[1..][i - 1] == pods[i];
          }
        }
      }
      (if key in ledger && Idle(ledger[key], now) then [pods[0].name] else []) + rest
  }

  /** The idle names of two listings one after the other are those of the
      first followed by those of the second: IdleNames keeps listing order. */
  lemma {:induction false} IdleNamesAppend(ledger: map<string, Activity>, a: seq<Pod>, b: seq<Pod>, now: int)
    ensures IdleNames(ledger, a + b, now) == IdleNames(ledger, a, now) + IdleNames(ledger, b, now)
    decreases |a|
  {
    if a != [] {
      assert (a + b)[1..] == a[1..] + b;
      IdleNamesAppend(ledger, a[1..], b, now);
    } else {
      assert a + b == b;
    }
  }

  // ---------------------------------------------------------------------
  // Properties of one cycle

  /** A cycle deletes the idle pods in listing order and stops early at most:
      what it deletes is a prefix of the idle names, and all of them when it
      ends without a throw. Pods without an entry and recently active pods
      are never deleted. */
  lemma {:induction false} ReapDeletesIdlePrefix(ledger: map<string, Activity>, pods: seq<Pod>, cluster: Cluster, now: int)
    ensures Reap(ledger, pods, cluster, now).deletes <= IdleNames(ledger, pods, now)
    ensures !Reap(ledger, pods, cluster, now).threw ==> Reap(ledger, pods, cluster, now).deletes == IdleNames(ledger, pods, now)
    decreases |pods|
  {
    if pods != [] {
      ReapDeletesIdlePrefix(ledger, pods[1..], cluster, now);
    }
  }

  /** A cycle never removes or changes a ledger entry. It adds one entry, the
      seed `now` for the first pod it finds without an entry, and only when it
      ends by a throw. */
  lemma {:induction false} ReapLedger(ledger: map<string, Activity>, pods: seq<Pod>, cluster: Cluster, now: int)
    ensures var c := Reap(ledger, pods, cluster, now);
      c.ledger == ledger
      || (c.threw && exists i :: 0 <= i < |pods| && LedgerKey(pods[i]) !in ledger
                                 && c.ledger == ledger[LedgerKey(pods[i]) := Activity(now)])
    decreases |pods|
  {
    if pods != [] {
      var key := LedgerKey(pods[0]);
      if key in ledger {
        ReapLedger(ledger, pods[1..], cluster, now);
        var c := Reap(ledger, pods[1..], cluster, now);
        if c.ledger != ledger {
          var i :| 0 <= i < |pods[1..]| && LedgerKey(pods[1..][i]) !in ledger
                   && c.ledger == ledger[LedgerKey(pods[1..][i]) := Activity(now)];
          assert pods[i + 1] == pods[1..][i];
        }
      }
    }
  }

  /** The first pod without a ledger entry ends the cycle: the pods after it
      are not examined (the cycle is that of the listing cut just after it),
      and what is deleted comes from the pods before it. So a pod the ledger
      has never seen is not deleted in the cycle that discovers it. */
  lemma {:induction false} ReapStopsAtUnseen(ledger: map<string, Activity>, pods: seq<Pod>, cluster: Cluster, now: int, i: nat)
    requires i < |pods| && LedgerKey(pods[i]) !in ledger
    ensures Reap(ledger, pods, cluster, now) == Reap(ledger, pods[..i + 1], cluster, now)
    ensures Reap(ledger, pods, cluster, now).threw
    ensures Reap(ledger, pods, cluster, now).deletes <= IdleNames(ledger, pods[..i], now)
    decreases i
  {
    if i > 0 {
      var key := LedgerKey(pods[0]);
      assert pods[..i + 1][0] == pods[0];
      assert pods[..i + 1][1..] == pods[1..][..i];
      assert pods[..i][1..] == pods[1..][..i - 1];
      if key in ledger {
        ReapStopsAtUnseen(ledger, pods[1..], cluster, now, i - 1);
      }
    } else {
      assert pods[..0] == [];
    }
  }

  /** A listed pod at which the cycle stops: it has no ledger entry (seeding
      it throws), or it is idle and its deletion throws. */
  predicate StopsAt(ledger: map<string, Activity>, pod: Pod, cluster: Cluster, now: int)
  {
    var key := LedgerKey(pod);
    key !in ledger || (Idle(ledger[key], now) && pod.name in cluster.deleteFails)
  }

  /** Where a cycle stops, and with what: at the first pod `k` at which it
      stops, the cycle has deleted the idle pods before `k`, then either seeds
      the entry of `k` with `now` (no entry) or has also called deletePod on
      `k` (its deletion threw), and throws; the ledger is otherwise as it was
      and no later pod is examined. */
  lemma {:induction false} ReapStopsAt(ledger: map<string, Activity>, pods: seq<Pod>, cluster: Cluster, now: int, k: nat)
    requires k < |pods| && StopsAt(ledger, pods[k], cluster, now)
    requires forall j :: 0 <= j < k ==> !StopsAt(ledger, pods[j], cluster, now)
    ensures var key := LedgerKey(pods[k]);
      Reap(ledger, pods, cluster, now)
      == Cycle(if key !in ledger then ledger[key := Activity(now)] else ledger,
               IdleNames(ledger, pods[..k], now) + (if key in ledger then [pods[k].name] else []),
               true)
    decreases k
  {
    if k == 0 {
      assert pods[..0] == [];
    } else {
      assert pods[..k][0] == pods[0];
      assert pods[..k][1..] == pods[1..][..k - 1];
      assert !StopsAt(ledger, pods[0], cluster, now);
      ReapStopsAt(ledger, pods[1..], cluster, now, k - 1);
    }
  }

  /** When every listed pod has an entry and no deletion fails, the cycle
      runs to the end, deletes exactly the idle pods and leaves the ledger as
      it was. */
  lemma {:induction false} ReapComplete(ledger: map<string, Activity>, pods: seq<Pod>, cluster: Cluster, now: int)
    requires forall i :: 0 <= i < |pods| ==> LedgerKey(pods[i]) in ledger
    requires forall i :: 0 <= i < |pods| ==> pods[i].name !in cluster.deleteFails
    ensures Reap(ledger, pods, cluster, now) == Cycle(ledger, IdleNames(ledger, pods, now), false)
    decreases |pods|
  {
    if pods != [] {
      assert forall i :: 0 <= i < |pods[1..]| ==> pods[1..][i] == pods[i + 1];
      ReapComplete(ledger, pods[1..], cluster, now);
    }
  }

  /** A cycle ends by a throw exactly when the listing has a pod without an
      entry, or an idle pod whose deletion fails. */
  lemma {:induction false} ReapThrows(ledger: map<string, Activity>, pods: seq<Pod>, cluster: Cluster, now: int)
    ensures Reap(ledger, pods, cluster, now).threw <==>
      exists i :: 0 <= i < |pods| &&
        (LedgerKey(pods[i]) !in ledger || (Idle(ledger[LedgerKey(pods[i])], now) && pods[i].name in cluster.deleteFails))
    decreases |pods|
  {
    if pods != [] {
      ReapThrows(ledger, pods[1..], cluster, now);
      assert forall i :: 1 <= i < |pods| ==> pods[i] == pods[1..][i - 1];
      assert forall i :: 0 <= i < |pods[1..]| ==> pods[1..][i] == pods[i + 1];
    }
  }
}
