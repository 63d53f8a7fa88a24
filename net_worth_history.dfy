/** The net-worth history: one snapshot per day, replaced when the day is
    recorded again. */
module NetWorthHistory {
  import opened CivilDate
  import opened Types
  import opened SeqUtil

  function AssetTotal(assets: seq<Asset>): real {
    Sum(assets, (a: Asset) => a.value)
  }

  function LiabilityTotal(liabilities: seq<Liability>): real {
    Sum(liabilities, (l: Liability) => l.balance)
  }

  /** The snapshot of the current totals taken on `today`. */
  function TakeSnapshot(assets: seq<Asset>, liabilities: seq<Liability>, today: Date): (s: NetWorthSnapshot)
    ensures s.date == today
    ensures s.netWorth == s.totalAssets - s.totalLiabilities
  {
    var ta := AssetTotal(assets);
    var tl := LiabilityTotal(liabilities);
    NetWorthSnapshot(today, ta, tl, ta - tl)
  }

  predicate HasDate(history: seq<NetWorthSnapshot>, d: Date) {
    exists i :: 0 <= i < |history| && history[i].date == d
  }

  /** `findIndex(s => s.date === d)`: the first index with that date, or -1. */
  function FirstWithDate(history: seq<NetWorthSnapshot>, d: Date): (i: int)
    ensures -1 <= i < |history|
    ensures i == -1 <==> !HasDate(history, d)
    ensures i >= 0 ==> history[i].date == d && forall j :: 0 <= j < i ==> history[j].date != d
    decreases |history|
  {
    if history == [] then -1
    else if history[0].date == d then 0
    else
      var k := FirstWithDate(history[1..], d);
      assert HasDate(history[1..], d) ==> HasDate(history, d) by {
        if HasDate(history[1..], d) {
          var j :| 0 <= j < |history[1..]| && history[1..][j].date == d;
          assert history[j + 1].date == d;
        }
      }
      assert HasDate(history, d) ==> HasDate(history[1..], d) by {
        if HasDate(history, d) {
          var j :| 0 <= j < |history| && history[j].date == d;
          assert j > 0 && history[1..][j - 1].date == d;
        }
      }
      if k == -1 then -1 else k + 1
  }

  /** The history after recording `snap`: the first entry with its date is
      replaced, otherwise the snapshot is appended. */
  function Upsert(history: seq<NetWorthSnapshot>, snap: NetWorthSnapshot): seq<NetWorthSnapshot> {
    var i := FirstWithDate(history, snap.date);
    if i >= 0 then history[i := snap] else history + [snap]
  }

  /** Dates in the history are unique. */
  predicate UniqueDates(history: seq<NetWorthSnapshot>) {
    forall i, j :: 0 <= i < j < |history| ==> history[i].date != history[j].date
  }

  /** The history grows by at most one, not at all when the day is already
      recorded, and afterwards holds the new snapshot; nothing recorded for
      another day changes. */
  lemma UpsertShape(history: seq<NetWorthSnapshot>, snap: NetWorthSnapshot)
    ensures var h := Upsert(history, snap);
      && |h| == |history| + (if HasDate(history, snap.date) then 0 else 1)
      && snap in h
      && (forall i :: 0 <= i < |history| && history[i].date != snap.date ==> h[i] == history[i])
  {
    var i := FirstWithDate(history, snap.date);
    var h := Upsert(history, snap);
    if i >= 0 {
      assert h[i] == snap;
    } else {
      assert h[|history|] == snap;
    }
  }

  /** Recording keeps dates unique, so each day has exactly one snapshot. */
  lemma UpsertKeepsUnique(history: seq<NetWorthSnapshot>, snap: NetWorthSnapshot)
    requires UniqueDates(history)
    ensures UniqueDates(Upsert(history, snap))
  {
  }

  /** Recording twice on the same day leaves what recording once leaves,
      when the second snapshot is the same. */
  lemma UpsertIdempotent(history: seq<NetWorthSnapshot>, snap: NetWorthSnapshot)
    ensures Upsert(Upsert(history, snap), snap) == Upsert(history, snap)
  {
    var i := FirstWithDate(history, snap.date);
    var h := Upsert(history, snap);
    if i >= 0 {
      assert h[i] == snap;
      var k := FirstWithDate(h, snap.date);
      assert k == i;
    } else {
      assert h[|history|] == snap;
      var k := FirstWithDate(h, snap.date);
      assert k == |history|;
    }
  }

  /** Totals are sums: one more asset raises the snapshot's total assets by its value. */
  lemma SnapshotTotals(assets: seq<Asset>, liabilities: seq<Liability>, today: Date, a: Asset)
    ensures TakeSnapshot(assets + [a], liabilities, today).totalAssets
         == TakeSnapshot(assets, liabilities, today).totalAssets + a.value
  {
    SumAppend(assets, [a], (x: Asset) => x.value);
    assert [a][..0] == [];
  }
}
