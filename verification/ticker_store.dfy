/**
  The latest-ticker store of the streaming bot: a map from ticker field name
  to the last value the exchange sent for it, and the `dict.update` merge
  that folds a partial (delta) ticker into it.
 */
module TickerStore {
  import opened Wrappers

  /** The stored ticker: field name to the most recent value received. */
  type Snapshot = map<string, string>

  /** The `data` object of one ticker frame: only the fields it carries. */
  type Partial = map<string, string>

  /** `d.get(key)`: the stored value, or None when the key is absent. */
  function Lookup(s: Snapshot, key: string): (r: Option<string>)
    ensures r.Some? <==> key in s
    ensures r.Some? ==> r.value == s[key]
  {
    if key in s then Some(s[key]) else None
  }

  /**
    `latest_ticker.update(partial)`: every key of the partial is inserted or
    overwritten with the partial's value; every other key keeps its value;
    nothing is removed.
   */
  function Merge(s: Snapshot, p: Partial): (r: Snapshot)
    ensures r.Keys == s.Keys + p.Keys
    ensures forall k :: k in p ==> r[k] == p[k]
    ensures forall k :: k in s && k !in p ==> r[k] == s[k]
  {
    s + p
  }

  /** Merging the same partial twice in a row is the same as merging it once. */
  lemma MergeIdempotent(s: Snapshot, p: Partial)
    ensures Merge(Merge(s, p), p) == Merge(s, p)
  {
  }

  /** An empty partial leaves the store exactly as it was. */
  lemma MergeEmpty(s: Snapshot)
    ensures Merge(s, map[]) == s
  {
  }

  /** The fields whose presence in a partial makes an update worth printing. */
  const SignificantFields: set<string> := {"lastPrice", "indexPrice", "price24hPcnt"}

  /**
    The bot's gate: the partial carries lastPrice, indexPrice or
    price24hPcnt, that is, its keys meet the significant set.
   */
  function IsSignificant(p: Partial): (b: bool)
    ensures b <==> p.Keys * SignificantFields != {}
  {
    if "lastPrice" in p then
      assert "lastPrice" in p.Keys * SignificantFields; true
    else if "indexPrice" in p then
      assert "indexPrice" in p.Keys * SignificantFields; true
    else if "price24hPcnt" in p then
      assert "price24hPcnt" in p.Keys * SignificantFields; true
    else false
  }

  /** The store after merging the partials `ps` into `s`, in order. */
  function MergeAll(s: Snapshot, ps: seq<Partial>): (r: Snapshot)
    ensures s.Keys <= r.Keys
    decreases |ps|
  {
    if ps == [] then s else Merge(MergeAll(s, ps[..|ps| - 1]), ps[|ps| - 1])
  }

  /**
    The latest partial that carried a key decides its value: later partials
    that omit the key do not disturb it.
   */
  lemma {:induction false} MergeAllLatestWins(s: Snapshot, ps: seq<Partial>, i: nat, k: string)
    requires i < |ps| && k in ps[i]
    requires forall j :: i < j < |ps| ==> k !in ps[j]
    ensures k in MergeAll(s, ps) && MergeAll(s, ps)[k] == ps[i][k]
    decreases |ps|
  {
    var init := ps[..|ps| - 1];
    if i < |ps| - 1 {
      assert forall j :: i < j < |init| ==> init[j] == ps[j];
      MergeAllLatestWins(s, init, i, k);
    }
  }

  /** A key that no partial carries is present afterwards iff it was before, with its old value. */
  lemma {:induction false} MergeAllUntouched(s: Snapshot, ps: seq<Partial>, k: string)
    requires forall j :: 0 <= j < |ps| ==> k !in ps[j]
    ensures k in MergeAll(s, ps) <==> k in s
    ensures k in s ==> MergeAll(s, ps)[k] == s[k]
    decreases |ps|
  {
    if ps != [] {
      var init := ps[..|ps| - 1];
      assert forall j :: 0 <= j < |init| ==> init[j] == ps[j];
      MergeAllUntouched(s, init, k);
    }
  }
}
