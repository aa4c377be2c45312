/** Python dictionaries where their iteration order matters: a dict is the
    sequence of its items in insertion order. Assigning to a key that is
    already present replaces its value in place; a new key goes at the end. */
module PyDict {
  import opened Common

  /** The items of a dict from labels to scores, in iteration order. */
  type Dict = seq<(string, real)>

  /** Every dict the program builds has pairwise distinct keys. */
  predicate UniqueKeys(d: Dict) {
    forall i, j :: 0 <= i < j < |d| ==> d[i].0 != d[j].0
  }

  /** Position of key `k` in `d`, if present. */
  function IndexOf(d: Dict, k: string): (r: Option<nat>)
    ensures r.None? <==> forall j :: 0 <= j < |d| ==> d[j].0 != k
    ensures r.Some? ==> r.value < |d| && d[r.value].0 == k
    ensures r.Some? ==> forall j :: 0 <= j < r.value ==> d[j].0 != k
  {
    if d == [] then None
    else if d[0].0 == k then Some(0)
    else match IndexOf(d[1..], k)
      case None => None
      case Some(i) => Some(i + 1)
  }

  /** `d.get(k)` */
  function Get(d: Dict, k: string): (r: Option<real>)
    ensures r.None? <==> forall j :: 0 <= j < |d| ==> d[j].0 != k
    ensures r.Some? ==> exists j :: 0 <= j < |d| && d[j] == (k, r.value)
  {
    match IndexOf(d, k)
    case None => None
    case Some(i) => Some(d[i].1)
  }

  /** `d[k] = v` */
  function Put(d: Dict, k: string, v: real): (r: Dict)
    ensures UniqueKeys(d) ==> UniqueKeys(r)
    ensures Get(r, k) == Some(v)
    ensures forall k' :: k' != k ==> Get(r, k') == Get(d, k')
    ensures |r| == if Get(d, k).Some? then |d| else |d| + 1
    ensures forall j :: 0 <= j < |d| ==> r[j].0 == d[j].0
    ensures forall j :: |d| <= j < |r| ==> r[j].0 == k
  {
    match IndexOf(d, k)
    case None =>
      var r := d + [(k, v)];
      IndexOfAt(r, k, |d|);
      assert forall k' :: k' != k ==> Get(r, k') == Get(d, k') by {
        forall k' | k' != k ensures Get(r, k') == Get(d, k') {
          if IndexOf(d, k').Some? { IndexOfAt(r, k', IndexOf(d, k').value); }
        }
      }
      r
    case Some(i) =>
      var r := d[i := (k, v)];
      IndexOfAt(r, k, i);
      assert forall k' :: k' != k ==> Get(r, k') == Get(d, k') by {
        forall k' | k' != k ensures Get(r, k') == Get(d, k') {
          if IndexOf(d, k').Some? { IndexOfAt(r, k', IndexOf(d, k').value); }
        }
      }
      r
  }

  /** The first position holding a key is the one `IndexOf` finds. */
  lemma IndexOfAt(d: Dict, k: string, i: nat)
    requires i < |d| && d[i].0 == k
    requires forall j :: 0 <= j < i ==> d[j].0 != k
    ensures IndexOf(d, k) == Some(i)
  {
    var r := IndexOf(d, k);
    assert r.Some?;
    assert !(r.value < i) && !(i < r.value);
  }

  /** `{k: v for k, v in items}`: later items overwrite earlier ones. */
  function FromItems(items: seq<(string, real)>): (r: Dict)
    ensures UniqueKeys(r)
    ensures |r| <= |items|
  {
    if items == [] then []
    else Put(FromItems(items[..|items| - 1]), items[|items| - 1].0, items[|items| - 1].1)
  }

  /** The value of the last item whose key is `k`. */
  function LastValue(items: seq<(string, real)>, k: string): Option<real> {
    if items == [] then None
    else if items[|items| - 1].0 == k then Some(items[|items| - 1].1)
    else LastValue(items[..|items| - 1], k)
  }

  /** In a dict built from items, every key holds the value of its last item. */
  lemma {:induction false} FromItemsGet(items: seq<(string, real)>, k: string)
    ensures Get(FromItems(items), k) == LastValue(items, k)
    decreases |items|
  {
    if items != [] {
      var init := items[..|items| - 1];
      var last := items[|items| - 1];
      FromItemsGet(init, k);
      assert FromItems(items) == Put(FromItems(init), last.0, last.1);
    }
  }

  /** Appending an item does not move a key already present; a new key is
      found at the end. */
  lemma IndexOfExtend(a: Dict, x: (string, real), k: string)
    ensures IndexOf(a, k).Some? ==> IndexOf(a + [x], k) == IndexOf(a, k)
    ensures IndexOf(a, k).None? && x.0 == k ==> IndexOf(a + [x], k) == Some(|a|)
  {
    match IndexOf(a, k)
    case Some(i) => IndexOfAt(a + [x], k, i);
    case None => if x.0 == k { IndexOfAt(a + [x], k, |a|); }
  }

  /** One more item keeps the keys of the dict in place and adds its key at
      the end when no earlier item holds it. */
  lemma FromItemsStep(init: seq<(string, real)>, last: (string, real))
    ensures var d := FromItems(init); var r := FromItems(init + [last]);
      (|r| == |d| || (|r| == |d| + 1 && r[|d|].0 == last.0 && IndexOf(init, last.0).None?)) &&
      forall i :: 0 <= i < |d| ==> r[i].0 == d[i].0
  {
    assert (init + [last])[..|init|] == init;
    FromItemsGet(init, last.0);
    LastValueNone(init, last.0);
  }

  /** Every key of `d` is held by some item, and the keys of `d` come in the
      order of the first item holding each. */
  predicate FirstSeenOrder(d: Dict, items: seq<(string, real)>) {
    (forall i :: 0 <= i < |d| ==> IndexOf(items, d[i].0).Some?) &&
    forall i, j :: 0 <= i < j < |d| ==>
      IndexOf(items, d[i].0).Some? && IndexOf(items, d[j].0).Some? &&
      IndexOf(items, d[i].0).value < IndexOf(items, d[j].0).value
  }

  /** The keys of a dict built from items come in the order of the first
      item holding each key. */
  lemma {:induction false} FromItemsOrder(items: seq<(string, real)>)
    ensures FirstSeenOrder(FromItems(items), items)
    decreases |items|
  {
    if items != [] {
      var init := items[..|items| - 1];
      var last := items[|items| - 1];
      assert items == init + [last];
      var d := FromItems(init);
      var r := FromItems(init + [last]);
      FromItemsOrder(init);
      FromItemsStep(init, last);
      forall i | 0 <= i < |r|
        ensures IndexOf(items, r[i].0).Some?
        ensures i < |d| ==> IndexOf(items, r[i].0) == IndexOf(init, d[i].0) && IndexOf(init, d[i].0).value < |init|
        ensures i >= |d| ==> IndexOf(items, r[i].0) == Some(|init|)
      {
        if i < |d| {
          IndexOfExtend(init, last, d[i].0);
        } else {
          IndexOfExtend(init, last, last.0);
        }
      }
    }
  }

  /** Only keys that occur in the items have a last value. */
  lemma {:induction false} LastValueNone(items: seq<(string, real)>, k: string)
    ensures LastValue(items, k).None? <==> forall j :: 0 <= j < |items| ==> items[j].0 != k
    decreases |items|
  {
    if items != [] {
      var init := items[..|items| - 1];
      LastValueNone(init, k);
      assert forall j :: 0 <= j < |init| ==> init[j] == items[j];
    }
  }

  /** `max(d, key=d.get)`: the position of the first item with the largest value,
      scanning in iteration order and replacing the candidate only on a strictly
      larger value. */
  function ArgMax(d: Dict): (i: nat)
    requires |d| > 0
    ensures i < |d|
    ensures forall j :: 0 <= j < |d| ==> d[j].1 <= d[i].1
    ensures forall j :: 0 <= j < i ==> d[j].1 < d[i].1
  {
    if |d| == 1 then 0
    else
      var k := ArgMax(d[..|d| - 1]);
      if d[|d| - 1].1 > d[k].1 then |d| - 1 else k
  }

  /** `max(d, key=d.get)` with its value, or nothing for an empty dict: an
      item of `d` whose value is the largest, the first such in iteration order. */
  function MaxItem(d: Dict): (r: Option<(string, real)>)
    ensures r.None? <==> |d| == 0
    ensures r.Some? ==> forall j :: 0 <= j < |d| ==> d[j].1 <= r.value.1
    ensures r.Some? ==> exists i :: 0 <= i < |d| && d[i] == r.value && forall j :: 0 <= j < i ==> d[j].1 < d[i].1
  {
    if |d| == 0 then None else Some(d[ArgMax(d)])
  }
}
