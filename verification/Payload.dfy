/**
 * The logical payload of a bet: merging of duplicate selections, its validation, and the comparison
 * that decides whether a repeated idempotency key carries the same bet.
 */
module Payload {
  import opened Prelude

  datatype Category = Singles | Doubles | Triples

  datatype Key = Key(category: Category, selection: int)

  datatype Item = Item(key: Key, amount: int)

  const MAX_SAFE_AMOUNT: int := 9007199254740991

  datatype PayloadError = UnsafeAmount(key: Key) | InvalidSelection(key: Key) | UnsafeTotal

  function Total(items: seq<Item>): int {
    if items == [] then 0 else Total(items[..|items| - 1]) + items[|items| - 1].amount
  }

  /** The sum staked on one selection. */
  function SumFor(items: seq<Item>, k: Key): int {
    if items == [] then 0
    else SumFor(items[..|items| - 1], k) + (if items[|items| - 1].key == k then items[|items| - 1].amount else 0)
  }

  predicate AllPositive(items: seq<Item>) {
    forall i :: 0 <= i < |items| ==> items[i].amount > 0
  }

  predicate Distinct(items: seq<Item>) {
    forall i, j :: 0 <= i < j < |items| ==> items[i].key != items[j].key
  }

  predicate SafeAmount(a: int) {
    0 < a <= MAX_SAFE_AMOUNT
  }

  predicate InRange(k: Key) {
    0 <= k.selection <= match k.category case Singles => 9 case Doubles => 99 case Triples => 999
  }

  /** The position of `k` in an insertion-ordered map. */
  function Find(items: seq<Item>, k: Key): (r: Option<nat>)
    ensures r.Some? ==> r.value < |items| && items[r.value].key == k
    ensures r.None? ==> forall i :: 0 <= i < |items| ==> items[i].key != k
  {
    if items == [] then None
    else if items[|items| - 1].key == k then Some(|items| - 1)
    else Find(items[..|items| - 1], k)
  }

  function AddItem(merged: seq<Item>, item: Item): seq<Item> {
    match Find(merged, item.key)
    case None => merged + [item]
    case Some(i) => merged[i := Item(item.key, merged[i].amount + item.amount)]
  }

  function Merge(items: seq<Item>): seq<Item> {
    if items == [] then [] else AddItem(Merge(items[..|items| - 1]), items[|items| - 1])
  }

  /** Refused by `mergeItems`: `e` names the first item whose amount is no positive safe integer. */
  ghost predicate RefusesAmount(items: seq<Item>, e: PayloadError) {
    exists i :: 0 <= i < |items| && !SafeAmount(items[i].amount)
      && e == UnsafeAmount(items[i].key) && forall j :: 0 <= j < i ==> SafeAmount(items[j].amount)
  }

  /** Refused by `validateSelectionRanges`: `e` names the first selection out of its range. */
  ghost predicate RefusesSelection(items: seq<Item>, e: PayloadError) {
    exists i :: 0 <= i < |items| && !InRange(items[i].key)
      && e == InvalidSelection(items[i].key) && forall j :: 0 <= j < i ==> InRange(items[j].key)
  }

  /** Refused by `validateSafeAmounts`: `e` names the first amount that is too large, or else the total. */
  ghost predicate RefusesSize(items: seq<Item>, total: int, e: PayloadError) {
    if exists i :: 0 <= i < |items| && items[i].amount > MAX_SAFE_AMOUNT then
      exists i :: 0 <= i < |items| && items[i].amount > MAX_SAFE_AMOUNT
        && e == UnsafeAmount(items[i].key) && forall j :: 0 <= j < i ==> items[j].amount <= MAX_SAFE_AMOUNT
    else total > MAX_SAFE_AMOUNT && e == UnsafeTotal
  }

  /** Which check refuses a payload, and with what error: amounts, then selections, then sizes. */
  ghost predicate Refuses(items: seq<Item>, e: PayloadError) {
    if exists i :: 0 <= i < |items| && !SafeAmount(items[i].amount) then RefusesAmount(items, e)
    else if exists i :: 0 <= i < |Merge(items)| && !InRange(Merge(items)[i].key) then RefusesSelection(Merge(items), e)
    else RefusesSize(Merge(items), Total(items), e)
  }

  /** `mergeItems`: duplicates are summed in place, in first-seen order. */
  method MergeItems(items: seq<Item>) returns (r: Result<seq<Item>, PayloadError>)
    ensures r.Ok? <==> forall i :: 0 <= i < |items| ==> SafeAmount(items[i].amount)
    ensures r.Ok? ==> r.value == Merge(items)
    ensures r.Err? ==> RefusesAmount(items, r.error)
  {
    var byKey: seq<Item> := [];
    for n := 0 to |items|
      invariant byKey == Merge(items[..n])
      invariant forall i :: 0 <= i < n ==> SafeAmount(items[i].amount)
    {
      var item := items[n];
      if !SafeAmount(item.amount) {
        return Err(UnsafeAmount(item.key));
      }
      assert items[..n + 1][..n] == items[..n];
      var existing := Find(byKey, item.key);
      if existing.Some? {
        byKey := byKey[existing.value := Item(item.key, byKey[existing.value].amount + item.amount)];
      } else {
        byKey := byKey + [item];
      }
    }
    assert items[..|items|] == items;
    return Ok(byKey);
  }

  /** `validateSelectionRanges`: the first selection out of range, if any. */
  method ValidateSelectionRanges(items: seq<Item>) returns (r: Option<PayloadError>)
    ensures r.None? <==> forall i :: 0 <= i < |items| ==> InRange(items[i].key)
    ensures r.Some? ==> RefusesSelection(items, r.value)
  {
    for n := 0 to |items|
      invariant forall i :: 0 <= i < n ==> InRange(items[i].key)
    {
      if !InRange(items[n].key) {
        return Some(InvalidSelection(items[n].key));
      }
    }
    return None;
  }

  /** `validateSafeAmounts`: for positive amounts it fails exactly when the total is too large. */
  method ValidateSafeAmounts(items: seq<Item>, total: int) returns (r: Option<PayloadError>)
    requires AllPositive(items) && total == Total(items)
    ensures r.None? <==> total <= MAX_SAFE_AMOUNT
    ensures r.Some? ==> RefusesSize(items, total, r.value)
    ensures r.None? ==> forall i :: 0 <= i < |items| ==> SafeAmount(items[i].amount)
  {
    for n := 0 to |items|
      invariant forall i :: 0 <= i < n ==> SafeAmount(items[i].amount)
    {
      if items[n].amount > MAX_SAFE_AMOUNT {
        AmountWithinTotal(items, n);
        return Some(UnsafeAmount(items[n].key));
      }
    }
    if total > MAX_SAFE_AMOUNT {
      return Some(UnsafeTotal);
    }
    return None;
  }

  /** What `placeBet` checks of its items: it succeeds exactly for positive, in-range stakes whose total is safe. */
  method ValidatePayload(items: seq<Item>) returns (r: Result<seq<Item>, PayloadError>)
    ensures r.Ok? <==> AllPositive(items) && Total(items) <= MAX_SAFE_AMOUNT
                       && forall i :: 0 <= i < |Merge(items)| ==> InRange(Merge(items)[i].key)
    ensures r.Ok? ==> r.value == Merge(items) && Distinct(r.value) && AllPositive(r.value)
    ensures r.Ok? ==> Total(r.value) == Total(items)
    ensures r.Ok? && items != [] ==> r.value != []
    ensures r.Err? ==> Refuses(items, r.error)
  {
    var merged := MergeItems(items);
    if merged.Err? {
      if AllPositive(items) {
        var i :| 0 <= i < |items| && !SafeAmount(items[i].amount);
        AmountWithinTotal(items, i);
      }
      return merged;
    }
    MergeSums(items, Key(Singles, 0));
    MergePositive(items);
    var outOfRange := ValidateSelectionRanges(merged.value);
    if outOfRange.Some? {
      return Err(outOfRange.value);
    }
    var total := Total(merged.value);
    var unsafeTotal := ValidateSafeAmounts(merged.value, total);
    if unsafeTotal.Some? {
      return Err(unsafeTotal.value);
    }
    return merged;
  }

  /** A bound on the total bounds every amount. */
  lemma {:induction false} AmountWithinTotal(items: seq<Item>, i: nat)
    requires AllPositive(items) && i < |items|
    ensures items[i].amount <= Total(items)
  {
    var front := items[..|items| - 1];
    if i == |items| - 1 {
      TotalPositive(front);
    } else {
      AmountWithinTotal(front, i);
    }
  }

  lemma {:induction false} TotalPositive(items: seq<Item>)
    requires AllPositive(items)
    ensures Total(items) >= 0 && (items != [] ==> Total(items) > 0)
  {
    if items != [] {
      TotalPositive(items[..|items| - 1]);
    }
  }

  // ---- merging keeps every sum ----

  lemma {:induction false} SumAfterUpdate(items: seq<Item>, i: nat, a: int, k: Key)
    requires i < |items|
    ensures SumFor(items[i := Item(items[i].key, items[i].amount + a)], k) ==
              SumFor(items, k) + (if items[i].key == k then a else 0)
    ensures Total(items[i := Item(items[i].key, items[i].amount + a)]) == Total(items) + a
  {
    var last := |items| - 1;
    var items' := items[i := Item(items[i].key, items[i].amount + a)];
    if i < last {
      SumAfterUpdate(items[..last], i, a, k);
      assert items'[..last] == items[..last][i := Item(items[i].key, items[i].amount + a)];
    } else {
      assert items'[..last] == items[..last];
    }
  }

  lemma AddItemSums(m: seq<Item>, item: Item, k: Key)
    requires Distinct(m)
    ensures Distinct(AddItem(m, item)) && Total(AddItem(m, item)) == Total(m) + item.amount
    ensures SumFor(AddItem(m, item), k) == SumFor(m, k) + (if item.key == k then item.amount else 0)
  {
    var f := Find(m, item.key);
    if f.Some? {
      SumAfterUpdate(m, f.value, item.amount, k);
    } else {
      assert (m + [item])[..|m|] == m;
    }
  }

  /** Merging yields distinct selections and keeps the grand total and each selection's sum. */
  lemma {:induction false} MergeSums(items: seq<Item>, k: Key)
    ensures var m := Merge(items); Distinct(m) && SumFor(m, k) == SumFor(items, k) && Total(m) == Total(items)
  {
    hide Merge, AddItem, Distinct;
    if items == [] {
      MergeNothing();
    } else {
      var front, item := items[..|items| - 1], items[|items| - 1];
      MergeSums(front, k);
      AddItemSums(Merge(front), item, k);
      MergeStep(items);
      assert SumFor(items, k) == SumFor(front, k) + (if item.key == k then item.amount else 0);
      assert Total(items) == Total(front) + item.amount;
    }
  }

  ghost predicate HasKey(items: seq<Item>, k: Key) {
    exists i :: 0 <= i < |items| && items[i].key == k
  }

  lemma AddItemKeys(m: seq<Item>, item: Item, k: Key)
    ensures HasKey(AddItem(m, item), k) <==> HasKey(m, k) || item.key == k
  {
    hide Find;
    var n := AddItem(m, item);
    if i :| 0 <= i < |m| && m[i].key == k {
      assert n[i].key == k;
    }
    if item.key == k {
      var f := Find(m, item.key);
      assert n[if f.Some? then f.value else |m|].key == k;
    }
  }

  /** Merging keeps just the selections of the request. */
  lemma {:induction false} MergeKeys(items: seq<Item>, k: Key)
    ensures HasKey(Merge(items), k) <==> HasKey(items, k)
  {
    hide AddItem;
    if items == [] {
      assert Merge(items) == [];
    } else {
      var front, item := items[..|items| - 1], items[|items| - 1];
      MergeKeys(front, k);
      AddItemKeys(Merge(front), item, k);
      assert HasKey(items, k) <==> HasKey(front, k) || item.key == k by {
        if i :| 0 <= i < |items| && items[i].key == k {
          assert i < |front| ==> front[i].key == k;
        }
        if i :| 0 <= i < |front| && front[i].key == k {
          assert items[i].key == k;
        }
      }
    }
  }

  /** So a merged request is in range exactly if the request is. */
  lemma MergeInRange(items: seq<Item>)
    ensures (forall i :: 0 <= i < |Merge(items)| ==> InRange(Merge(items)[i].key)) <==>
            (forall i :: 0 <= i < |items| ==> InRange(items[i].key))
  {
    hide Merge;
    forall k: Key ensures HasKey(Merge(items), k) <==> HasKey(items, k) {
      MergeKeys(items, k);
    }
    forall i | 0 <= i < |items| ensures HasKey(Merge(items), items[i].key) {
      assert HasKey(items, items[i].key);
    }
    forall i | 0 <= i < |Merge(items)| ensures HasKey(items, Merge(items)[i].key) {
      assert HasKey(Merge(items), Merge(items)[i].key);
    }
  }

  lemma MergeSameSums(items: seq<Item>)
    ensures SameSums(Merge(items), items)
  {
    forall k ensures SumFor(Merge(items), k) == SumFor(items, k) {
      MergeSums(items, k);
    }
  }

  lemma MergeNothing()
    ensures Merge([]) == [] && Distinct([])
  {
  }

  lemma MergeStep(items: seq<Item>)
    requires items != []
    ensures Merge(items) == AddItem(Merge(items[..|items| - 1]), items[|items| - 1])
  {
  }

  lemma {:induction false} MergePositive(items: seq<Item>)
    requires AllPositive(items)
    ensures AllPositive(Merge(items)) && (items != [] ==> Merge(items) != [])
  {
    hide AddItem;
    if items == [] {
      assert Merge(items) == [];
    } else {
      MergePositive(items[..|items| - 1]);
      AddItemPositive(Merge(items[..|items| - 1]), items[|items| - 1]);
    }
  }

  lemma AddItemPositive(merged: seq<Item>, item: Item)
    requires AllPositive(merged) && item.amount > 0
    ensures AllPositive(AddItem(merged, item)) && AddItem(merged, item) != []
  {
    hide Find;
  }

  // ---- comparing payloads ----

  /** `itemsMatch`: as many rows, and every merged item found with the same amount. */
  predicate ItemsMatch(existing: seq<Item>, merged: seq<Item>) {
    && |existing| == |merged|
    && forall i :: 0 <= i < |merged| ==>
         var f := Find(existing, merged[i].key);
         f.Some? && existing[f.value].amount == merged[i].amount
  }

  ghost predicate SameSums(a: seq<Item>, b: seq<Item>) {
    forall k :: SumFor(a, k) == SumFor(b, k)
  }

  /** In a list of distinct selections a sum is the looked-up amount. */
  lemma {:induction false} SumIsLookup(items: seq<Item>, k: Key)
    requires Distinct(items)
    ensures SumFor(items, k) == match Find(items, k) case None => 0 case Some(i) => items[i].amount
  {
    if items != [] {
      SumIsLookup(items[..|items| - 1], k);
    }
  }

  function Keys(items: seq<Item>): set<Key> {
    set i | 0 <= i < |items| :: items[i].key
  }

  lemma {:induction false} DistinctKeyCount(items: seq<Item>)
    requires Distinct(items)
    ensures |Keys(items)| == |items|
  {
    if items != [] {
      var front, last := items[..|items| - 1], items[|items| - 1];
      DistinctKeyCount(front);
      assert Keys(items) == Keys(front) + {last.key};
    }
  }

  lemma SubsetSameSize<T>(a: set<T>, b: set<T>)
    requires a <= b && |a| == |b|
    ensures a == b
  {
    if a != b {
      var x :| x in b && x !in a;
      SubsetSize(a + {x}, b);
    }
  }

  /** Two lists of distinct positive selections match exactly when they stake the same on every selection. */
  lemma MatchMeansSameSums(existing: seq<Item>, merged: seq<Item>)
    requires Distinct(existing) && Distinct(merged) && AllPositive(existing) && AllPositive(merged)
    ensures ItemsMatch(existing, merged) <==> SameSums(existing, merged)
  {
    DistinctKeyCount(existing);
    DistinctKeyCount(merged);
    forall k ensures SumFor(existing, k) == (match Find(existing, k) case None => 0 case Some(i) => existing[i].amount)
      ensures SumFor(merged, k) == (match Find(merged, k) case None => 0 case Some(i) => merged[i].amount)
    {
      SumIsLookup(existing, k);
      SumIsLookup(merged, k);
    }
    if ItemsMatch(existing, merged) {
      forall k | k in Keys(merged) ensures k in Keys(existing) {
        assert Find(existing, k).Some?;
      }
      SubsetSameSize(Keys(merged), Keys(existing));
      forall k ensures SumFor(existing, k) == SumFor(merged, k) {
        assert k in Keys(merged) <==> Find(merged, k).Some?;
        assert k in Keys(existing) <==> Find(existing, k).Some?;
      }
    }
    if SameSums(existing, merged) {
      forall k ensures k in Keys(existing) <==> k in Keys(merged) {
        assert SumFor(existing, k) == SumFor(merged, k);
      }
      assert Keys(existing) == Keys(merged);
      forall i | 0 <= i < |merged|
        ensures var f := Find(existing, merged[i].key); f.Some? && existing[f.value].amount == merged[i].amount
      {
        assert SumFor(existing, merged[i].key) == SumFor(merged, merged[i].key);
      }
    }
  }

  /**
   * Requests are the same bet exactly when they stake the same total on every selection, however
   * each was ordered or split.
   */
  lemma PayloadEquivalence(a: seq<Item>, b: seq<Item>)
    requires AllPositive(a) && AllPositive(b)
    ensures ItemsMatch(Merge(a), Merge(b)) <==> SameSums(a, b)
  {
    forall k ensures SumFor(Merge(a), k) == SumFor(a, k) && SumFor(Merge(b), k) == SumFor(b, k) {
      MergeSums(a, k);
      MergeSums(b, k);
    }
    MergeSums(a, Key(Singles, 0));
    MergeSums(b, Key(Singles, 0));
    MergePositive(a);
    MergePositive(b);
    MatchMeansSameSums(Merge(a), Merge(b));
  }

  lemma {:induction false} TotalWithout(items: seq<Item>, i: nat)
    requires i < |items|
    ensures Total(items) == Total(items[..i] + items[i + 1..]) + items[i].amount
  {
    var last := |items| - 1;
    var rest := items[..i] + items[i + 1..];
    if i == last {
      assert rest == items[..last];
    } else {
      TotalWithout(items[..last], i);
      assert rest[..last - 1] == items[..last][..i] + items[..last][i + 1..];
    }
  }

  /** Matching items already have equal totals, so comparing the totals as well is redundant. */
  lemma {:induction false} MatchImpliesTotal(existing: seq<Item>, merged: seq<Item>)
    requires Distinct(existing) && Distinct(merged) && ItemsMatch(existing, merged)
    ensures Total(existing) == Total(merged)
  {
    if merged != [] {
      var front, x := merged[..|merged| - 1], merged[|merged| - 1];
      var j := Find(existing, x.key).value;
      var rest := existing[..j] + existing[j + 1..];
      TotalWithout(existing, j);
      forall i | 0 <= i < |front|
        ensures var f := Find(rest, front[i].key); f.Some? && rest[f.value].amount == front[i].amount
      {
        var f := Find(existing, merged[i].key).value;
        assert existing[f] == merged[i] && f != j;
        assert rest[if f < j then f else f - 1] == merged[i];
      }
      MatchImpliesTotal(rest, front);
    }
  }
}
