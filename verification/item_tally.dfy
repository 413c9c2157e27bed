/**
 * The counting pass of the item checker over a collections document. Every
 * item of every collection whose own `items` is an array is validated; the
 * pass counts items, valid items and the diagnostics of invalid ones, per
 * tag as well as in total. A TypeError anywhere in the pass (a null
 * collection or item, a shadowed `hasOwnProperty`, a per-type report calling
 * `join` on a non-array) abandons it for the catch block, so no summary is
 * produced.
 */
module ItemTally {
  import opened Prelude
  import opened Json
  import opened Diagnostics
  import opened Collections
  import opened ItemValidation

  /** The counters the pass reports in its summary. */
  datatype ItemSummary = ItemSummary(
    totalCollections: nat,
    totalItems: nat,
    validItems: nat,
    totalErrors: nat,
    itemsByType: map<string, nat>,
    validItemsByType: map<string, nat>)

  function Start(totalCollections: nat): ItemSummary {
    ItemSummary(totalCollections, 0, 0, 0, map[], map[])
  }

  /** `counts[key] || 0` */
  function CountOf(counts: map<string, nat>, key: string): nat {
    if key in counts then counts[key] else 0
  }

  /** `counts[key] = (counts[key] || 0) + 1` */
  function Bump(counts: map<string, nat>, key: string): map<string, nat> {
    counts[key := CountOf(counts, key) + 1]
  }

  /** `item.type || "unknown"` */
  function ItemType(item: Json): Json {
    match Lookup(item, "type")
    case Some(t) => if Truthy(t) then t else JStr("unknown")
    case None => JStr("unknown")
  }

  /** The counter key of an item: its tag converted to a property key. */
  function TypeKey(item: Json): string {
    ToString(ItemType(item))
  }

  /** `x?.join(", ")` throws unless `x` is missing, null or an array. */
  predicate JoinThrows(x: Option<Json>) {
    x.Some? && !x.value.JNull? && !x.value.JArr?
  }

  /**
   * The per-type report printed after an item is counted throws: for a
   * dataset with a truthy `datasetsServerInfo` whose `libraries`, `formats`
   * or `modalities` is not an array, and for a space whose `tags` is not one.
   */
  predicate ReportThrows(item: Json) {
    var tag := ItemType(item);
    if tag == JStr("dataset") then
      match Lookup(item, "datasetsServerInfo")
      case Some(info) =>
        && Truthy(info)
        && (|| JoinThrows(Lookup(info, "libraries"))
            || JoinThrows(Lookup(info, "formats"))
            || JoinThrows(Lookup(info, "modalities")))
      case None => false
    else if tag == JStr("space") then JoinThrows(Lookup(item, "tags"))
    else false
  }

  /** The counter key of an item is its tag when that is a non-empty string, and `unknown` when the tag is missing or falsy. */
  lemma TypeKeyCases(item: Json)
    ensures forall s :: Lookup(item, "type") == Some(JStr(s)) && s != "" ==> TypeKey(item) == s
    ensures Lookup(item, "type").None? || !Truthy(Lookup(item, "type").value) ==> TypeKey(item) == "unknown"
  {
  }

  /** Only the report of a dataset or a space can throw. */
  lemma OnlyDatasetsAndSpacesThrow(item: Json)
    ensures ReportThrows(item) ==> ItemType(item) == JStr("dataset") || ItemType(item) == JStr("space")
  {
  }

  /** An item that ends the pass: null (reading `item.type` throws), or one whose report throws. */
  predicate ItemAborts(item: Json) {
    item.JNull? || ReportThrows(item)
  }

  /** The counters once an item with counter key `key` has been seen. */
  function Seen(s: ItemSummary, key: string): ItemSummary {
    s.(totalItems := s.totalItems + 1, itemsByType := Bump(s.itemsByType, key))
  }

  /** The counters once an item with counter key `key` has been judged by `result`. */
  function Judged(s: ItemSummary, key: string, result: ValidationResult): ItemSummary {
    if result.isValid then s.(validItems := s.validItems + 1, validItemsByType := Bump(s.validItemsByType, key))
    else s.(totalErrors := s.totalErrors + |result.errors|)
  }

  /** The counters after one item with counter key `key` and verdict `result`. */
  function Counted(s: ItemSummary, key: string, result: ValidationResult): ItemSummary {
    Judged(Seen(s, key), key, result)
  }

  /** The verdict the pass asks `validateApiCollectionItem` for on an item, without an expected type. */
  function ItemVerdict(item: Json, itemPath: string): ValidationResult {
    ValidateItem(item, itemPath, None)
  }

  /**
   * A validator whose verdict is valid exactly when it carries no diagnostic,
   * as `ItemVerdict` is (`ValidIffNoDiagnostics`).
   */
  ghost predicate Decisive(judge: (Json, string) -> ValidationResult) {
    forall item, itemPath :: judge(item, itemPath).isValid <==> judge(item, itemPath).errors == []
  }

  /**
   * One item, judged by `judge`: counted as seen under its tag, then as valid
   * or by its diagnostics. A null item or a throwing report ends the pass.
   */
  function CountItem(s: ItemSummary, item: Json, itemPath: string, judge: (Json, string) -> ValidationResult)
    : Result<ItemSummary, Fault>
  {
    if item.JNull? || ReportThrows(item) then Err(OtherError)
    else Ok(Counted(s, TypeKey(item), judge(item, itemPath)))
  }

  /** The items of collection `collectionIndex`, counted in order from `s`. */
  function CountItems(s: ItemSummary, collectionIndex: nat, items: seq<Json>, judge: (Json, string) -> ValidationResult)
    : Result<ItemSummary, Fault>
    decreases |items|
  {
    if items == [] then Ok(s)
    else
      match CountItems(s, collectionIndex, items[..|items| - 1], judge)
      case Err(f) => Err(f)
      case Ok(s') => CountItem(s', items[|items| - 1], ItemLabel(collectionIndex, |items| - 1), judge)
  }

  /** The collections `cs`, counted in order from `s`. */
  function CountCollections(s: ItemSummary, cs: seq<Json>, judge: (Json, string) -> ValidationResult)
    : Result<ItemSummary, Fault>
    decreases |cs|
  {
    if cs == [] then Ok(s)
    else
      match CountCollections(s, cs[..|cs| - 1], judge)
      case Err(f) => Err(f)
      case Ok(s') =>
        match OwnItems(cs[|cs| - 1])
        case Err(f) => Err(f)
        case Ok(items) => CountItems(s', |cs| - 1, items, judge)
  }

  /**
   * The outcome of the pass on the parsed document (or on the fault reading
   * or parsing it): `collections.forEach` throws unless the document is an array.
   */
  function Tally(doc: Result<Json, Fault>): Result<ItemSummary, Fault> {
    match doc
    case Err(f) => Err(f)
    case Ok(JArr(cs)) => CountCollections(Start(|cs|), cs, ItemVerdict)
    case Ok(_) => Err(OtherError)
  }

  /** The counting loops of the item checker. */
  method ValidateCollectionsItems(doc: Result<Json, Fault>) returns (outcome: Result<ItemSummary, Fault>)
    ensures outcome == Tally(doc)
  {
    if doc.Err? {
      return Err(doc.error);
    }
    if !doc.value.JArr? {
      return Err(OtherError);
    }
    var collections := doc.value.elems;
    outcome := VisitCollections(collections);
  }

  /** The `forEach` over the collections, counting from a summary of `collections.length` collections. */
  method VisitCollections(collections: seq<Json>) returns (outcome: Result<ItemSummary, Fault>)
    ensures outcome == CountCollections(Start(|collections|), collections, ItemVerdict)
  {
    var start := Start(|collections|);
    var counters := start;
    var ci := 0;
    while ci < |collections|
      invariant 0 <= ci <= |collections|
      invariant CountCollections(start, collections[..ci], ItemVerdict) == Ok(counters)
    {
      assert collections[..ci + 1][..ci] == collections[..ci];
      var owned := OwnItems(collections[ci]);
      if owned.Err? {
        CollectionFaultPersists(start, collections, ci + 1, ItemVerdict, owned.error);
        return Err(owned.error);
      }
      var visited := VisitItems(counters, ci, owned.value);
      if visited.Err? {
        CollectionFaultPersists(start, collections, ci + 1, ItemVerdict, visited.error);
        return Err(visited.error);
      }
      counters := visited.value;
      ci := ci + 1;
    }
    assert collections[..ci] == collections;
    outcome := Ok(counters);
  }

  /** The inner `forEach` over the items of collection `collectionIndex`. */
  method VisitItems(counters: ItemSummary, collectionIndex: nat, items: seq<Json>) returns (outcome: Result<ItemSummary, Fault>)
    ensures outcome == CountItems(counters, collectionIndex, items, ItemVerdict)
  {
    var current := counters;
    var ii := 0;
    while ii < |items|
      invariant 0 <= ii <= |items|
      invariant CountItems(counters, collectionIndex, items[..ii], ItemVerdict) == Ok(current)
    {
      assert items[..ii + 1][..ii] == items[..ii];
      var visited := VisitItem(current, items[ii], ItemLabel(collectionIndex, ii));
      if visited.Err? {
        ItemFaultPersists(counters, collectionIndex, items, ii + 1, ItemVerdict, visited.error);
        return Err(visited.error);
      }
      current := visited.value;
      ii := ii + 1;
    }
    assert items[..ii] == items;
    outcome := Ok(current);
  }

  /** The `forEach` callback for one item, on the counters it updates. */
  method VisitItem(counters: ItemSummary, item: Json, itemPath: string)
    returns (outcome: Result<ItemSummary, Fault>)
    ensures outcome == CountItem(counters, item, itemPath, ItemVerdict)
  {
    if item.JNull? {
      return Err(OtherError);
    }
    var itemType := TypeKey(item);
    var seen := SeeItem(counters, itemType);
    var itemValidation := ValidateApiCollectionItem(item, itemPath, None);
    var after := RecordVerdict(seen, itemType, itemValidation);
    outcome := ReportItem(item, after);
    CountItemVerdict(counters, item, itemPath, itemValidation);
  }

  /** The first step of the callback: one more item, and one more of its type. */
  method SeeItem(counters: ItemSummary, itemType: string) returns (seen: ItemSummary)
    ensures seen == Seen(counters, itemType)
  {
    seen := counters.(totalItems := counters.totalItems + 1);
    seen := seen.(itemsByType := seen.itemsByType[itemType := CountOf(seen.itemsByType, itemType) + 1]);
  }

  /** The verdict branch of the callback: a valid item, or one error counted per diagnostic. */
  method RecordVerdict(counters: ItemSummary, itemType: string, itemValidation: ValidationResult)
    returns (after: ItemSummary)
    ensures after == Judged(counters, itemType, itemValidation)
  {
    after := counters;
    if itemValidation.isValid {
      after := after.(validItems := after.validItems + 1);
      after := after.(validItemsByType := after.validItemsByType[itemType := CountOf(after.validItemsByType, itemType) + 1]);
    } else {
      var k := 0;
      while k < |itemValidation.errors|
        invariant 0 <= k <= |itemValidation.errors|
        invariant after == counters.(totalErrors := counters.totalErrors + k)
      {
        after := after.(totalErrors := after.totalErrors + 1);
        k := k + 1;
      }
    }
  }

  /** The report the callback prints for an item, which ends the pass when it throws. */
  method ReportItem(item: Json, after: ItemSummary) returns (outcome: Result<ItemSummary, Fault>)
    ensures outcome.Err? <==> ReportThrows(item)
    ensures outcome.Err? ==> outcome.error == OtherError
    ensures outcome.Ok? ==> outcome.value == after
  {
    if ReportThrows(item) {
      outcome := Err(OtherError);
    } else {
      outcome := Ok(after);
    }
  }

  /** `CountItem` on an already computed verdict. */
  lemma CountItemVerdict(s: ItemSummary, item: Json, itemPath: string, result: ValidationResult)
    requires result == ValidateItem(item, itemPath, None)
    ensures CountItem(s, item, itemPath, ItemVerdict)
            == if item.JNull? || ReportThrows(item) then Err(OtherError) else Ok(Counted(s, TypeKey(item), result))
  {
  }

  /** Once the items up to `n` end the pass, all of them do. */
  lemma {:induction false} ItemFaultPersists(s: ItemSummary, collectionIndex: nat, items: seq<Json>, n: nat,
                                              judge: (Json, string) -> ValidationResult, f: Fault)
    requires n <= |items| && CountItems(s, collectionIndex, items[..n], judge) == Err(f)
    ensures CountItems(s, collectionIndex, items, judge) == Err(f)
    decreases |items| - n
  {
    if n < |items| {
      assert items[..n + 1][..n] == items[..n];
      ItemFaultPersists(s, collectionIndex, items, n + 1, judge, f);
    } else {
      assert items[..n] == items;
    }
  }

  /** Once the collections up to `n` end the pass, all of them do. */
  lemma {:induction false} CollectionFaultPersists(s: ItemSummary, cs: seq<Json>, n: nat,
                                                    judge: (Json, string) -> ValidationResult, f: Fault)
    requires n <= |cs| && CountCollections(s, cs[..n], judge) == Err(f)
    ensures CountCollections(s, cs, judge) == Err(f)
    decreases |cs| - n
  {
    if n < |cs| {
      assert cs[..n + 1][..n] == cs[..n];
      CollectionFaultPersists(s, cs, n + 1, judge, f);
    } else {
      assert cs[..n] == cs;
    }
  }

  /**
   * What every summary satisfies: valid items are among the items, in total
   * and per tag, and errors are counted exactly when some item was invalid.
   */
  predicate Consistent(s: ItemSummary) {
    && s.validItems <= s.totalItems
    && (s.totalErrors == 0 <==> s.validItems == s.totalItems)
    && (forall key :: key in s.validItemsByType ==>
          key in s.itemsByType && s.validItemsByType[key] <= s.itemsByType[key])
  }

  /** Counting one item keeps the counters consistent, given that only invalid verdicts carry diagnostics. */
  lemma CountedKeepsConsistent(s: ItemSummary, key: string, result: ValidationResult)
    requires result.isValid <==> result.errors == []
    ensures Consistent(s) ==> Consistent(Counted(s, key, result))
    ensures Counted(s, key, result).totalItems == s.totalItems + 1
    ensures Counted(s, key, result).totalCollections == s.totalCollections
  {
  }

  /** An item the pass judges, with the path it names it by. */
  datatype Visit = Visit(item: Json, itemPath: string)

  /** The items of collection `collectionIndex`, each with its path. */
  function Labelled(collectionIndex: nat, items: seq<Json>): (r: seq<Visit>)
    ensures |r| == |items|
  {
    if items == [] then []
    else
      var n := |items| - 1;
      Labelled(collectionIndex, items[..n]) + [Visit(items[n], ItemLabel(collectionIndex, n))]
  }

  /** Extending the items by one extends their visits by one. */
  lemma LabelledSnoc(vs: seq<Visit>, collectionIndex: nat, items: seq<Json>)
    requires items != []
    ensures var n := |items| - 1;
            vs + Labelled(collectionIndex, items)
            == (vs + Labelled(collectionIndex, items[..n])) + [Visit(items[n], ItemLabel(collectionIndex, n))]
  {
    var n := |items| - 1;
    var v := Visit(items[n], ItemLabel(collectionIndex, n));
    AppendAssoc(vs, Labelled(collectionIndex, items[..n]), [v]);
  }

  /** Every item the pass judges, in order: the own `items` arrays of the collections. */
  function Visits(cs: seq<Json>): seq<Visit> {
    if cs == [] then []
    else
      Visits(cs[..|cs| - 1])
      + match OwnItems(cs[|cs| - 1]) case Ok(items) => Labelled(|cs| - 1, items) case Err(_) => []
  }

  /** The number of visits `judge` finds valid. */
  function ValidCount(vs: seq<Visit>, judge: (Json, string) -> ValidationResult): nat {
    if vs == [] then 0
    else
      var v := vs[|vs| - 1];
      ValidCount(vs[..|vs| - 1], judge) + if judge(v.item, v.itemPath).isValid then 1 else 0
  }

  /** The diagnostics of the visits `judge` finds invalid, in total. */
  function ErrorCount(vs: seq<Visit>, judge: (Json, string) -> ValidationResult): nat {
    if vs == [] then 0
    else
      var v := vs[|vs| - 1];
      var result := judge(v.item, v.itemPath);
      ErrorCount(vs[..|vs| - 1], judge) + if result.isValid then 0 else |result.errors|
  }

  /** The number of visits whose counter key is `key`. */
  function KeyCount(vs: seq<Visit>, key: string): nat {
    if vs == [] then 0
    else KeyCount(vs[..|vs| - 1], key) + if TypeKey(vs[|vs| - 1].item) == key then 1 else 0
  }

  /** The number of visits whose counter key is `key` and that `judge` finds valid. */
  function ValidKeyCount(vs: seq<Visit>, key: string, judge: (Json, string) -> ValidationResult): nat {
    if vs == [] then 0
    else
      var v := vs[|vs| - 1];
      ValidKeyCount(vs[..|vs| - 1], key, judge) + if TypeKey(v.item) == key && judge(v.item, v.itemPath).isValid then 1 else 0
  }

  /**
   * Counters `s` are counters `s0` plus the visits `vs`: one item each, one
   * valid item per valid visit, the diagnostics of each invalid visit, and
   * per counter key the same; a key has an entry once it has a count.
   */
  ghost predicate Accounts(s0: ItemSummary, s: ItemSummary, vs: seq<Visit>, judge: (Json, string) -> ValidationResult) {
    && s.totalCollections == s0.totalCollections
    && s.totalItems == s0.totalItems + |vs|
    && s.validItems == s0.validItems + ValidCount(vs, judge)
    && s.totalErrors == s0.totalErrors + ErrorCount(vs, judge)
    && (forall key :: CountOf(s.itemsByType, key) == CountOf(s0.itemsByType, key) + KeyCount(vs, key))
    && (forall key :: key in s.itemsByType <==> key in s0.itemsByType || KeyCount(vs, key) > 0)
    && (forall key :: CountOf(s.validItemsByType, key) == CountOf(s0.validItemsByType, key) + ValidKeyCount(vs, key, judge))
    && (forall key :: key in s.validItemsByType <==> key in s0.validItemsByType || ValidKeyCount(vs, key, judge) > 0)
  }

  /** Counting one more visit accounts for it. */
  lemma CountedAccounts(s0: ItemSummary, s: ItemSummary, vs: seq<Visit>, v: Visit, judge: (Json, string) -> ValidationResult)
    requires Accounts(s0, s, vs, judge)
    ensures Accounts(s0, Counted(s, TypeKey(v.item), judge(v.item, v.itemPath)), vs + [v], judge)
  {
    var w := vs + [v];
    var key := TypeKey(v.item);
    var result := judge(v.item, v.itemPath);
    var s' := Counted(s, key, result);
    assert w[..|vs|] == vs && w[|w| - 1] == v;
    assert ValidCount(w, judge) == ValidCount(vs, judge) + if result.isValid then 1 else 0;
    assert ErrorCount(w, judge) == ErrorCount(vs, judge) + if result.isValid then 0 else |result.errors|;
    forall k
      ensures CountOf(s'.itemsByType, k) == CountOf(s0.itemsByType, k) + KeyCount(w, k)
      ensures k in s'.itemsByType <==> k in s0.itemsByType || KeyCount(w, k) > 0
    {
      assert KeyCount(w, k) == KeyCount(vs, k) + if key == k then 1 else 0;
    }
    CountedAccountsByKey(s0, s, vs, v, judge);
  }

  /** The valid-per-key part of `CountedAccounts`. */
  lemma CountedAccountsByKey(s0: ItemSummary, s: ItemSummary, vs: seq<Visit>, v: Visit, judge: (Json, string) -> ValidationResult)
    requires forall k :: CountOf(s.validItemsByType, k) == CountOf(s0.validItemsByType, k) + ValidKeyCount(vs, k, judge)
    requires forall k :: k in s.validItemsByType <==> k in s0.validItemsByType || ValidKeyCount(vs, k, judge) > 0
    ensures var s' := Counted(s, TypeKey(v.item), judge(v.item, v.itemPath));
            && (forall k :: CountOf(s'.validItemsByType, k) == CountOf(s0.validItemsByType, k) + ValidKeyCount(vs + [v], k, judge))
            && (forall k :: k in s'.validItemsByType <==> k in s0.validItemsByType || ValidKeyCount(vs + [v], k, judge) > 0)
  {
    var w := vs + [v];
    var key := TypeKey(v.item);
    var result := judge(v.item, v.itemPath);
    assert w[..|vs|] == vs && w[|w| - 1] == v;
    forall k
      ensures ValidKeyCount(w, k, judge) == ValidKeyCount(vs, k, judge) + if key == k && result.isValid then 1 else 0
    {
    }
  }



  /** A collection that ends the pass: its `hasOwnProperty` throws, or one of its visited items aborts. */
  predicate CollectionAborts(c: Json) {
    match OwnItems(c)
    case Err(_) => true
    case Ok(items) => exists item :: item in items && ItemAborts(item)
  }

  /**
   * Counting the items of a collection fails exactly when one of them
   * aborts, always as OtherError; otherwise consistency is kept. What each
   * counter then holds is `CountItemsAccounts`.
   */
  lemma {:induction false} CountItemsOutcome(s: ItemSummary, collectionIndex: nat, items: seq<Json>,
                                              judge: (Json, string) -> ValidationResult)
    requires Decisive(judge)
    ensures CountItems(s, collectionIndex, items, judge).Err? <==> exists item :: item in items && ItemAborts(item)
    ensures CountItems(s, collectionIndex, items, judge).Err? ==> CountItems(s, collectionIndex, items, judge) == Err(OtherError)
    ensures CountItems(s, collectionIndex, items, judge).Ok? && Consistent(s) ==>
              Consistent(CountItems(s, collectionIndex, items, judge).value)
    decreases |items|
  {
    if items != [] {
      var n := |items| - 1;
      var last := items[n];
      assert items == items[..n] + [last];
      CountItemsOutcome(s, collectionIndex, items[..n], judge);
      var before := CountItems(s, collectionIndex, items[..n], judge);
      if before.Ok? {
        var itemPath := ItemLabel(collectionIndex, n);
        assert CountItems(s, collectionIndex, items, judge) == CountItem(before.value, last, itemPath, judge);
        if ItemAborts(last) {
          assert last in items;
        }
        CountedKeepsConsistent(before.value, TypeKey(last), judge(last, itemPath));
      }
    }
  }

  /** Where counting the items of a collection succeeds, it accounts for each of them as a visit with its path. */
  lemma {:induction false} CountItemsAccounts(s: ItemSummary, collectionIndex: nat, items: seq<Json>,
                                               judge: (Json, string) -> ValidationResult, s0: ItemSummary, vs: seq<Visit>)
    requires Accounts(s0, s, vs, judge)
    ensures CountItems(s, collectionIndex, items, judge).Ok? ==>
              Accounts(s0, CountItems(s, collectionIndex, items, judge).value, vs + Labelled(collectionIndex, items), judge)
    decreases |items|
  {
    if items == [] {
      assert vs + Labelled(collectionIndex, items) == vs;
    } else {
      var n := |items| - 1;
      var last := items[n];
      CountItemsAccounts(s, collectionIndex, items[..n], judge, s0, vs);
      var before := CountItems(s, collectionIndex, items[..n], judge);
      if before.Ok? {
        var v := Visit(last, ItemLabel(collectionIndex, n));
        assert CountItems(s, collectionIndex, items, judge) == CountItem(before.value, last, v.itemPath, judge);
        LabelledSnoc(vs, collectionIndex, items);
        CountedAccounts(s0, before.value, vs + Labelled(collectionIndex, items[..n]), v, judge);
      }
    }
  }


  /**
   * Counting the collections fails exactly when one of them aborts;
   * otherwise every visit is accounted for.
   */
  lemma {:induction false} CountCollectionsOutcome(s: ItemSummary, cs: seq<Json>, judge: (Json, string) -> ValidationResult)
    requires Decisive(judge)
    ensures CountCollections(s, cs, judge).Err? <==> exists c :: c in cs && CollectionAborts(c)
    ensures CountCollections(s, cs, judge).Err? ==> CountCollections(s, cs, judge) == Err(OtherError)
    ensures CountCollections(s, cs, judge).Ok? ==>
              var s' := CountCollections(s, cs, judge).value;
              && (Consistent(s) ==> Consistent(s'))
              && Accounts(s, s', Visits(cs), judge)
    decreases |cs|
  {
    if cs == [] {
      assert Accounts(s, s, [], judge);
    } else {
      var n := |cs| - 1;
      var last := cs[n];
      assert cs == cs[..n] + [last];
      CountCollectionsOutcome(s, cs[..n], judge);
      var before := CountCollections(s, cs[..n], judge);
      if before.Ok? {
        match OwnItems(last)
        case Err(_) =>
          assert CollectionAborts(last) && last in cs;
        case Ok(items) =>
          assert CountCollections(s, cs, judge) == CountItems(before.value, n, items, judge);
          assert Visits(cs) == Visits(cs[..n]) + Labelled(n, items);
          CountItemsOutcome(before.value, n, items, judge);
          CountItemsAccounts(before.value, n, items, judge, s, Visits(cs[..n]));
          if CollectionAborts(last) {
            assert last in cs;
          }
      }
    }
  }

  /** The item validator reports diagnostics exactly for the items it rejects. */
  lemma ItemVerdictDecisive()
    ensures Decisive(ItemVerdict)
  {
    forall item, itemPath
      ensures ItemVerdict(item, itemPath).isValid <==> ItemVerdict(item, itemPath).errors == []
    {
      ValidIffNoDiagnostics(item, itemPath, None);
    }
  }

  /**
   * The outcome of the pass on a parsed array of collections: a fault exactly
   * when some collection aborts; otherwise a summary that counts every
   * collection, every visited item, the valid ones and the diagnostics of
   * the invalid ones, in total and per counter key.
   */
  lemma {:induction false} TallyOutcome(cs: seq<Json>)
    ensures Tally(Ok(JArr(cs))).Err? <==> exists c :: c in cs && CollectionAborts(c)
    ensures Tally(Ok(JArr(cs))).Err? ==> Tally(Ok(JArr(cs))) == Err(OtherError)
    ensures Tally(Ok(JArr(cs))).Ok? ==>
              var summary := Tally(Ok(JArr(cs))).value;
              && summary.totalCollections == |cs|
              && summary.totalItems == |Visits(cs)|
              && summary.validItems == ValidCount(Visits(cs), ItemVerdict)
              && summary.totalErrors == ErrorCount(Visits(cs), ItemVerdict)
              && (forall key :: key in summary.itemsByType <==> KeyCount(Visits(cs), key) > 0)
              && (forall key :: key in summary.itemsByType ==> summary.itemsByType[key] == KeyCount(Visits(cs), key))
              && (forall key :: key in summary.validItemsByType <==> ValidKeyCount(Visits(cs), key, ItemVerdict) > 0)
              && (forall key :: key in summary.validItemsByType ==>
                    summary.validItemsByType[key] == ValidKeyCount(Visits(cs), key, ItemVerdict))
              && Consistent(summary)
  {
    var start := Start(|cs|);
    assert Consistent(start);
    assert Tally(Ok(JArr(cs))) == CountCollections(start, cs, ItemVerdict);
    ItemVerdictDecisive();
    CountCollectionsOutcome(start, cs, ItemVerdict);
  }
}
