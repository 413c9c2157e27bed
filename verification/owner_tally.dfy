/**
 * The counting pass of the owner checker over a collections document: each
 * collection's own `owner` and each visited item's own `authorData` are
 * validated as owner descriptors; the pass counts valid ones and the
 * diagnostics of invalid ones, then counts, in two further passes over the
 * document, the collections with an owner and the items with `authorData`.
 * A TypeError (a null collection or item, a shadowed `hasOwnProperty`)
 * abandons the pass for the catch block.
 */
module OwnerTally {
  import opened Prelude
  import opened Json
  import opened Diagnostics
  import opened Collections
  import opened OwnerValidation

  /** The counters the checking loop updates. */
  datatype OwnerCounters = OwnerCounters(validOwners: nat, validAuthorData: nat, totalErrors: nat)

  /** The numbers the pass reports in its summary. */
  datatype OwnerSummary = OwnerSummary(
    totalCollections: nat,
    collectionsWithOwner: nat,
    itemsWithAuthorData: nat,
    validOwners: nat,
    validAuthorData: nat,
    totalErrors: nat)

  /** What a validated descriptor was found as: a collection's owner or an item's `authorData`. */
  datatype Subject = Owner | AuthorData

  /** The counters once a descriptor has been judged by `result`. */
  function Judged(k: OwnerCounters, subject: Subject, result: ValidationResult): OwnerCounters {
    if !result.isValid then k.(totalErrors := k.totalErrors + |result.errors|)
    else if subject == Owner then k.(validOwners := k.validOwners + 1)
    else k.(validAuthorData := k.validAuthorData + 1)
  }

  function OwnerPath(index: nat): string {
    "collections[" + NatToString(index) + "].owner"
  }

  function AuthorDataPath(index: nat, itemIndex: nat): string {
    ItemLabel(index, itemIndex) + ".authorData"
  }

  /** One item: its own `authorData`, if any, is validated. Err when `hasOwnProperty` throws. */
  function CheckItem(k: OwnerCounters, item: Json, index: nat, itemIndex: nat): Result<OwnerCounters, Fault> {
    match HasOwnProperty(item, "authorData")
    case None => Err(OtherError)
    case Some(has) =>
      if has then Ok(Judged(k, AuthorData, ValidateOwner(Lookup(item, "authorData").value, AuthorDataPath(index, itemIndex))))
      else Ok(k)
  }

  /** The items of collection `index`, checked in order from `k`. */
  function CheckItems(k: OwnerCounters, index: nat, items: seq<Json>): Result<OwnerCounters, Fault>
    decreases |items|
  {
    if items == [] then Ok(k)
    else
      match CheckItems(k, index, items[..|items| - 1])
      case Err(f) => Err(f)
      case Ok(k') => CheckItem(k', items[|items| - 1], index, |items| - 1)
  }

  /**
   * One collection: `hasOwnProperty("owner")` and `hasOwnProperty("items")`
   * are asked first, then the own owner, if any, is validated, then the items.
   */
  function CheckCollection(k: OwnerCounters, c: Json, index: nat): Result<OwnerCounters, Fault> {
    match HasOwnProperty(c, "owner")
    case None => Err(OtherError)
    case Some(hasOwner) =>
      match OwnItems(c)
      case Err(f) => Err(f)
      case Ok(items) =>
        var k' := if hasOwner then Judged(k, Owner, ValidateOwner(Lookup(c, "owner").value, OwnerPath(index))) else k;
        CheckItems(k', index, items)
  }

  /** The collections `cs`, checked in order from `k`. */
  function CheckCollections(k: OwnerCounters, cs: seq<Json>): Result<OwnerCounters, Fault>
    decreases |cs|
  {
    if cs == [] then Ok(k)
    else
      match CheckCollections(k, cs[..|cs| - 1])
      case Err(f) => Err(f)
      case Ok(k') => CheckCollection(k', cs[|cs| - 1], |cs| - 1)
  }

  /** `cs.filter(c => c.hasOwnProperty("owner")).length` */
  function CollectionsWithOwner(cs: seq<Json>): Result<nat, Fault>
    decreases |cs|
  {
    if cs == [] then Ok(0)
    else
      match CollectionsWithOwner(cs[..|cs| - 1])
      case Err(f) => Err(f)
      case Ok(n) =>
        match HasOwnProperty(cs[|cs| - 1], "owner")
        case None => Err(OtherError)
        case Some(has) => Ok(if has then n + 1 else n)
  }

  /** `items.filter(item => item.hasOwnProperty("authorData")).length` */
  function WithAuthorData(items: seq<Json>): Result<nat, Fault>
    decreases |items|
  {
    if items == [] then Ok(0)
    else
      match WithAuthorData(items[..|items| - 1])
      case Err(f) => Err(f)
      case Ok(n) =>
        match HasOwnProperty(items[|items| - 1], "authorData")
        case None => Err(OtherError)
        case Some(has) => Ok(if has then n + 1 else n)
  }

  /**
   * What the `reduce` callback adds for one collection: the items with
   * `authorData` when `collection.items` is truthy and an array, otherwise
   * nothing; reading `items` of null throws.
   */
  function AuthorDataContribution(c: Json): Result<nat, Fault> {
    if c.JNull? then Err(OtherError)
    else
      match Lookup(c, "items")
      case Some(x) => if Truthy(x) && x.JArr? then WithAuthorData(x.elems) else Ok(0)
      case None => Ok(0)
  }

  /** The `reduce` that counts the items with `authorData`, from 0. */
  function ItemsWithAuthorData(cs: seq<Json>): Result<nat, Fault>
    decreases |cs|
  {
    if cs == [] then Ok(0)
    else
      match ItemsWithAuthorData(cs[..|cs| - 1])
      case Err(f) => Err(f)
      case Ok(count) =>
        match AuthorDataContribution(cs[|cs| - 1])
        case Err(f) => Err(f)
        case Ok(n) => Ok(count + n)
  }

  /**
   * The outcome of the pass on the parsed document (or on the fault reading
   * or parsing it): the checking loop, then the two counts of the summary.
   */
  function Tally(doc: Result<Json, Fault>): Result<OwnerSummary, Fault> {
    match doc
    case Err(f) => Err(f)
    case Ok(JArr(cs)) =>
      (match CheckCollections(OwnerCounters(0, 0, 0), cs)
       case Err(f) => Err(f)
       case Ok(k) =>
         match CollectionsWithOwner(cs)
         case Err(f) => Err(f)
         case Ok(withOwner) =>
           match ItemsWithAuthorData(cs)
           case Err(f) => Err(f)
           case Ok(withAuthorData) =>
             Ok(OwnerSummary(|cs|, withOwner, withAuthorData, k.validOwners, k.validAuthorData, k.totalErrors)))
    case Ok(_) => Err(OtherError)
  }

  /** The checking pass and the summary counts. */
  method ValidateCollectionsOwners(doc: Result<Json, Fault>) returns (outcome: Result<OwnerSummary, Fault>)
    ensures outcome == Tally(doc)
  {
    if doc.Err? {
      return Err(doc.error);
    }
    if !doc.value.JArr? {
      return Err(OtherError);
    }
    var collections := doc.value.elems;
    var checked := VisitCollections(collections);
    if checked.Err? {
      return Err(checked.error);
    }
    var counters := checked.value;
    var withOwner := CountCollectionsWithOwner(collections);
    if withOwner.Err? {
      return Err(withOwner.error);
    }
    var withAuthorData := CountItemsWithAuthorData(collections);
    if withAuthorData.Err? {
      return Err(withAuthorData.error);
    }
    outcome := Ok(OwnerSummary(|collections|, withOwner.value, withAuthorData.value,
                               counters.validOwners, counters.validAuthorData, counters.totalErrors));
  }

  /** The `forEach` over the collections, from zeroed counters. */
  method VisitCollections(collections: seq<Json>) returns (outcome: Result<OwnerCounters, Fault>)
    ensures outcome == CheckCollections(OwnerCounters(0, 0, 0), collections)
  {
    var start := OwnerCounters(0, 0, 0);
    var counters := start;
    var index := 0;
    while index < |collections|
      invariant 0 <= index <= |collections|
      invariant CheckCollections(start, collections[..index]) == Ok(counters)
    {
      assert collections[..index + 1][..index] == collections[..index];
      var visited := VisitCollection(counters, collections[index], index);
      if visited.Err? {
        CollectionFaultPersists(start, collections, index + 1, visited.error);
        return Err(visited.error);
      }
      counters := visited.value;
      index := index + 1;
    }
    assert collections[..index] == collections;
    outcome := Ok(counters);
  }

  /** The `forEach` callback for one collection. */
  method VisitCollection(counters: OwnerCounters, c: Json, index: nat) returns (outcome: Result<OwnerCounters, Fault>)
    ensures outcome == CheckCollection(counters, c, index)
  {
    var hasOwner := HasOwnProperty(c, "owner");
    if hasOwner.None? {
      return Err(OtherError);
    }
    var owned := OwnItems(c);
    if owned.Err? {
      return Err(OtherError);
    }
    var k := counters;
    if hasOwner.value {
      var ownerValidation := ValidateApiCollectionOwner(Lookup(c, "owner").value, OwnerPath(index));
      k := RecordVerdict(k, Owner, ownerValidation);
    }
    outcome := VisitItems(k, index, owned.value);
  }

  /** The inner `forEach` over the items of collection `index`. */
  method VisitItems(counters: OwnerCounters, index: nat, items: seq<Json>) returns (outcome: Result<OwnerCounters, Fault>)
    ensures outcome == CheckItems(counters, index, items)
  {
    var k := counters;
    var itemIndex := 0;
    while itemIndex < |items|
      invariant 0 <= itemIndex <= |items|
      invariant CheckItems(counters, index, items[..itemIndex]) == Ok(k)
    {
      assert items[..itemIndex + 1][..itemIndex] == items[..itemIndex];
      var visited := VisitItem(k, items[itemIndex], index, itemIndex);
      if visited.Err? {
        ItemFaultPersists(counters, index, items, itemIndex + 1, visited.error);
        return Err(visited.error);
      }
      k := visited.value;
      itemIndex := itemIndex + 1;
    }
    assert items[..itemIndex] == items;
    outcome := Ok(k);
  }

  /** The inner `forEach` callback for one item. */
  method VisitItem(counters: OwnerCounters, item: Json, index: nat, itemIndex: nat)
    returns (outcome: Result<OwnerCounters, Fault>)
    ensures outcome == CheckItem(counters, item, index, itemIndex)
  {
    var has := HasOwnProperty(item, "authorData");
    if has.None? {
      return Err(OtherError);
    }
    if !has.value {
      return Ok(counters);
    }
    var authorDataValidation := ValidateApiCollectionOwner(Lookup(item, "authorData").value, AuthorDataPath(index, itemIndex));
    var k := RecordVerdict(counters, AuthorData, authorDataValidation);
    outcome := Ok(k);
  }

  /** The verdict branch: a valid descriptor, or one error counted per diagnostic. */
  method RecordVerdict(counters: OwnerCounters, subject: Subject, validation: ValidationResult)
    returns (k: OwnerCounters)
    ensures k == Judged(counters, subject, validation)
  {
    k := counters;
    if validation.isValid {
      if subject == Owner {
        k := k.(validOwners := k.validOwners + 1);
      } else {
        k := k.(validAuthorData := k.validAuthorData + 1);
      }
    } else {
      var i := 0;
      while i < |validation.errors|
        invariant 0 <= i <= |validation.errors|
        invariant k == counters.(totalErrors := counters.totalErrors + i)
      {
        k := k.(totalErrors := k.totalErrors + 1);
        i := i + 1;
      }
    }
  }

  /** The `filter` for the collections with an owner. */
  method CountCollectionsWithOwner(cs: seq<Json>) returns (outcome: Result<nat, Fault>)
    ensures outcome == CollectionsWithOwner(cs)
  {
    var count := 0;
    var i := 0;
    while i < |cs|
      invariant 0 <= i <= |cs|
      invariant CollectionsWithOwner(cs[..i]) == Ok(count)
    {
      assert cs[..i + 1][..i] == cs[..i];
      var has := HasOwnProperty(cs[i], "owner");
      if has.None? {
        CountFaultPersists(cs, i + 1, OtherError);
        return Err(OtherError);
      }
      if has.value {
        count := count + 1;
      }
      i := i + 1;
    }
    assert cs[..i] == cs;
    outcome := Ok(count);
  }

  /** The `reduce` for the items with `authorData`. */
  method CountItemsWithAuthorData(cs: seq<Json>) returns (outcome: Result<nat, Fault>)
    ensures outcome == ItemsWithAuthorData(cs)
  {
    var count := 0;
    var i := 0;
    while i < |cs|
      invariant 0 <= i <= |cs|
      invariant ItemsWithAuthorData(cs[..i]) == Ok(count)
    {
      assert cs[..i + 1][..i] == cs[..i];
      var c := cs[i];
      if c.JNull? {
        ReduceFaultPersists(cs, i + 1, OtherError);
        return Err(OtherError);
      }
      var x := Lookup(c, "items");
      if x.Some? && Truthy(x.value) && x.value.JArr? {
        var filtered := CountWithAuthorData(x.value.elems);
        if filtered.Err? {
          ReduceFaultPersists(cs, i + 1, filtered.error);
          return Err(filtered.error);
        }
        count := count + filtered.value;
      }
      i := i + 1;
    }
    assert cs[..i] == cs;
    outcome := Ok(count);
  }

  /** The inner `filter` of the reduce, for the items with `authorData`. */
  method CountWithAuthorData(items: seq<Json>) returns (outcome: Result<nat, Fault>)
    ensures outcome == WithAuthorData(items)
  {
    var n := 0;
    var j := 0;
    while j < |items|
      invariant 0 <= j <= |items|
      invariant WithAuthorData(items[..j]) == Ok(n)
    {
      assert items[..j + 1][..j] == items[..j];
      var has := HasOwnProperty(items[j], "authorData");
      if has.None? {
        FilterFaultPersists(items, j + 1, OtherError);
        return Err(OtherError);
      }
      if has.value {
        n := n + 1;
      }
      j := j + 1;
    }
    assert items[..j] == items;
    outcome := Ok(n);
  }

  /** Once the items up to `n` end the pass, all of them do. */
  lemma {:induction false} ItemFaultPersists(k: OwnerCounters, index: nat, items: seq<Json>, n: nat, f: Fault)
    requires n <= |items| && CheckItems(k, index, items[..n]) == Err(f)
    ensures CheckItems(k, index, items) == Err(f)
    decreases |items| - n
  {
    if n < |items| {
      assert items[..n + 1][..n] == items[..n];
      ItemFaultPersists(k, index, items, n + 1, f);
    } else {
      assert items[..n] == items;
    }
  }

  /** Once the collections up to `n` end the pass, all of them do. */
  lemma {:induction false} CollectionFaultPersists(k: OwnerCounters, cs: seq<Json>, n: nat, f: Fault)
    requires n <= |cs| && CheckCollections(k, cs[..n]) == Err(f)
    ensures CheckCollections(k, cs) == Err(f)
    decreases |cs| - n
  {
    if n < |cs| {
      assert cs[..n + 1][..n] == cs[..n];
      CollectionFaultPersists(k, cs, n + 1, f);
    } else {
      assert cs[..n] == cs;
    }
  }

  lemma {:induction false} CountFaultPersists(cs: seq<Json>, n: nat, f: Fault)
    requires n <= |cs| && CollectionsWithOwner(cs[..n]) == Err(f)
    ensures CollectionsWithOwner(cs) == Err(f)
    decreases |cs| - n
  {
    if n < |cs| {
      assert cs[..n + 1][..n] == cs[..n];
      CountFaultPersists(cs, n + 1, f);
    } else {
      assert cs[..n] == cs;
    }
  }

  lemma {:induction false} FilterFaultPersists(items: seq<Json>, n: nat, f: Fault)
    requires n <= |items| && WithAuthorData(items[..n]) == Err(f)
    ensures WithAuthorData(items) == Err(f)
    decreases |items| - n
  {
    if n < |items| {
      assert items[..n + 1][..n] == items[..n];
      FilterFaultPersists(items, n + 1, f);
    } else {
      assert items[..n] == items;
    }
  }

  lemma {:induction false} ReduceFaultPersists(cs: seq<Json>, n: nat, f: Fault)
    requires n <= |cs| && ItemsWithAuthorData(cs[..n]) == Err(f)
    ensures ItemsWithAuthorData(cs) == Err(f)
    decreases |cs| - n
  {
    if n < |cs| {
      assert cs[..n + 1][..n] == cs[..n];
      ReduceFaultPersists(cs, n + 1, f);
    } else {
      assert cs[..n] == cs;
    }
  }

  /** An item whose `hasOwnProperty("authorData")` throws. */
  predicate ItemThrows(item: Json) {
    HasOwnProperty(item, "authorData").None?
  }

  /** A collection that ends the pass: its `hasOwnProperty` throws, or that of one of its visited items. */
  predicate CollectionThrows(c: Json) {
    match OwnItems(c)
    case Err(_) => true
    case Ok(items) => HasOwnProperty(c, "owner").None? || exists item :: item in items && ItemThrows(item)
  }

  /*
   * Two views of how many validations the loop performs are kept on purpose.
   * The counts below follow the `filter` and `reduce` of the summary and need
   * no descriptor or path, so the `Balanced` bounds and the summary-count
   * lemmas are stated with them; `Validations` further down lists each
   * validation with its verdict, for the exact counters. `ValidationsCounted`
   * proves the two agree, which is what lets the summary print the loop's counts.
   */

  /** The number of items whose own `authorData` the checking loop validates. */
  function AuthorDataChecks(items: seq<Json>): nat {
    if items == [] then 0
    else AuthorDataChecks(items[..|items| - 1]) + if HasOwnProperty(items[|items| - 1], "authorData") == Some(true) then 1 else 0
  }

  /** The number of collections whose own owner the checking loop validates. */
  function OwnerChecks(cs: seq<Json>): nat {
    if cs == [] then 0
    else OwnerChecks(cs[..|cs| - 1]) + if HasOwnProperty(cs[|cs| - 1], "owner") == Some(true) then 1 else 0
  }

  /** The number of `authorData` validations of the checking loop, over all visited items. */
  function TotalAuthorDataChecks(cs: seq<Json>): nat {
    if cs == [] then 0
    else
      TotalAuthorDataChecks(cs[..|cs| - 1])
      + match OwnItems(cs[|cs| - 1]) case Ok(items) => AuthorDataChecks(items) case Err(_) => 0
  }

  /** One validation the checking loop performs: what was found, the descriptor, and its property path. */
  datatype Validation = Validation(subject: Subject, descriptor: Json, path: string)

  /** The verdict `validateApiCollectionOwner` returns for a validation. */
  function Verdict(v: Validation): ValidationResult {
    ValidateOwner(v.descriptor, v.path)
  }

  /** The `authorData` validations the loop performs over the items of collection `index`, in order. */
  function AuthorDataValidations(index: nat, items: seq<Json>): seq<Validation> {
    if items == [] then []
    else
      var n := |items| - 1;
      AuthorDataValidations(index, items[..n])
      + if HasOwnProperty(items[n], "authorData") == Some(true)
        then [Validation(AuthorData, Lookup(items[n], "authorData").value, AuthorDataPath(index, n))]
        else []
  }

  /** The validations the loop performs for collection `index`: its own owner, then its items' `authorData`. */
  function CollectionValidations(c: Json, index: nat): seq<Validation> {
    (if HasOwnProperty(c, "owner") == Some(true) then [Validation(Owner, Lookup(c, "owner").value, OwnerPath(index))] else [])
    + match OwnItems(c) case Ok(items) => AuthorDataValidations(index, items) case Err(_) => []
  }

  /** Every validation the checking loop performs over `cs`, in order. */
  function Validations(cs: seq<Json>): seq<Validation> {
    if cs == [] then []
    else Validations(cs[..|cs| - 1]) + CollectionValidations(cs[|cs| - 1], |cs| - 1)
  }

  /** The number of validations of `subject` in `vs` whose verdict is valid. */
  function ValidCount(vs: seq<Validation>, subject: Subject): nat {
    if vs == [] then 0
    else
      var v := vs[|vs| - 1];
      ValidCount(vs[..|vs| - 1], subject) + if v.subject == subject && Verdict(v).isValid then 1 else 0
  }

  /** The diagnostics of the invalid verdicts in `vs`, in total. */
  function ErrorCount(vs: seq<Validation>): nat {
    if vs == [] then 0
    else
      var v := vs[|vs| - 1];
      ErrorCount(vs[..|vs| - 1]) + if Verdict(v).isValid then 0 else |Verdict(v).errors|
  }

  /** The number of validations of `subject` in `vs`. */
  function SubjectCount(vs: seq<Validation>, subject: Subject): nat {
    if vs == [] then 0
    else SubjectCount(vs[..|vs| - 1], subject) + if vs[|vs| - 1].subject == subject then 1 else 0
  }

  /** Counting splits over a concatenation. */
  lemma {:induction false} SubjectCountAppend(a: seq<Validation>, b: seq<Validation>, subject: Subject)
    ensures SubjectCount(a + b, subject) == SubjectCount(a, subject) + SubjectCount(b, subject)
    decreases |b|
  {
    if b == [] {
      assert a + b == a;
    } else {
      var n := |b| - 1;
      assert (a + b)[..|a + b| - 1] == a + b[..n];
      SubjectCountAppend(a, b[..n], subject);
    }
  }

  /** The `authorData` validations of a collection are one per item with an own `authorData`. */
  lemma {:induction false} AuthorDataValidationsCounted(index: nat, items: seq<Json>)
    ensures SubjectCount(AuthorDataValidations(index, items), AuthorData) == AuthorDataChecks(items)
    ensures SubjectCount(AuthorDataValidations(index, items), Owner) == 0
    decreases |items|
  {
    if items != [] {
      var n := |items| - 1;
      AuthorDataValidationsCounted(index, items[..n]);
      var tail := if HasOwnProperty(items[n], "authorData") == Some(true)
                  then [Validation(AuthorData, Lookup(items[n], "authorData").value, AuthorDataPath(index, n))] else [];
      SubjectCountAppend(AuthorDataValidations(index, items[..n]), tail, AuthorData);
      SubjectCountAppend(AuthorDataValidations(index, items[..n]), tail, Owner);
    }
  }

  /**
   * The validations of the loop are exactly one per collection with an own
   * owner and one per visited item with an own `authorData`.
   */
  lemma {:induction false} ValidationsCounted(cs: seq<Json>)
    ensures SubjectCount(Validations(cs), Owner) == OwnerChecks(cs)
    ensures SubjectCount(Validations(cs), AuthorData) == TotalAuthorDataChecks(cs)
    decreases |cs|
  {
    if cs != [] {
      var n := |cs| - 1;
      var c := cs[n];
      ValidationsCounted(cs[..n]);
      var owned := if HasOwnProperty(c, "owner") == Some(true) then [Validation(Owner, Lookup(c, "owner").value, OwnerPath(n))] else [];
      var visited := match OwnItems(c) case Ok(items) => AuthorDataValidations(n, items) case Err(_) => [];
      assert CollectionValidations(c, n) == owned + visited;
      if OwnItems(c).Ok? {
        AuthorDataValidationsCounted(n, OwnItems(c).value);
      }
      SubjectCountAppend(owned, visited, Owner);
      SubjectCountAppend(owned, visited, AuthorData);
      SubjectCountAppend(Validations(cs[..n]), CollectionValidations(c, n), Owner);
      SubjectCountAppend(Validations(cs[..n]), CollectionValidations(c, n), AuthorData);
    }
  }

  /** The counters `k`, started from `k0`, account exactly for the validations `vs`. */
  predicate Tallied(k0: OwnerCounters, k: OwnerCounters, vs: seq<Validation>) {
    && k.validOwners == k0.validOwners + ValidCount(vs, Owner)
    && k.validAuthorData == k0.validAuthorData + ValidCount(vs, AuthorData)
    && k.totalErrors == k0.totalErrors + ErrorCount(vs)
  }

  /** Recording one more verdict accounts for one more validation. */
  lemma JudgedTallied(k0: OwnerCounters, k: OwnerCounters, vs: seq<Validation>, v: Validation)
    requires Tallied(k0, k, vs)
    ensures Tallied(k0, Judged(k, v.subject, Verdict(v)), vs + [v])
  {
    var w := vs + [v];
    assert w[..|w| - 1] == vs;
  }

  /** Checking the items of a collection records the verdict of each of its `authorData` validations. */
  lemma {:induction false} CheckItemsAccounts(k: OwnerCounters, index: nat, items: seq<Json>, k0: OwnerCounters, vs: seq<Validation>)
    requires Tallied(k0, k, vs)
    ensures CheckItems(k, index, items).Ok? ==>
              Tallied(k0, CheckItems(k, index, items).value, vs + AuthorDataValidations(index, items))
    decreases |items|
  {
    if items == [] {
      assert vs + AuthorDataValidations(index, items) == vs;
    } else {
      var n := |items| - 1;
      var last := items[n];
      CheckItemsAccounts(k, index, items[..n], k0, vs);
      var before := CheckItems(k, index, items[..n]);
      if before.Ok? {
        assert CheckItems(k, index, items) == CheckItem(before.value, last, index, n);
        var prior := vs + AuthorDataValidations(index, items[..n]);
        if HasOwnProperty(last, "authorData") == Some(true) {
          var v := Validation(AuthorData, Lookup(last, "authorData").value, AuthorDataPath(index, n));
          assert AuthorDataValidations(index, items) == AuthorDataValidations(index, items[..n]) + [v];
          AppendAssoc(vs, AuthorDataValidations(index, items[..n]), [v]);
          JudgedTallied(k0, before.value, prior, v);
        } else {
          assert AuthorDataValidations(index, items) == AuthorDataValidations(index, items[..n]) + [];
          assert vs + AuthorDataValidations(index, items) == prior;
        }
      }
    }
  }

  /** Checking one collection records the verdict of its owner validation, if any, then of its items'. */
  lemma CheckCollectionAccounts(k: OwnerCounters, c: Json, index: nat, k0: OwnerCounters, vs: seq<Validation>)
    requires Tallied(k0, k, vs)
    ensures CheckCollection(k, c, index).Ok? ==>
              Tallied(k0, CheckCollection(k, c, index).value, vs + CollectionValidations(c, index))
  {
    if CheckCollection(k, c, index).Ok? {
      var items := OwnItems(c).value;
      var owned := if HasOwnProperty(c, "owner") == Some(true)
                   then [Validation(Owner, Lookup(c, "owner").value, OwnerPath(index))] else [];
      assert CollectionValidations(c, index) == owned + AuthorDataValidations(index, items);
      AppendAssoc(vs, owned, AuthorDataValidations(index, items));
      var k' := k;
      if HasOwnProperty(c, "owner") == Some(true) {
        JudgedTallied(k0, k, vs, owned[0]);
        k' := Judged(k, Owner, Verdict(owned[0]));
      } else {
        assert vs + owned == vs;
      }
      assert CheckCollection(k, c, index) == CheckItems(k', index, items);
      CheckItemsAccounts(k', index, items, k0, vs + owned);
    }
  }

  /**
   * The counters after `owners` owner and `authors` `authorData`
   * validations: valid ones are among them, and errors are counted exactly
   * when one of them was invalid.
   */
  predicate Balanced(k: OwnerCounters, owners: nat, authors: nat) {
    && k.validOwners <= owners
    && k.validAuthorData <= authors
    && (k.totalErrors == 0 <==> k.validOwners == owners && k.validAuthorData == authors)
  }

  /** One more validation keeps the counters balanced, given that only invalid verdicts carry diagnostics. */
  lemma JudgedBalanced(k: OwnerCounters, subject: Subject, result: ValidationResult, owners: nat, authors: nat)
    requires result.isValid <==> result.errors == []
    ensures Balanced(k, owners, authors) ==>
              Balanced(Judged(k, subject, result),
                       owners + (if subject == Owner then 1 else 0),
                       authors + (if subject == AuthorData then 1 else 0))
  {
  }

  /**
   * Checking the items of a collection fails exactly when one of them throws;
   * otherwise each validated `authorData` is counted once.
   */
  lemma {:induction false} CheckItemsOutcome(k: OwnerCounters, index: nat, items: seq<Json>, owners: nat, authors: nat)
    ensures CheckItems(k, index, items).Err? <==> exists item :: item in items && ItemThrows(item)
    ensures CheckItems(k, index, items).Err? ==> CheckItems(k, index, items) == Err(OtherError)
    ensures CheckItems(k, index, items).Ok? && Balanced(k, owners, authors) ==>
              Balanced(CheckItems(k, index, items).value, owners, authors + AuthorDataChecks(items))
    decreases |items|
  {
    if items != [] {
      var n := |items| - 1;
      var last := items[n];
      assert items == items[..n] + [last];
      CheckItemsOutcome(k, index, items[..n], owners, authors);
      var before := CheckItems(k, index, items[..n]);
      if before.Ok? {
        assert CheckItems(k, index, items) == CheckItem(before.value, last, index, n);
        if ItemThrows(last) {
          assert last in items;
        }
        if HasOwnProperty(last, "authorData") == Some(true) {
          var v := Lookup(last, "authorData").value;
          OwnerDiagnostics(v, AuthorDataPath(index, n));
          JudgedBalanced(before.value, AuthorData, ValidateOwner(v, AuthorDataPath(index, n)),
                         owners, authors + AuthorDataChecks(items[..n]));
        }
      }
    }
  }

  /** `hasOwnProperty` throws for one key exactly when it throws for any other. */
  lemma HasOwnPropertyThrowsAlike(v: Json, k1: string, k2: string)
    ensures HasOwnProperty(v, k1).None? <==> HasOwnProperty(v, k2).None?
  {
  }

  /**
   * Checking the collections fails exactly when one of them throws;
   * otherwise each validated owner and `authorData` is counted once.
   */
  lemma {:induction false} CheckCollectionsOutcome(k: OwnerCounters, cs: seq<Json>, owners: nat, authors: nat)
    ensures CheckCollections(k, cs).Err? <==> exists c :: c in cs && CollectionThrows(c)
    ensures CheckCollections(k, cs).Err? ==> CheckCollections(k, cs) == Err(OtherError)
    ensures CheckCollections(k, cs).Ok? && Balanced(k, owners, authors) ==>
              Balanced(CheckCollections(k, cs).value, owners + OwnerChecks(cs), authors + TotalAuthorDataChecks(cs))
    ensures CheckCollections(k, cs).Ok? ==> Tallied(k, CheckCollections(k, cs).value, Validations(cs))
    decreases |cs|
  {
    if cs == [] {
      assert Validations(cs) == [];
    }
    if cs != [] {
      var n := |cs| - 1;
      var last := cs[n];
      assert cs == cs[..n] + [last];
      CheckCollectionsOutcome(k, cs[..n], owners, authors);
      var before := CheckCollections(k, cs[..n]);
      if before.Ok? {
        assert CheckCollections(k, cs) == CheckCollection(before.value, last, n);
        if CollectionThrows(last) {
          assert last in cs;
        }
        CheckCollectionOutcome(before.value, last, n, owners + OwnerChecks(cs[..n]), authors + TotalAuthorDataChecks(cs[..n]));
        CheckCollectionAccounts(before.value, last, n, k, Validations(cs[..n]));
      }
    }
  }

  /**
   * Checking one collection fails exactly when it throws; otherwise its own
   * owner, if any, and each validated `authorData` is counted once.
   */
  lemma CheckCollectionOutcome(k: OwnerCounters, c: Json, index: nat, owners: nat, authors: nat)
    ensures CheckCollection(k, c, index).Err? <==> CollectionThrows(c)
    ensures CheckCollection(k, c, index).Err? ==> CheckCollection(k, c, index) == Err(OtherError)
    ensures CheckCollection(k, c, index).Ok? && Balanced(k, owners, authors) ==>
              Balanced(CheckCollection(k, c, index).value,
                       owners + (if HasOwnProperty(c, "owner") == Some(true) then 1 else 0),
                       authors + AuthorDataChecks(OwnItems(c).value))
  {
    HasOwnPropertyThrowsAlike(c, "owner", "items");
    if OwnItems(c).Ok? && HasOwnProperty(c, "owner").Some? {
      var items := OwnItems(c).value;
      var o := owners + (if HasOwnProperty(c, "owner") == Some(true) then 1 else 0);
      var k' := k;
      if HasOwnProperty(c, "owner") == Some(true) {
        var v := Lookup(c, "owner").value;
        OwnerDiagnostics(v, OwnerPath(index));
        JudgedBalanced(k, Owner, ValidateOwner(v, OwnerPath(index)), owners, authors);
        k' := Judged(k, Owner, ValidateOwner(v, OwnerPath(index)));
      }
      assert CheckCollection(k, c, index) == CheckItems(k', index, items);
      CheckItemsOutcome(k', index, items, o, authors);
    }
  }


  /** The `filter` for owners fails exactly when some `hasOwnProperty` throws, and otherwise counts the owner validations. */
  lemma {:induction false} CollectionsWithOwnerCounts(cs: seq<Json>)
    ensures CollectionsWithOwner(cs).Err? <==> exists c :: c in cs && HasOwnProperty(c, "owner").None?
    ensures CollectionsWithOwner(cs).Ok? ==> CollectionsWithOwner(cs).value == OwnerChecks(cs)
    decreases |cs|
  {
    if cs != [] {
      var n := |cs| - 1;
      assert cs == cs[..n] + [cs[n]];
      CollectionsWithOwnerCounts(cs[..n]);
      if HasOwnProperty(cs[n], "owner").None? {
        assert cs[n] in cs;
      }
    }
  }

  /** The inner `filter` of the reduce fails exactly when some `hasOwnProperty` throws, and otherwise counts the `authorData` validations. */
  lemma {:induction false} WithAuthorDataCounts(items: seq<Json>)
    ensures WithAuthorData(items).Err? <==> exists item :: item in items && ItemThrows(item)
    ensures WithAuthorData(items).Ok? ==> WithAuthorData(items).value == AuthorDataChecks(items)
    decreases |items|
  {
    if items != [] {
      var n := |items| - 1;
      assert items == items[..n] + [items[n]];
      WithAuthorDataCounts(items[..n]);
      if ItemThrows(items[n]) {
        assert items[n] in items;
      }
    }
  }

  /**
   * Where no collection throws, the reduce, although it finds the items
   * through `collection.items` rather than `hasOwnProperty`, counts exactly
   * the `authorData` validations of the checking loop.
   */
  lemma {:induction false} ItemsWithAuthorDataCounts(cs: seq<Json>)
    requires forall c :: c in cs ==> !CollectionThrows(c)
    ensures ItemsWithAuthorData(cs) == Ok(TotalAuthorDataChecks(cs))
    decreases |cs|
  {
    if cs != [] {
      var n := |cs| - 1;
      var c := cs[n];
      assert cs == cs[..n] + [c];
      assert c in cs;
      ItemsWithAuthorDataCounts(cs[..n]);
      ContributionCounts(c);
      assert TotalAuthorDataChecks(cs) == TotalAuthorDataChecks(cs[..n]) + AuthorDataChecks(OwnItems(c).value);
    }
  }

  /**
   * For a collection that does not throw, the reduce callback adds exactly
   * the `authorData` validations of the checking loop over its own items.
   */
  lemma ContributionCounts(c: Json)
    requires !CollectionThrows(c)
    ensures AuthorDataContribution(c) == Ok(AuthorDataChecks(OwnItems(c).value))
  {
    var items := OwnItems(c).value;
    NamedKeyOnlyOnObjects(c, "items");
    match Lookup(c, "items")
    case Some(x) =>
      if Truthy(x) && x.JArr? {
        assert items == x.elems;
        WithAuthorDataCounts(items);
      } else {
        assert items == [];
      }
    case None =>
      assert items == [];
  }


  /**
   * The outcome of the pass on a parsed array of collections: a fault
   * exactly when some collection throws; otherwise the summary counts every
   * collection, every owner and `authorData` validation, the valid ones
   * among them and the diagnostics of the invalid ones, and reports no error
   * exactly when all of those were valid.
   */
  lemma {:induction false} OwnerTallyOutcome(cs: seq<Json>)
    ensures Tally(Ok(JArr(cs))).Err? <==> exists c :: c in cs && CollectionThrows(c)
    ensures Tally(Ok(JArr(cs))).Err? ==> Tally(Ok(JArr(cs))) == Err(OtherError)
    ensures Tally(Ok(JArr(cs))).Ok? ==>
              var s := Tally(Ok(JArr(cs))).value;
              && s.totalCollections == |cs|
              && s.collectionsWithOwner == OwnerChecks(cs)
              && s.itemsWithAuthorData == TotalAuthorDataChecks(cs)
              && s.validOwners <= s.collectionsWithOwner
              && s.validAuthorData <= s.itemsWithAuthorData
              && (s.totalErrors == 0 <==> s.validOwners == s.collectionsWithOwner && s.validAuthorData == s.itemsWithAuthorData)
              && s.collectionsWithOwner == SubjectCount(Validations(cs), Owner)
              && s.itemsWithAuthorData == SubjectCount(Validations(cs), AuthorData)
              && s.validOwners == ValidCount(Validations(cs), Owner)
              && s.validAuthorData == ValidCount(Validations(cs), AuthorData)
              && s.totalErrors == ErrorCount(Validations(cs))
  {
    var start := OwnerCounters(0, 0, 0);
    assert Balanced(start, 0, 0);
    CheckCollectionsOutcome(start, cs, 0, 0);
    var checked := CheckCollections(start, cs);
    if checked.Ok? {
      forall c | c in cs ensures HasOwnProperty(c, "owner").Some? {
        HasOwnPropertyThrowsAlike(c, "owner", "items");
      }
      CollectionsWithOwnerCounts(cs);
      ItemsWithAuthorDataCounts(cs);
      ValidationsCounted(cs);
      assert Tally(Ok(JArr(cs))) == Ok(OwnerSummary(|cs|, OwnerChecks(cs), TotalAuthorDataChecks(cs),
        checked.value.validOwners, checked.value.validAuthorData, checked.value.totalErrors));
    }
  }
}
