/** A batch of host requests as a worker prints it, and how its results are shown. */
module Batches {
  import opened Records
  import opened Names
  import Ordering
  import opened OutputText
  import opened OperationsSpec

  /** The operations a task offers. `decode` reads the text of one JSON value, and `size`
      is the length of a value's compact encoding. */
  datatype Offer = Offer(catalogue: map<string, Declared>, decode: Bytes -> Option<Json>, size: Json -> nat)

  const MAX_REQUEST_BYTES := 1024 * 1024
  const MAX_ITEMS := 32
  const SHOWN_LIMIT := 64 * 1024
  const BATCH_SHOWN_LIMIT := 256 * 1024
  const RESPONSES: string := "responses"
  const RESULT: string := "result"
  const RESULT_FILE: string := "result_file"
  const DELIVERED: string := "files"

  // ---- Reading a batch ----

  /** What follows the first line feed. */
  function Body(stdout: Bytes): Bytes {
    if stdout == [] then []
    else if stdout[0] == NEWLINE then stdout[1..]
    else Body(stdout[1..])
  }

  datatype Parsed = Items(items: seq<Json>) | Malformed(message: string)

  function ParseBatch(offer: Offer, stdout: Bytes): (parsed: Parsed)
    ensures parsed.Items? ==> 1 <= |parsed.items| <= MAX_ITEMS
  {
    if exists line | line in Lines(stdout) :: Strip(line) == SUBMIT then
      Malformed("a command cannot both request operations and submit")
    else if |Body(stdout)| > MAX_REQUEST_BYTES then Malformed("a request batch is limited to 1 MiB")
    else
      match offer.decode(Body(stdout))
      case None => Malformed("the request is not one JSON object")
      case Some(value) =>
        if !value.Obj? || value.fields.Keys != {"requests"} then
          Malformed("the request needs exactly one \"requests\" list")
        else
          var items := value.fields["requests"];
          if !items.List? || !(1 <= |items.items| <= MAX_ITEMS) then Malformed("a batch holds 1 to 32 requests")
          else Items(items.items)
  }

  // ---- Showing a batch ----

  /** Files put beside the worker, under a directory of their own for each item. */
  datatype Delivery = Delivery(path: string, files: map<string, Blob>)

  /** What the worker sees of a batch so far; `total` counts the encoded results. */
  datatype Display = Display(results: seq<Json>, deliveries: seq<Delivery>, total: nat)

  function Path(index: nat, number: nat): string {
    RESPONSES + "/" + Decimal(index) + "/" + Decimal(number)
  }

  predicate Inline(shown: Json) {
    shown.Obj? && RESULT in shown.fields
  }

  predicate Overflows(offer: Offer, total: nat, shown: Json) {
    total + offer.size(shown) > BATCH_SHOWN_LIMIT && Inline(shown)
  }

  /** Over the limit a result travels only as a file. */
  function Fitted(offer: Offer, path: string, total: nat, result: ItemResult): ItemResult {
    if Overflows(offer, total, result.shown) then
      ItemResult(
        Obj((result.shown.fields - {RESULT})[RESULT_FILE := Str(path + "/" + SHOWN)]),
        result.files[SHOWN := Encode(result.shown.fields[RESULT])])
    else result
  }

  function PathsOf(path: string, files: map<string, Blob>): set<string> {
    set name | name in files :: path + "/" + name
  }

  ghost function Listing(paths: set<string>): Json {
    Ordering.RankInjective();
    var sorted := Ordering.SortedKeys(paths, Ordering.Rank);
    List(seq(|sorted|, i requires 0 <= i < |sorted| => Str(sorted[i])))
  }

  ghost function WithFiles(path: string, fitted: ItemResult): Json {
    if fitted.files == map[] || !fitted.shown.Obj? then fitted.shown
    else Obj(fitted.shown.fields[DELIVERED := Listing(PathsOf(path, fitted.files))])
  }

  ghost function NextDisplay(offer: Offer, index: nat, display: Display, result: ItemResult): Display {
    var path := Path(index, |display.results| + 1);
    var fitted := Fitted(offer, path, display.total, result);
    Display(
      display.results + [WithFiles(path, fitted)],
      if fitted.files == map[] then display.deliveries else display.deliveries + [Delivery(path, fitted.files)],
      display.total + offer.size(fitted.shown))
  }

  /** What a worker sees of these results, in order. */
  ghost function Displayed(offer: Offer, index: nat, results: seq<ItemResult>): (display: Display)
    ensures |display.results| == |results|
  {
    if results == [] then Display([], [], 0)
    else NextDisplay(offer, index, Displayed(offer, index, results[..|results| - 1]), results[|results| - 1])
  }

  /** Add one item's result to what the worker sees. */
  method Show(offer: Offer, index: nat, display: Display, result: ItemResult) returns (next: Display)
    ensures next == NextDisplay(offer, index, display, result)
  {
    var path := Path(index, |display.results| + 1);
    var shown, files := result.shown, result.files;
    if display.total + offer.size(shown) > BATCH_SHOWN_LIMIT && shown.Obj? && RESULT in shown.fields {
      files := files[SHOWN := Encode(shown.fields[RESULT])];
      shown := Obj((shown.fields - {RESULT})[RESULT_FILE := Str(path + "/" + SHOWN)]);
    }
    var total := display.total + offer.size(shown);
    var deliveries := display.deliveries;
    if files != map[] {
      if shown.Obj? {
        var paths := Ordering.Sort(PathsOf(path, files));
        var listing := seq(|paths|, i requires 0 <= i < |paths| => Str(paths[i]));
        shown := Obj(shown.fields[DELIVERED := List(listing)]);
      }
      deliveries := deliveries + [Delivery(path, files)];
    }
    next := Display(display.results + [shown], deliveries, total);
  }

  // ---- What a display promises ----

  /** Where the display of an item starts from. */
  ghost function FittedAt(offer: Offer, index: nat, results: seq<ItemResult>, i: nat): ItemResult
    requires i < |results|
  {
    Fitted(offer, Path(index, i + 1), Displayed(offer, index, results[..i]).total, results[i])
  }

  lemma NextKeeps(offer: Offer, index: nat, display: Display, result: ItemResult)
    ensures var next := NextDisplay(offer, index, display, result);
      && display.results <= next.results
      && forall delivery | delivery in display.deliveries :: delivery in next.deliveries
  {
  }

  lemma NextAdds(offer: Offer, index: nat, display: Display, result: ItemResult)
    ensures var n := |display.results|;
      ShowsAt(NextDisplay(offer, index, display, result), n, Path(index, n + 1),
              Fitted(offer, Path(index, n + 1), display.total, result))
  {
  }

  lemma FittedEarlier(offer: Offer, index: nat, results: seq<ItemResult>, i: nat)
    requires i < |results| - 1
    ensures FittedAt(offer, index, results[..|results| - 1], i) == FittedAt(offer, index, results, i)
  {
    assert results[..|results| - 1][..i] == results[..i];
  }

  /** The display shows this at `i`, and delivers its files if it has any. */
  ghost predicate ShowsAt(display: Display, i: nat, path: string, fitted: ItemResult) {
    && i < |display.results| && display.results[i] == WithFiles(path, fitted)
    && (fitted.files != map[] ==> Delivery(path, fitted.files) in display.deliveries)
  }

  lemma ShowsStill(offer: Offer, index: nat, display: Display, result: ItemResult, i: nat, path: string, fitted: ItemResult)
    requires ShowsAt(display, i, path, fitted)
    ensures ShowsAt(NextDisplay(offer, index, display, result), i, path, fitted)
  {
    NextKeeps(offer, index, display, result);
  }

  /** What is shown of one item, and its delivery if it has files, do not depend on the
      items after it. */
  lemma {:induction false} ItemIsDisplayed(offer: Offer, index: nat, results: seq<ItemResult>, i: nat)
    requires i < |results|
    ensures ShowsAt(Displayed(offer, index, results), i, Path(index, i + 1), FittedAt(offer, index, results, i))
  {
    var n := |results| - 1;
    var earlier := Displayed(offer, index, results[..n]);
    if i < n {
      ItemIsDisplayed(offer, index, results[..n], i);
      FittedEarlier(offer, index, results, i);
      ShowsStill(offer, index, earlier, results[n], i, Path(index, i + 1), FittedAt(offer, index, results, i));
    } else {
      NextAdds(offer, index, earlier, results[n]);
    }
  }

  /** A result that still travels inline was within the limit when it was counted. */
  lemma InlineFits(offer: Offer, index: nat, results: seq<ItemResult>, i: nat)
    requires i < |results| && Inline(Displayed(offer, index, results).results[i])
    ensures Displayed(offer, index, results[..i + 1]).total <= BATCH_SHOWN_LIMIT
  {
    ItemIsDisplayed(offer, index, results, i);
    assert results[..i + 1][..i] == results[..i];
  }

  /** Every result reaches the worker, inline or in the file its display names. */
  lemma ResultArrives(offer: Offer, index: nat, results: seq<ItemResult>, i: nat)
    requires i < |results| && Inline(results[i].shown)
    ensures var shown := Displayed(offer, index, results).results[i];
      var value, path := results[i].shown.fields[RESULT], Path(index, i + 1);
      && shown.Obj?
      && (if RESULT in shown.fields then shown.fields[RESULT] == value
          else
            && RESULT_FILE in shown.fields && shown.fields[RESULT_FILE] == Str(path + "/" + SHOWN)
            && exists delivery | delivery in Displayed(offer, index, results).deliveries ::
                 delivery.path == path && SHOWN in delivery.files && delivery.files[SHOWN] == Encode(value))
  {
    var fitted := FittedAt(offer, index, results, i);
    ItemIsDisplayed(offer, index, results, i);
    ResultIsFitted(offer, Path(index, i + 1), Displayed(offer, index, results[..i]).total, results[i]);
  }

  lemma FieldsApart()
    ensures RESULT != RESULT_FILE && RESULT != DELIVERED && RESULT_FILE != DELIVERED
  {
    assert |RESULT| == 6 && |RESULT_FILE| == 11 && |DELIVERED| == 5;
  }

  lemma ResultIsFitted(offer: Offer, path: string, total: nat, result: ItemResult)
    requires Inline(result.shown)
    ensures var fitted, value := Fitted(offer, path, total, result), result.shown.fields[RESULT];
      var shown := WithFiles(path, fitted);
      && shown.Obj?
      && (if RESULT in shown.fields then shown.fields[RESULT] == value
          else
            && RESULT_FILE in shown.fields && shown.fields[RESULT_FILE] == Str(path + "/" + SHOWN)
            && SHOWN in fitted.files && fitted.files[SHOWN] == Encode(value))
  {
    FieldsApart();
    var fitted := Fitted(offer, path, total, result);
    if Overflows(offer, total, result.shown) {
      assert RESULT !in fitted.shown.fields && SHOWN in fitted.files;
    }
  }

  /** A file of an item's own reaches the worker as it is, exactly when it is not the one
      whose name a result moved to a file takes. */
  lemma FileArrives(offer: Offer, index: nat, results: seq<ItemResult>, i: nat, name: string)
    requires i < |results| && name in results[i].files
    ensures var total, shown := Displayed(offer, index, results[..i]).total, results[i].shown;
      var taken := name == SHOWN && Overflows(offer, total, shown) && results[i].files[name] != Encode(shown.fields[RESULT]);
      !taken <==>
        exists delivery | delivery in Displayed(offer, index, results).deliveries ::
          delivery.path == Path(index, i + 1) && name in delivery.files && delivery.files[name] == results[i].files[name]
  {
    ItemIsDisplayed(offer, index, results, i);
    var fitted, path := FittedAt(offer, index, results, i), Path(index, i + 1);
    assert name in fitted.files;
    assert fitted.files != map[];
    forall delivery | delivery in Displayed(offer, index, results).deliveries && delivery.path == path
      ensures delivery == Delivery(path, fitted.files)
    {
      DeliveriesApart(offer, index, results, delivery, Delivery(path, fitted.files));
    }
  }

  // ---- A file that does not arrive ----

  /** One successful result, which may come with a file of the operation's own. */
  function Successful(value: Json, files: map<string, Blob>): ItemResult {
    ItemResult(Obj(map["status" := Str("succeeded"), "operation" := Str("a"), RESULT := value]), files)
  }

  lemma {:induction false} PlainTotal(offer: Offer, index: nat, value: Json, n: nat)
    requires n <= 4 && offer.size(Successful(value, map[]).shown) == 60 * 1024
    ensures Displayed(offer, index, seq(n, _ => Successful(value, map[]))).total == n * 60 * 1024
  {
    if n > 0 {
      var results := seq(n, _ => Successful(value, map[]));
      PlainTotal(offer, index, value, n - 1);
      assert results[..n - 1] == seq(n - 1, _ => Successful(value, map[]));
    }
  }

  lemma FittedFiles(offer: Offer, index: nat, results: seq<ItemResult>, i: nat, own: Blob)
    requires i < |results| && results[i].files == map[SHOWN := own]
    requires Overflows(offer, Displayed(offer, index, results[..i]).total, results[i].shown)
    ensures FittedAt(offer, index, results, i).files == map[SHOWN := Encode(results[i].shown.fields[RESULT])]
  {
  }

  lemma OwnIsDisplaced(offer: Offer, index: nat, results: seq<ItemResult>, i: nat, own: Blob)
    requires i < |results| && results[i].files == map[SHOWN := own]
    requires Overflows(offer, Displayed(offer, index, results[..i]).total, results[i].shown)
    requires own != Encode(results[i].shown.fields[RESULT])
    ensures Delivery(Path(index, i + 1), map[SHOWN := Encode(results[i].shown.fields[RESULT])])
         in Displayed(offer, index, results).deliveries
    ensures !exists delivery | delivery in Displayed(offer, index, results).deliveries ::
      delivery.path == Path(index, i + 1) && SHOWN in delivery.files && delivery.files[SHOWN] == own
  {
    FittedFiles(offer, index, results, i, own);
    assert SHOWN in FittedAt(offer, index, results, i).files;
    ItemIsDisplayed(offer, index, results, i);
    FileArrives(offer, index, results, i, SHOWN);
  }

  /** Five results of 60 KiB each: the fifth moves to a file, in place of the file of the
      same name its operation made, which is delivered nowhere. */
  lemma ShownFileIsDisplaced(offer: Offer, index: nat, value: Json, own: Blob)
    requires offer.size(Successful(value, map[]).shown) == 60 * 1024 && own != Encode(value)
    ensures var results := seq(4, _ => Successful(value, map[])) + [Successful(value, map[SHOWN := own])];
      && Delivery(Path(index, 5), map[SHOWN := Encode(value)]) in Displayed(offer, index, results).deliveries
      && !exists delivery | delivery in Displayed(offer, index, results).deliveries ::
           delivery.path == Path(index, 5) && SHOWN in delivery.files && delivery.files[SHOWN] == own
  {
    var plain := seq(4, _ => Successful(value, map[]));
    var results := plain + [Successful(value, map[SHOWN := own])];
    assert results[..4] == plain;
    PlainTotal(offer, index, value, 4);
    assert results[4] == Successful(value, map[SHOWN := own]);
    OwnIsDisplaced(offer, index, results, 4, own);
  }

  lemma PathInjective(index: nat, m: nat, n: nat)
    requires Path(index, m) == Path(index, n)
    ensures m == n
  {
    var head := RESPONSES + "/" + Decimal(index) + "/";
    assert Path(index, m)[|head|..] == Decimal(m) && Path(index, n)[|head|..] == Decimal(n);
    DecimalInjective(m, n);
  }

  lemma {:induction false} DeliveryOrigin(offer: Offer, index: nat, results: seq<ItemResult>, a: Delivery)
    requires a in Displayed(offer, index, results).deliveries
    ensures exists n: nat :: 0 < n <= |results| && a.path == Path(index, n)
  {
    var n := |results| - 1;
    if a in Displayed(offer, index, results[..n]).deliveries {
      DeliveryOrigin(offer, index, results[..n], a);
    }
  }

  lemma EarlierDelivery(offer: Offer, index: nat, results: seq<ItemResult>, a: Delivery)
    requires a in Displayed(offer, index, results).deliveries
    ensures a.path != Path(index, |results| + 1)
  {
    DeliveryOrigin(offer, index, results, a);
    var m: nat :| 0 < m <= |results| && a.path == Path(index, m);
    if a.path == Path(index, |results| + 1) {
      PathInjective(index, m, |results| + 1);
    }
  }

  /** Deliveries come from different items, into different directories. */
  lemma {:induction false} DeliveriesApart(offer: Offer, index: nat, results: seq<ItemResult>, a: Delivery, b: Delivery)
    requires a in Displayed(offer, index, results).deliveries && b in Displayed(offer, index, results).deliveries
    requires a.path == b.path
    ensures a == b
  {
    var n := |results| - 1;
    var earlier := Displayed(offer, index, results[..n]).deliveries;
    if a in earlier && b in earlier {
      DeliveriesApart(offer, index, results[..n], a, b);
    } else if a in earlier {
      EarlierDelivery(offer, index, results[..n], a);
    } else if b in earlier {
      EarlierDelivery(offer, index, results[..n], b);
    }
  }
}
