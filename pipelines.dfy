/** `ProjectScrapyPipeline`: turns the scraped text of a book's price, tax, availability and
    review count into numbers, in place on the item. */
module Pipelines {
  import opened Wrappers
  import opened Text
  import opened Items

  // ---------------------------------------------------------------- the cleaners, on values

  /** `float(v.replace('£', ''))`. Only text has `replace`; `float` rejects what is left
      unless it is a float literal. */
  function CleanCurrencyValue(v: FieldValue): Result<FieldValue, Exception> {
    match v
    case Str(s) =>
      var f := ParseFloat(RemoveAll(s, '£'));
      if f.Some? then Success(Float(f.value)) else Failure(ValueError)
    case _ => Failure(AttributeError)
  }

  /** `int(re.search(r'(\d+)', v).group(0))`: the first run of digits as a number.
      `re.search` wants text; `group` on a failed search is looked up on `None`. */
  function CleanAvailabilityValue(v: FieldValue): Result<FieldValue, Exception> {
    match v
    case Str(s) =>
      var found := SearchDigits(s);
      if found.None? then Failure(AttributeError)
      else
        var n := ParseInt(found.value);
        if n.Some? then Success(Int(n.value)) else Failure(ValueError)
    case _ => Failure(TypeError)
  }

  /** `int(x)` of a float: rounds toward zero. */
  function Truncate(x: real): int {
    if x >= 0.0 then x.Floor else -((-x).Floor)
  }

  /** `int(v)`: text is parsed, an int is kept, a float is truncated (infinities overflow,
      not-a-number is a value error), `None` is a type error. */
  function CleanReviewsValue(v: FieldValue): Result<FieldValue, Exception> {
    match v
    case Absent => Failure(TypeError)
    case Str(s) =>
      var n := ParseInt(s);
      if n.Some? then Success(Int(n.value)) else Failure(ValueError)
    case Int(n) => Success(Int(n))
    case Float(f) =>
      match f
      case Finite(x) => Success(Int(Truncate(x)))
      case Infinite(_) => Failure(OverflowError)
      case NaN => Failure(ValueError)
  }

  // ---------------------------------------------------------------- the cleaners, on items

  /** The methods of the pipeline that rewrite one field. */
  datatype Step = CurrencyStep(col: Column) | AvailabilityStep | ReviewsStep

  /** The field a step reads and rewrites. */
  function StepColumn(step: Step): Column {
    match step
    case CurrencyStep(col) => col
    case AvailabilityStep => Availability
    case ReviewsStep => NumberOfReviews
  }

  /** What a step makes of the value it reads. */
  function StepClean(step: Step, v: FieldValue): Result<FieldValue, Exception> {
    match step
    case CurrencyStep(_) => CleanCurrencyValue(v)
    case AvailabilityStep => CleanAvailabilityValue(v)
    case ReviewsStep => CleanReviewsValue(v)
  }

  /** The item after a run of steps and how the run ended. */
  datatype Run = Run(book: Book, outcome: Outcome<Exception>)

  /** One step: on success the field is overwritten; on an exception the assignment never
      happens. */
  function ApplyStep(step: Step, b: Book): Run {
    var col := StepColumn(step);
    match StepClean(step, Get(b, col))
    case Success(v) => Run(Set(b, col, v), Pass)
    case Failure(e) => Run(b, Fail(e))
  }

  /** Steps in order; the first exception ends the run and propagates, leaving the earlier
      rewrites in place. */
  function RunSteps(steps: seq<Step>, b: Book): Run
    decreases |steps|
  {
    if steps == [] then Run(b, Pass)
    else
      var first := ApplyStep(steps[0], b);
      if first.outcome.Fail? then first else RunSteps(steps[1..], first.book)
  }

  /** `process_item`: price, price with tax, tax, availability, then the review count. */
  const ProcessOrder: seq<Step> :=
    [CurrencyStep(Price), CurrencyStep(PriceTax), CurrencyStep(Tax), AvailabilityStep, ReviewsStep]

  function Process(b: Book): Run {
    RunSteps(ProcessOrder, b)
  }

  /** Where `process_item` stands after its first `j` cleaners passed: the rest of the run
      is the remaining cleaners applied to the book they left. The next cleaner either
      ends the whole run, or passes and moves one step on. */
  lemma ProcessStep(b: Book, j: nat, current: Book, r: Run)
    requires j < |ProcessOrder|
    requires j == 0 ==> current == b
    requires j > 0 ==> Process(b) == RunSteps(ProcessOrder[j..], current)
    requires r == ApplyStep(ProcessOrder[j], current)
    ensures r.outcome.Fail? ==> Process(b) == r
    ensures r.outcome.Pass? && j + 1 < |ProcessOrder| ==> Process(b) == RunSteps(ProcessOrder[j + 1..], r.book)
    ensures r.outcome.Pass? && j + 1 == |ProcessOrder| ==> Process(b) == r
  {
    assert ProcessOrder[0..] == ProcessOrder;
    assert ProcessOrder[j..][1..] == ProcessOrder[j + 1..];
  }

  // ---------------------------------------------------------------- what process_item does

  /** The columns `process_item` rewrites, in the order it rewrites them. */
  const Cleaned: seq<Column> := [Price, PriceTax, Tax, Availability, NumberOfReviews]

  /** What each cleaner makes of the field as the spider left it. */
  function FieldResults(b: Book): (rs: seq<Result<FieldValue, Exception>>)
    ensures |rs| == |Cleaned|
  {
    [ CleanCurrencyValue(b.price), CleanCurrencyValue(b.priceTax), CleanCurrencyValue(b.tax),
      CleanAvailabilityValue(b.availability), CleanReviewsValue(b.numberOfReviews) ]
  }

  /** The index of the first failure in `rs`, or `|rs|` when there is none. */
  function FirstFailure<T, E>(rs: seq<Result<T, E>>): (k: nat)
    ensures k <= |rs| && (k < |rs| ==> rs[k].Failure?)
    ensures forall i :: 0 <= i < k ==> rs[i].Success?
  {
    if rs == [] then 0
    else if rs[0].Failure? then 0
    else 1 + FirstFailure(rs[1..])
  }

  /** The book with the first `k` cleaned columns holding their cleaned values. */
  function CleanedUpTo(b: Book, k: nat): Book
    requires k <= |Cleaned|
    requires forall i :: 0 <= i < k ==> FieldResults(b)[i].Success?
  {
    if k == 0 then b else Set(CleanedUpTo(b, k - 1), Cleaned[k - 1], FieldResults(b)[k - 1].value)
  }

  lemma {:induction false} CleanedUpToFields(b: Book, k: nat)
    requires k <= |Cleaned|
    requires forall i :: 0 <= i < k ==> FieldResults(b)[i].Success?
    ensures forall i :: 0 <= i < |Cleaned| ==>
      Get(CleanedUpTo(b, k), Cleaned[i]) == if i < k then FieldResults(b)[i].value else Get(b, Cleaned[i])
    ensures forall col :: col !in Cleaned ==> Get(CleanedUpTo(b, k), col) == Get(b, col)
  {
    if k > 0 {
      CleanedUpToFields(b, k - 1);
    }
  }

  /** The `j`-th step of `process_item` is the `j`-th cleaner on the `j`-th column. */
  lemma StepIsCleaner(b: Book, j: nat)
    requires j < |Cleaned|
    ensures StepColumn(ProcessOrder[j]) == Cleaned[j]
    ensures StepClean(ProcessOrder[j], Get(b, Cleaned[j])) == FieldResults(b)[j]
  {
  }

  /** Up to the first failure, the run so far has cleaned exactly the columns it passed. */
  lemma {:induction false} ProcessFrom(b: Book, j: nat)
    requires j <= FirstFailure(FieldResults(b))
    ensures Process(b) == RunSteps(ProcessOrder[j..], CleanedUpTo(b, j))
    decreases j
  {
    if j > 0 {
      ProcessFrom(b, j - 1);
      var c := CleanedUpTo(b, j - 1);
      CleanedUpToFields(b, j - 1);
      StepIsCleaner(b, j - 1);
      assert ProcessOrder[j - 1..][1..] == ProcessOrder[j..];
    }
  }

  /** `process_item` fails with the first cleaner's exception, if any; every column before
      it holds its cleaned value, every column from it on and every column no cleaner reads
      is as it was. */
  lemma ProcessFirstFailure(b: Book)
    ensures var rs, k, r := FieldResults(b), FirstFailure(FieldResults(b)), Process(b);
      && r.outcome == (if k == |rs| then Pass else Fail(rs[k].error))
      && (forall i :: 0 <= i < |Cleaned| ==>
            Get(r.book, Cleaned[i]) == if i < k then rs[i].value else Get(b, Cleaned[i]))
      && (forall col :: col !in Cleaned ==> Get(r.book, col) == Get(b, col))
  {
    var rs, k := FieldResults(b), FirstFailure(FieldResults(b));
    ProcessFrom(b, k);
    CleanedUpToFields(b, k);
    if k < |rs| {
      StepIsCleaner(b, k);
    }
  }

  /** `process_item` returns normally exactly when each of the five cleaners accepts the
      field it reads, and then each of those fields holds its cleaned value. */
  lemma ProcessSucceedsIff(b: Book)
    ensures Process(b).outcome.Pass? <==> forall i :: 0 <= i < |Cleaned| ==> FieldResults(b)[i].Success?
    ensures Process(b).outcome.Pass? ==>
      forall i :: 0 <= i < |Cleaned| ==> Get(Process(b).book, Cleaned[i]) == FieldResults(b)[i].value
  {
    ProcessFirstFailure(b);
  }

  /** A run never changes a column none of its steps reads. */
  lemma {:induction false} RunKeepsOtherColumns(steps: seq<Step>, b: Book, col: Column)
    requires forall i :: 0 <= i < |steps| ==> StepColumn(steps[i]) != col
    ensures Get(RunSteps(steps, b).book, col) == Get(b, col)
    decreases |steps|
  {
    if steps != [] {
      var first := ApplyStep(steps[0], b);
      assert Get(first.book, col) == Get(b, col);
      if first.outcome.Pass? {
        RunKeepsOtherColumns(steps[1..], first.book, col);
      }
    }
  }

  /** `process_item` never changes a column no cleaner reads. */
  lemma ProcessKeepsColumn(b: Book, col: Column)
    requires col !in Cleaned
    ensures Get(Process(b).book, col) == Get(b, col)
  {
    RunKeepsOtherColumns(ProcessOrder, b, col);
  }

  /** The descriptive fields pass through untouched, whether or not a cleaner raises. */
  lemma ProcessKeepsDescriptiveFields(b: Book)
    ensures var r := Process(b).book;
      r.title == b.title && r.image == b.image && r.description == b.description
      && r.upc == b.upc && r.productType == b.productType
  {
    assert Title !in Cleaned && Image !in Cleaned && Description !in Cleaned;
    assert Upc !in Cleaned && ProductType !in Cleaned;
    ProcessKeepsColumn(b, Title);
    ProcessKeepsColumn(b, Image);
    ProcessKeepsColumn(b, Description);
    ProcessKeepsColumn(b, Upc);
    ProcessKeepsColumn(b, ProductType);
  }

  /** An item that went through the pipeline once cannot go through it again: its price is
      now a float, which has no `replace`, and the item is left as it was. */
  lemma ProcessNotRepeatable(b: Book)
    requires Process(b).outcome.Pass?
    ensures Process(Process(b).book) == Run(Process(b).book, Fail(AttributeError))
  {
    ProcessFirstFailure(b);
    var c := Process(b).book;
    assert Get(c, Cleaned[0]) == FieldResults(b)[0].value;
    ProcessFirstFailure(c);
    assert FieldResults(c)[0] == Failure(AttributeError);
    forall col ensures Get(Process(c).book, col) == Get(c, col) {
      if col in Cleaned {
        var i :| 0 <= i < |Cleaned| && Cleaned[i] == col;
      }
    }
    BookByFields(Process(c).book, c);
  }

  // ---------------------------------------------------------------- the cleaners' properties

  /** The currency cleaner raises AttributeError exactly on a value that is not text, and
      otherwise fails only with ValueError. */
  lemma CurrencyErrors(v: FieldValue)
    ensures CleanCurrencyValue(v) == Failure(AttributeError) <==> !v.Str?
    ensures v.Str? && CleanCurrencyValue(v).Failure? ==> CleanCurrencyValue(v).error == ValueError
    ensures CleanCurrencyValue(v).Success? ==> CleanCurrencyValue(v).value.Float?
  {
  }

  /** A pound price written with pence becomes that decimal value. */
  lemma CurrencyPounds(whole: string, pence: string)
    requires |whole| > 0 && AllDigits(whole) && |pence| > 0 && AllDigits(pence)
    ensures CleanCurrencyValue(Str("£" + whole + "." + pence)) ==
      Success(Float(Finite(Decimal(DigitsValue(whole), DigitsValue(pence), |pence|))))
  {
    var body := whole + "." + pence;
    var s := "£" + whole + "." + pence;
    assert s == "£" + body;
    forall i | 0 <= i < |body| ensures body[i] != '£' {
      if i < |whole| { assert IsDigit(whole[i]); }
      else if i > |whole| { assert body[i] == pence[i - |whole| - 1]; assert IsDigit(pence[i - |whole| - 1]); }
    }
    PoundSignRemoved(body);
    ParseFloatDecimal(whole, pence);
    assert ParseFloat(RemoveAll(s, '£')) == Some(Finite(Decimal(DigitsValue(whole), DigitsValue(pence), |pence|)));
  }

  /** Removing the pound sign in front of text that has no other one leaves that text. */
  lemma PoundSignRemoved(body: string)
    requires '£' !in body
    ensures RemoveAll("£" + body, '£') == body
  {
    RemoveAllAppend("£", body, '£');
    RemoveAllAbsent(body, '£');
    assert RemoveAll("£", '£') == [];
  }

  /** A whole number of pounds, as `str` writes an int, becomes that value. */
  lemma CurrencyWholePounds(n: int)
    ensures CleanCurrencyValue(Str("£" + IntToString(n))) == Success(Float(Finite(n as real)))
  {
    var s := IntToString(n);
    var m: nat := if n < 0 then -n else n;
    NatToStringDigits(m);
    forall i | 0 <= i < |s| ensures s[i] != '£' {
      if n < 0 && i > 0 { assert s[i] == NatToString(m)[i - 1]; }
      else if n >= 0 { assert s[i] == NatToString(m)[i]; }
    }
    PoundSignRemoved(s);
    ParseFloatInt(n);
    assert ParseFloat(RemoveAll("£" + s, '£')) == Some(Finite(n as real));
  }

  /** Availability text with a digit in it becomes the number written by its first run of
      digits, unless that run is longer than `int()` converts. */
  lemma AvailabilityFirstNumber(s: string, i: int, run: string)
    requires IsLeftmostDigitRun(s, i, run)
    ensures |run| <= MaxStrDigits ==> CleanAvailabilityValue(Str(s)) == Success(Int(DigitsValue(run)))
    ensures |run| > MaxStrDigits ==> CleanAvailabilityValue(Str(s)) == Failure(ValueError)
  {
    LeftmostDigitRunFound(s, i, run);
    if |run| <= MaxStrDigits {
      DigitsParse(run);
    } else {
      DigitsOverLimit(run);
    }
  }

  /** The availability cleaner raises TypeError exactly on a value that is not text,
      AttributeError exactly on text without a digit, and ValueError exactly when the first
      run of digits is longer than `int()` converts. */
  lemma AvailabilityErrors(v: FieldValue)
    ensures CleanAvailabilityValue(v) == Failure(TypeError) <==> !v.Str?
    ensures v.Str? ==>
      (CleanAvailabilityValue(v) == Failure(AttributeError) <==> forall j :: 0 <= j < |v.s| ==> !IsDigit(v.s[j]))
    ensures CleanAvailabilityValue(v) == Failure(ValueError) <==>
      v.Str? && SearchDigits(v.s).Some? && |SearchDigits(v.s).value| > MaxStrDigits
  {
    if v.Str? {
      SearchDigitsNone(v.s);
      if SearchDigits(v.s).Some? {
        SearchDigitsLeftmost(v.s);
        var i :| IsLeftmostDigitRun(v.s, i, SearchDigits(v.s).value);
        AvailabilityFirstNumber(v.s, i, SearchDigits(v.s).value);
      }
    }
  }

  /** `int(x)` of a float lies between zero and `x`, less than one away from `x`. */
  lemma TruncateTowardZero(x: real)
    ensures x >= 0.0 ==> 0.0 <= Truncate(x) as real <= x < Truncate(x) as real + 1.0
    ensures x < 0.0 ==> Truncate(x) as real - 1.0 < x <= Truncate(x) as real <= 0.0
  {
  }

  /** The review count of a number written by `str` is that number. */
  lemma ReviewsRoundTrip(n: int)
    requires |NatToString(if n < 0 then -n else n)| <= MaxStrDigits
    ensures CleanReviewsValue(Str(IntToString(n))) == Success(Int(n))
  {
    ParseIntToString(n);
  }

  /** Unlike the currency cleaner, the review cleaner may run twice: an int is kept. */
  lemma ReviewsIdempotent(v: FieldValue)
    requires CleanReviewsValue(v).Success?
    ensures CleanReviewsValue(CleanReviewsValue(v).value) == CleanReviewsValue(v)
  {
  }

  // ---------------------------------------------------------------- the book site's values

  /** The shapes of `books.toscrape.com` product tables: a pound price, an availability
      sentence and a review count. */
  lemma PriceExample()
    ensures CleanCurrencyValue(Str("£" + "51" + "." + "77")) == Success(Float(Finite(51.77)))
  {
    CurrencyPounds("51", "77");
    PenceExample();
  }

  lemma PenceExample()
    ensures Decimal(DigitsValue("51"), DigitsValue("77"), 2) == 51.77
  {
    assert DigitsValue("51") == 51 by { assert "51"[..1] == "5"; }
    assert DigitsValue("77") == 77 by { assert "77"[..1] == "7"; }
    assert Pow10(2) == 100;
  }

  lemma AvailabilityExample(s: string)
    requires s == "In stock (19 available)"
    ensures CleanAvailabilityValue(Str(s)) == Success(Int(19))
  {
    AvailabilityRun(s);
    AvailabilityFirstNumber(s, 10, "19");
    assert DigitsValue("19") == 19 by { assert "19"[..1] == "1"; }
  }

  lemma AvailabilityRun(s: string)
    requires s == "In stock (19 available)"
    ensures IsLeftmostDigitRun(s, 10, "19")
  {
    assert s[10..12] == "19";
  }

  lemma ReviewsExample()
    ensures CleanReviewsValue(Str("0")) == Success(Int(0))
  {
    DigitsParse("0");
  }

  // ---------------------------------------------------------------- the pipeline object

  class ProjectScrapyPipeline {

    constructor() {}

    /** `clean_currency(item, col)`: returns the item it was given, rewritten in place. */
    method CleanCurrency(item: BookItem, col: Column) returns (returned: BookItem, outcome: Outcome<Exception>)
      modifies item
      ensures returned == item
      ensures Run(item.Value(), outcome) == ApplyStep(CurrencyStep(col), old(item.Value()))
    {
      returned := item;
      var v := item.GetField(col);
      var cleaned := CleanCurrencyValue(v);
      if cleaned.Failure? {
        return returned, Fail(cleaned.error);
      }
      item.SetField(col, cleaned.value);
      outcome := Pass;
    }

    /** `clean_price(item)`. */
    method CleanPrice(item: BookItem) returns (returned: BookItem, outcome: Outcome<Exception>)
      modifies item
      ensures returned == item
      ensures Run(item.Value(), outcome) == ApplyStep(CurrencyStep(Price), old(item.Value()))
    {
      returned, outcome := CleanCurrency(item, Price);
    }

    /** `clean_price_tax(item)`. */
    method CleanPriceTax(item: BookItem) returns (returned: BookItem, outcome: Outcome<Exception>)
      modifies item
      ensures returned == item
      ensures Run(item.Value(), outcome) == ApplyStep(CurrencyStep(PriceTax), old(item.Value()))
    {
      returned, outcome := CleanCurrency(item, PriceTax);
    }

    /** `clean_tax(item)`. */
    method CleanTax(item: BookItem) returns (returned: BookItem, outcome: Outcome<Exception>)
      modifies item
      ensures returned == item
      ensures Run(item.Value(), outcome) == ApplyStep(CurrencyStep(Tax), old(item.Value()))
    {
      returned, outcome := CleanCurrency(item, Tax);
    }

    /** `clean_availability(item)`. */
    method CleanAvailability(item: BookItem) returns (returned: BookItem, outcome: Outcome<Exception>)
      modifies item
      ensures returned == item
      ensures Run(item.Value(), outcome) == ApplyStep(AvailabilityStep, old(item.Value()))
    {
      returned := item;
      var v := item.GetField(Availability);
      var cleaned := CleanAvailabilityValue(v);
      if cleaned.Failure? {
        return returned, Fail(cleaned.error);
      }
      item.SetField(Availability, cleaned.value);
      outcome := Pass;
    }

    /** `clean_number_of_reviews(item)`. */
    method CleanNumberOfReviews(item: BookItem) returns (returned: BookItem, outcome: Outcome<Exception>)
      modifies item
      ensures returned == item
      ensures Run(item.Value(), outcome) == ApplyStep(ReviewsStep, old(item.Value()))
    {
      returned := item;
      var v := item.GetField(NumberOfReviews);
      var cleaned := CleanReviewsValue(v);
      if cleaned.Failure? {
        return returned, Fail(cleaned.error);
      }
      item.SetField(NumberOfReviews, cleaned.value);
      outcome := Pass;
    }

    /** `process_item(item, spider)`: the item is passed through the five cleaners in
        order, each call taking the item the previous one returned; an exception from one
        skips the rest and leaves the item as the earlier ones made it. */
    method ProcessItem(item: BookItem) returns (returned: BookItem, outcome: Outcome<Exception>)
      modifies item
      ensures returned == item
      ensures Run(item.Value(), outcome) == Process(old(item.Value()))
    {
      ghost var b0 := item.Value();
      returned, outcome := CleanPrice(item);
      ProcessStep(b0, 0, b0, Run(item.Value(), outcome));
      if outcome.Fail? { return; }
      ghost var b1 := item.Value();
      returned, outcome := CleanPriceTax(returned);
      ProcessStep(b0, 1, b1, Run(item.Value(), outcome));
      if outcome.Fail? { return; }
      ghost var b2 := item.Value();
      returned, outcome := CleanTax(returned);
      ProcessStep(b0, 2, b2, Run(item.Value(), outcome));
      if outcome.Fail? { return; }
      ghost var b3 := item.Value();
      returned, outcome := CleanAvailability(returned);
      ProcessStep(b0, 3, b3, Run(item.Value(), outcome));
      if outcome.Fail? { return; }
      ghost var b4 := item.Value();
      returned, outcome := CleanNumberOfReviews(returned);
      ProcessStep(b0, 4, b4, Run(item.Value(), outcome));
    }
  }
}
