/** `ReceiptOCRService`: a receipt image is uploaded, read by OCR, parsed
    into a store name, a total, a date and priced items, given a category
    suggestion and saved; a confirmed receipt is posted to the ledger. The
    OCR engine and the regular-expression captures are inputs; what the
    service does with them is modelled. */
module ReceiptOcr {
  import opened Common
  import opened Tables
  import opened Keywords
  import opened LedgerEntryDomain
  import Formatting
  import AccountDomain
  import CategoryDomain
  import UserService
  import LedgerService
  import FileUpload
  import Repo = LedgerEntryRepository

  // ---- lines --------------------------------------------------------------

  /** The pieces of `s` between its '\n' characters, empty ones included. */
  function Pieces(s: string): (r: seq<string>)
    ensures |r| >= 1
    ensures forall i :: 0 <= i < |r| ==> '\n' !in r[i]
    decreases |s|
  {
    var k := Formatting.IndexOf(s, '\n');
    if k == |s| then [s] else [s[..k]] + Pieces(s[k + 1..])
  }

  /** The pieces joined back with '\n'. */
  function Join(pieces: seq<string>): string
    requires |pieces| >= 1
  {
    if |pieces| == 1 then pieces[0] else pieces[0] + "\n" + Join(pieces[1..])
  }

  /** Splitting loses nothing: the pieces join back to the text. */
  lemma {:induction false} JoinPieces(s: string)
    ensures Join(Pieces(s)) == s
    decreases |s|
  {
    var k := Formatting.IndexOf(s, '\n');
    if k < |s| {
      var rest := Pieces(s[k + 1..]);
      assert Pieces(s) == [s[..k]] + rest;
      JoinPieces(s[k + 1..]);
      JoinCons(s[..k], rest);
      SplitAround(s, k);
    }
  }

  lemma SplitAround(s: string, k: nat)
    requires k < |s| && s[k] == '\n'
    ensures s == s[..k] + "\n" + s[k + 1..]
  {
  }

  lemma JoinCons(p: string, rest: seq<string>)
    requires |rest| >= 1
    ensures Join([p] + rest) == p + "\n" + Join(rest)
  {
    assert ([p] + rest)[1..] == rest;
  }

  /** Trailing empty pieces removed. */
  function DropTrailingEmpty(ps: seq<string>): (r: seq<string>)
    ensures |r| <= |ps| && r == ps[..|r|]
    ensures r == [] || r[|r| - 1] != ""
    ensures forall i :: |r| <= i < |ps| ==> ps[i] == ""
  {
    if ps != [] && ps[|ps| - 1] == "" then DropTrailingEmpty(ps[..|ps| - 1]) else ps
  }

  /** `ocrText.split("\\n")`: the pieces without the trailing empty ones;
      the empty text is one empty line. */
  function SplitLines(s: string): seq<string> {
    if s == "" then [""] else DropTrailingEmpty(Pieces(s))
  }

  // ---- store name ---------------------------------------------------------

  /** The characters `.` of `java.util.regex` does not match. */
  predicate IsLineTerminator(c: char) {
    c == '\n' || c == '\r' || c == 0x85 as char || c == 0x2028 as char || c == 0x2029 as char
  }

  /** `line.matches(".*\\d.*")`: a digit, and no line terminator anywhere,
      since the whole line must match. */
  predicate MatchesDigitPattern(line: string) {
    (exists i :: 0 <= i < |line| && IsDigit(line[i]))
    && forall i :: 0 <= i < |line| ==> !IsLineTerminator(line[i])
  }

  /** A trimmed line that may name the store. */
  predicate IsStoreLine(line: string) {
    |line| > 3 && !MatchesDigitPattern(line)
  }

  const UnknownStore := "Unknown Store"

  /** How many lines `extractStoreName` looks at. */
  function Scanned(lines: seq<string>): nat {
    Min(3, |lines|)
  }

  /** `name` is what `extractStoreName` gives for `lines`: the first of the
      first three trimmed lines that may name the store, or "Unknown Store"
      when none may. */
  predicate IsStoreNameOf(lines: seq<string>, name: string) {
    (exists k :: 0 <= k < Scanned(lines) && IsStoreLine(Trim(lines[k])) && name == Trim(lines[k])
                 && forall j :: 0 <= j < k ==> !IsStoreLine(Trim(lines[j])))
    || (name == UnknownStore && forall j :: 0 <= j < Scanned(lines) ==> !IsStoreLine(Trim(lines[j])))
  }

  /** `extractStoreName` */
  method ExtractStoreName(lines: seq<string>) returns (name: string)
    ensures IsStoreNameOf(lines, name)
  {
    for i := 0 to Scanned(lines)
      invariant forall j :: 0 <= j < i ==> !IsStoreLine(Trim(lines[j]))
    {
      var line := Trim(lines[i]);
      if IsStoreLine(line) {
        StoreLineFound(lines, i);
        return line;
      }
    }
    NoStoreLine(lines);
    return UnknownStore;
  }

  lemma StoreLineFound(lines: seq<string>, i: nat)
    requires i < Scanned(lines) && IsStoreLine(Trim(lines[i]))
    requires forall j :: 0 <= j < i ==> !IsStoreLine(Trim(lines[j]))
    ensures IsStoreNameOf(lines, Trim(lines[i]))
  {
  }

  lemma NoStoreLine(lines: seq<string>)
    requires forall j :: 0 <= j < Scanned(lines) ==> !IsStoreLine(Trim(lines[j]))
    ensures IsStoreNameOf(lines, UnknownStore)
  {
  }

  /** The store name is determined by the lines. */
  lemma StoreNameIsDetermined(lines: seq<string>, a: string, b: string)
    requires IsStoreNameOf(lines, a) && IsStoreNameOf(lines, b)
    ensures a == b
  {
    if exists k :: 0 <= k < Scanned(lines) && IsStoreLine(Trim(lines[k])) && a == Trim(lines[k])
                   && forall j :: 0 <= j < k ==> !IsStoreLine(Trim(lines[j])) {
      var k :| 0 <= k < Scanned(lines) && IsStoreLine(Trim(lines[k])) && a == Trim(lines[k])
               && forall j :: 0 <= j < k ==> !IsStoreLine(Trim(lines[j]));
      if k' :| 0 <= k' < Scanned(lines) && IsStoreLine(Trim(lines[k'])) && b == Trim(lines[k'])
               && forall j :: 0 <= j < k' ==> !IsStoreLine(Trim(lines[j])) {
        assert !(k < k') && !(k' < k);
      }
    }
  }

  // ---- amounts and items --------------------------------------------------

  /** A `BigDecimal`: `unscaled` divided by ten to the `scale`. */
  datatype Decimal = Decimal(unscaled: int, scale: nat)

  const Zero := Decimal(0, 0)

  /** `new BigDecimal(s)` for the `[0-9]+\.?[0-9]*` captures the patterns
      make: the digits before and after the point, scaled by the number of
      digits after it. */
  function ParsePlainDecimal(s: string): (r: Decimal)
    ensures '.' !in s ==> r == Decimal(Formatting.ParseDigits(s), 0)
    ensures '.' in s ==>
              var k := Formatting.IndexOf(s, '.');
              r.scale == |s| - k - 1
              && r.unscaled == Formatting.ParseDigits(s[..k]) * Formatting.Pow10(r.scale) + Formatting.ParseDigits(s[k + 1..])
  {
    var k := Formatting.IndexOf(s, '.');
    var fraction := if k < |s| then s[k + 1..] else "";
    Formatting.ParseDigitsAppend(s[..k], fraction);
    assert k == |s| ==> s[..k] + fraction == s;
    Decimal(Formatting.ParseDigits(s[..k] + fraction), |fraction|)
  }

  /** A capture `w.f` of two digit runs reads as the integer `wf` scaled by
      the number of digits of `f`; `12.` reads as `12` at scale 0. */
  lemma ParsePlainDecimalWithPoint(w: string, f: string)
    requires Formatting.AllDigits(w) && Formatting.AllDigits(f)
    ensures ParsePlainDecimal(w + "." + f)
         == Decimal(Formatting.ParseDigits(w) * Formatting.Pow10(|f|) + Formatting.ParseDigits(f), |f|)
  {
    var s := w + "." + f;
    assert s[|w|] == '.';
    assert forall i :: 0 <= i < |w| ==> s[i] == w[i];
    assert Formatting.IndexOf(s, '.') == |w|;
    assert s[..|w|] == w && s[|w| + 1..] == f;
    Formatting.ParseDigitsAppend(w, f);
  }

  /** A capture without a point reads as its integer at scale 0. */
  lemma ParsePlainDecimalWithoutPoint(w: string)
    requires Formatting.AllDigits(w)
    ensures ParsePlainDecimal(w) == Decimal(Formatting.ParseDigits(w), 0)
  {
    assert Formatting.IndexOf(w, '.') == |w|;
    assert w[..|w|] + "" == w;
  }

  /** Printing a whole number and a fraction and parsing the text back gives
      the number shifted by the fraction's digits plus the fraction. */
  lemma PlainDecimalReadsBack(u: nat, f: string)
    requires Formatting.AllDigits(f)
    ensures ParsePlainDecimal(Formatting.NatText(u) + "." + f)
         == Decimal(u * Formatting.Pow10(|f|) + Formatting.ParseDigits(f), |f|)
  {
    ParsePlainDecimalWithPoint(Formatting.NatText(u), f);
    Formatting.ParseNatText(u);
  }

  datatype ReceiptItem = ReceiptItem(name: string, price: Decimal, quantity: int)

  /** The item pattern's two groups on a trimmed line: the name and the
      price text. */
  datatype ItemMatch = ItemMatch(name: string, price: string)

  function ItemFrom(m: ItemMatch): ReceiptItem {
    ReceiptItem(Trim(m.name), ParsePlainDecimal(m.price), 1)
  }

  /** What the item filter lets through: a positive price, quantity 1. */
  predicate IsKeptItem(item: ReceiptItem) {
    item.price.unscaled > 0 && item.quantity == 1
  }

  predicate Priced(m: Option<ItemMatch>) {
    m.Some? && IsKeptItem(ItemFrom(m.value))
  }

  /** The items of `extractItems`, one per line whose match has a positive
      price, in line order. */
  function ItemsOf(found: seq<Option<ItemMatch>>): (items: seq<ReceiptItem>)
    ensures |items| <= |found|
    ensures forall i :: 0 <= i < |items| ==> IsKeptItem(items[i])
  {
    if found == [] then []
    else
      var rest := ItemsOf(found[..|found| - 1]);
      var last := found[|found| - 1];
      if Priced(last) then rest + [ItemFrom(last.value)] else rest
  }

  /** No line with a positive price is dropped. */
  lemma {:induction false} PricedLinesAreKept(found: seq<Option<ItemMatch>>, i: int)
    requires 0 <= i < |found| && Priced(found[i])
    ensures ItemFrom(found[i].value) in ItemsOf(found)
  {
    if i < |found| - 1 {
      PricedLinesAreKept(found[..|found| - 1], i);
    }
  }

  lemma ItemsOfStep(found: seq<Option<ItemMatch>>, i: int)
    requires 0 <= i < |found|
    ensures ItemsOf(found[..i + 1]) == ItemsOf(found[..i]) + (if Priced(found[i]) then [ItemFrom(found[i].value)] else [])
  {
    assert found[..i + 1][..i] == found[..i];
  }

  /** `extractItems`, given the item pattern's match on each line. */
  method ExtractItems(found: seq<Option<ItemMatch>>) returns (items: seq<ReceiptItem>)
    ensures items == ItemsOf(found)
  {
    items := [];
    for i := 0 to |found|
      invariant items == ItemsOf(found[..i])
    {
      ItemsOfStep(found, i);
      var m := found[i];
      if m.Some? {
        var price := ParsePlainDecimal(m.value.price);
        if price.unscaled > 0 {
          items := items + [ReceiptItem(Trim(m.value.name), price, 1)];
        }
      }
    }
    assert found[..|found|] == found;
  }

  /** `extractTotalAmount`: the "total" capture, else the first number with
      two decimals, else zero. Both captures always parse. */
  function ExtractTotalAmount(totalCapture: Option<string>, amountCapture: Option<string>): (d: Decimal)
    ensures totalCapture.Some? ==> d == ParsePlainDecimal(totalCapture.value)
    ensures totalCapture.None? && amountCapture.Some? ==> d == ParsePlainDecimal(amountCapture.value)
    ensures totalCapture.None? && amountCapture.None? ==> d == Zero
  {
    if totalCapture.Some? then ParsePlainDecimal(totalCapture.value)
    else if amountCapture.Some? then ParsePlainDecimal(amountCapture.value)
    else Zero
  }

  /** `setScale(2, RoundingMode.HALF_UP)`: two decimals, a dropped half
      rounding away from zero. */
  function SetScale2(d: Decimal): (r: Decimal)
    ensures r.scale == 2
  {
    if d.scale <= 2 then Decimal(d.unscaled * Formatting.Pow10(2 - d.scale), 2)
    else
      var p := Formatting.Pow10(d.scale - 2);
      var q := (Formatting.Abs(d.unscaled) + p / 2) / p;
      Decimal(if d.unscaled < 0 then -q else q, 2)
  }

  /** Rescaling keeps the value when no digit is dropped. */
  lemma SetScale2Exact(d: Decimal)
    requires d.scale <= 2
    ensures SetScale2(d).unscaled * Formatting.Pow10(d.scale) == d.unscaled * 100
  {
    assert Formatting.Pow10(1) == 10;
    assert Formatting.Pow10(2) == 100;
    if d.scale == 0 {
      assert SetScale2(d).unscaled == d.unscaled * 100;
    } else if d.scale == 1 {
      assert SetScale2(d).unscaled == d.unscaled * 10;
    } else {
      assert SetScale2(d).unscaled == d.unscaled;
    }
  }

  /** `r` units of `p` lie within half a unit of `a`. */
  predicate Near(r: int, p: int, a: int) {
    r * p - p / 2 <= a < r * p + p / 2
  }

  /** Rescaling never turns a positive amount negative or a negative one
      positive. */
  lemma SetScale2Sign(d: Decimal)
    ensures d.unscaled >= 0 ==> SetScale2(d).unscaled >= 0
    ensures d.unscaled <= 0 ==> SetScale2(d).unscaled <= 0
  {
    if d.scale <= 2 {
      MulSign(d.unscaled, Formatting.Pow10(2 - d.scale));
    } else {
      var p := Formatting.Pow10(d.scale - 2);
      DivNonNeg(Formatting.Abs(d.unscaled) + p / 2, p);
    }
  }

  lemma MulSign(x: int, n: nat)
    ensures x >= 0 ==> x * n >= 0
    ensures x <= 0 ==> x * n <= 0
  {
  }

  lemma DivNonNeg(a: nat, p: nat)
    requires p >= 1
    ensures a / p >= 0
  {
  }

  /** Dropping digits lands within half a cent of the value. */
  lemma SetScale2Rounds(d: Decimal)
    requires d.scale > 2
    ensures Near(Formatting.Abs(SetScale2(d).unscaled), Formatting.Pow10(d.scale - 2), Formatting.Abs(d.unscaled))
  {
    PowEven(d.scale - 2);
    HalfUp(Formatting.Abs(d.unscaled), Formatting.Pow10(d.scale - 2));
  }

  lemma PowEven(k: nat)
    requires k >= 1
    ensures Formatting.Pow10(k) >= 2 && Formatting.Pow10(k) % 2 == 0
  {
    var t := Formatting.Pow10(k - 1);
    assert Formatting.Pow10(k) == 10 * t;
    assert 10 * t == 2 * (5 * t);
  }

  /** Rounding `a / p` half up, for an even `p`, leaves a remainder of at
      most half of `p` either way; an exact half rounds up. */
  lemma HalfUp(a: nat, p: nat)
    requires p >= 2 && p % 2 == 0
    ensures Near((a + p / 2) / p, p, a)
  {
    var n := a + p / 2;
    assert n == (n / p) * p + n % p && 0 <= n % p < p;
  }

  // ---- category suggestion ------------------------------------------------

  /** The store-name chain of `suggestCategoryByStoreName`, first match wins. */
  const StoreRules := [
    Rule(["starbucks", "coffee", "cafe"], "food-dining"),
    Rule(["grocery", "market", "walmart", "target"], "groceries"),
    Rule(["gas", "shell", "exxon", "bp"], "transportation"),
    Rule(["pharmacy", "cvs", "walgreens"], "healthcare")
  ]

  /** `suggestCategoryByStoreName`: no suggestion without a store name,
      otherwise the category of the first group of words one of which occurs
      in the lower-cased name, else "other". */
  function SuggestCategoryByStoreName(storeName: Option<string>): (r: Option<string>)
    ensures r.Some? <==> storeName.Some?
    ensures storeName.Some? ==> r.value == Classify(StoreRules, ToLower(storeName.value), "other")
  {
    match storeName
    case None => None
    case Some(name) => Some(Classify(StoreRules, ToLower(name), "other"))
  }

  lemma StoreOutcome(k: int)
    requires 0 <= k < |StoreRules|
    ensures StoreRules[k].outcome in {"food-dining", "groceries", "transportation", "healthcare"}
  {
  }

  /** A named store gets one of the five category slugs, and "other" exactly
      when none of the words occurs in its name. */
  lemma StoreCategoryRange(name: string)
    ensures SuggestCategoryByStoreName(Some(name)).value
            in {"food-dining", "groceries", "transportation", "healthcare", "other"}
    ensures SuggestCategoryByStoreName(Some(name)).value == "other" <==> NoneFires(StoreRules, ToLower(name))
  {
    if !NoneFires(StoreRules, ToLower(name)) {
      var k := SomeRuleFiresFirst(StoreRules, ToLower(name));
      StoreOutcome(k);
    }
  }

  // ---- receipt records ----------------------------------------------------

  /** A `LocalDateTime`: milliseconds since the epoch on the wall clock of the
      server's zone. */
  type LocalDateTime = int

  /** What the regular expressions find in the OCR text: the "total" capture,
      the first number with two decimals, and the item pattern's match on each
      trimmed line. */
  datatype OcrCaptures = OcrCaptures(
    totalCapture: Option<string>,
    amountCapture: Option<string>,
    itemMatches: seq<Option<ItemMatch>>)

  /** A saved receipt, without its confidence score. */
  datatype ReceiptData = ReceiptData(
    userId: Id,
    attachmentId: Id,
    storeName: string,
    totalAmount: Decimal,
    date: LocalDateTime,
    items: seq<ReceiptItem>,
    suggestedCategory: Option<string>,
    metadata: map<string, string>,
    createdAt: Instant)

  function ReceiptCreatedAt(d: ReceiptData): int { d.createdAt }

  /** The metadata `parseReceiptWithBasicLogic` records. */
  function ParseMetadata(ocrText: string): (m: map<string, string>)
    ensures m.Keys == {"ocrText", "parseMethod"}
    ensures m["ocrText"] == ocrText && m["parseMethod"] == "basic"
  {
    map["ocrText" := ocrText, "parseMethod" := "basic"]
  }

  /** What `processReceipt` saves for a parsed text: the OCR'd fields, the
      owner and the attachment, the category suggested from the store name
      and the total rounded to cents. */
  ghost predicate IsProcessedReceipt(data: ReceiptData, userId: Id, attachmentId: Id, ocrText: string,
                                     captures: OcrCaptures, nowLocal: LocalDateTime, now: Instant)
  {
    && data.userId == userId && data.attachmentId == attachmentId
    && IsStoreNameOf(SplitLines(ocrText), data.storeName)
    && data.totalAmount == SetScale2(ExtractTotalAmount(captures.totalCapture, captures.amountCapture))
    && data.date == nowLocal
    && data.items == ItemsOf(captures.itemMatches)
    && data.suggestedCategory == SuggestCategoryByStoreName(Some(data.storeName))
    && data.metadata == ParseMetadata(ocrText)
    && data.createdAt == now
  }

  /** A processed receipt always has a category. */
  lemma ProcessedReceiptCategory(data: ReceiptData, userId: Id, attachmentId: Id, ocrText: string,
                                 captures: OcrCaptures, nowLocal: LocalDateTime, now: Instant)
    requires IsProcessedReceipt(data, userId, attachmentId, ocrText, captures, nowLocal, now)
    ensures data.suggestedCategory.Some?
    ensures data.suggestedCategory.value in {"food-dining", "groceries", "transportation", "healthcare", "other"}
  {
    StoreCategoryRange(data.storeName);
  }

  /** The total of a processed receipt has two decimals, and every item on it
      has a positive price and quantity 1. */
  lemma ProcessedReceiptAmounts(data: ReceiptData, userId: Id, attachmentId: Id, ocrText: string,
                                captures: OcrCaptures, nowLocal: LocalDateTime, now: Instant)
    requires IsProcessedReceipt(data, userId, attachmentId, ocrText, captures, nowLocal, now)
    ensures data.totalAmount.scale == 2
    ensures forall i :: 0 <= i < |data.items| ==> data.items[i].price.unscaled > 0 && data.items[i].quantity == 1
  {
  }

  /** `findByUserIdOrderByCreatedAtDesc` */
  function GetUserReceiptData(rows: seq<Row<ReceiptData>>, userId: Id): (r: seq<Row<ReceiptData>>)
    ensures Repo.NewestFirst(r, ReceiptCreatedAt)
    ensures multiset(r) == multiset(Select(rows, (d: ReceiptData) => d.userId == userId))
  {
    Repo.SortNewestFirst(Select(rows, (d: ReceiptData) => d.userId == userId), ReceiptCreatedAt)
  }

  /** `getReceiptData`: a receipt is shown to its own user only. */
  function GetReceiptData(rows: seq<Row<ReceiptData>>, id: Id, userId: Id): (r: Result<ReceiptData>)
    ensures r.Ok? <==> HasId(rows, id) && Find(rows, id).value.userId == userId
    ensures r.Ok? ==> r.value == Find(rows, id).value
    ensures !HasId(rows, id) ==> r == Err("Receipt data not found")
    ensures HasId(rows, id) && Find(rows, id).value.userId != userId ==> r == Err("Access denied")
  {
    match Find(rows, id)
    case None => Err("Receipt data not found")
    case Some(data) => if data.userId != userId then Err("Access denied") else Ok(data)
  }

  // ---- posting a receipt --------------------------------------------------

  /** `BigDecimal.longValue()` of a whole number: the fraction cut off
      towards zero. */
  function TruncDiv(x: int, p: nat): int
    requires p >= 1
  {
    if x >= 0 then x / p else -((-x) / p)
  }

  /** `amount.multiply(100).longValue()`: cents with the rest of the fraction
      cut off towards zero, kept to the low 64 bits. */
  function MinorUnits(amount: Decimal): (m: int)
    ensures IsLong(m)
  {
    Wrap64(TruncDiv(amount.unscaled * 100, Formatting.Pow10(amount.scale)))
  }

  /** `q` units of `p` fall short of `a` by less than one unit. */
  predicate Truncated(q: int, p: int, a: int) {
    q * p <= a < q * p + p
  }

  /** Cutting off towards zero keeps the sign and drops less than one unit of
      `p` from the magnitude. */
  lemma TruncDivBounds(x: int, p: nat)
    requires p >= 1
    ensures x >= 0 ==> TruncDiv(x, p) >= 0
    ensures x <= 0 ==> TruncDiv(x, p) <= 0
    ensures Truncated(Formatting.Abs(TruncDiv(x, p)), p, Formatting.Abs(x))
  {
    var a := Formatting.Abs(x);
    DivNonNeg(a, p);
    assert a == (a / p) * p + a % p && 0 <= a % p < p;
  }

  /** An amount of whole cents is posted as exactly that many cents. */
  lemma MinorUnitsOfCents(amount: Decimal)
    requires amount.scale == 2 && IsLong(amount.unscaled)
    ensures MinorUnits(amount) == amount.unscaled
  {
    assert Formatting.Pow10(2) == 100;
    assert amount.unscaled * 100 / 100 == amount.unscaled;
  }

  /** Fractions of a cent are cut off towards zero on both sides of zero:
      12.345 is 1234 cents and -12.345 is -1234. */
  lemma MinorUnitsTruncate()
    ensures MinorUnits(Decimal(12345, 3)) == 1234
    ensures MinorUnits(Decimal(-12345, 3)) == -1234
  {
    assert Formatting.Pow10(3) == 1000;
  }

  /** `CreateExpenseFromReceiptRequest`, the receipt as the user confirmed it. */
  datatype CreateExpenseFromReceiptRequest = CreateExpenseFromReceiptRequest(
    receiptDataId: Id,
    amount: Decimal,
    categoryId: Id,
    storeName: Option<string>,
    date: Option<LocalDateTime>,
    items: seq<ReceiptItem>,
    description: Option<string>)

  /** The notes: the description, else "Receipt from " and the store name,
      which string concatenation writes as "null" when it is absent. */
  function ReceiptNotes(req: CreateExpenseFromReceiptRequest): string {
    if req.description.Some? then req.description.value
    else "Receipt from " + (if req.storeName.Some? then req.storeName.value else "null")
  }

  /** The ledger request `createExpenseFromReceipt` builds. `offsetMs` is the
      server zone's offset from UTC. */
  function ReceiptLedgerRequest(userId: Id, req: CreateExpenseFromReceiptRequest, offsetMs: int, now: Instant)
    : (l: LedgerService.CreateLedgerEntryRequest)
    ensures l.memberId == userId && l.txType == EXPENSE && l.currency == "USD" && l.categoryId == req.categoryId
    ensures l.amountMinor == MinorUnits(req.amount)
    ensures l.occurredAt == if req.date.Some? then req.date.value - offsetMs else now
    ensures l.notes == Some(ReceiptNotes(req)) && l.attachments.None?
  {
    LedgerService.CreateLedgerEntryRequest(userId, EXPENSE, MinorUnits(req.amount), "USD", req.categoryId,
      if req.date.Some? then req.date.value - offsetMs else now, Some(ReceiptNotes(req)), None)
  }

  /** A confirmed receipt is posted as the caller's expense in US dollars, for
      the confirmed amount in cents, with notes, on the receipt's date (or now
      without one); it fails exactly when the ledger would refuse it. */
  lemma ReceiptExpenseIsPosted(users: seq<Row<AccountDomain.User>>, categories: seq<Row<CategoryDomain.Category>>,
                               entries: seq<Row<LedgerEntry>>, userId: Id, req: CreateExpenseFromReceiptRequest,
                               offsetMs: int, now: Instant)
    ensures var out := LedgerService.CreateEntryEffect(users, categories, entries, userId,
                                                       ReceiptLedgerRequest(userId, req, offsetMs, now), now);
      out.0.Ok? ==>
        var e := out.1[|entries|].val;
        |out.1| == |entries| + 1 && out.1[..|entries|] == entries
        && e.txType == EXPENSE && e.memberId == userId && e.amount == MoneyAmount(MinorUnits(req.amount), "USD")
        && e.categoryId == req.categoryId && e.notes == Some(ReceiptNotes(req))
        && e.occurredAt == (if req.date.Some? then req.date.value - offsetMs else now)
        && e.familyId == UserService.CurrentFamilyId(users, userId).value
  {
  }

  /** Notes without a description name the store. */
  lemma NotesNameTheStore(req: CreateExpenseFromReceiptRequest)
    ensures req.description.Some? ==> ReceiptNotes(req) == req.description.value
    ensures req.description.None? && req.storeName.Some? ==> ReceiptNotes(req) == "Receipt from " + req.storeName.value
  {
  }

  // ---- the service --------------------------------------------------------

  class ReceiptOcrService {
    const receipts: Table<ReceiptData>
    const uploads: FileUpload.FileUploadService
    const ledger: LedgerService.LedgerService

    ghost predicate Valid()
      reads this, receipts
    {
      receipts.Valid()
    }

    constructor (receipts: Table<ReceiptData>, uploads: FileUpload.FileUploadService, ledger: LedgerService.LedgerService)
      ensures this.receipts == receipts && this.uploads == uploads && this.ledger == ledger
    {
      this.receipts := receipts;
      this.uploads := uploads;
      this.ledger := ledger;
    }

    /** `parseReceiptWithBasicLogic` followed by `enhanceReceiptData`, for
        the given owner and attachment. */
    method ParseReceipt(ocrText: string, captures: OcrCaptures, userId: Id, attachmentId: Id,
                        nowLocal: LocalDateTime, now: Instant)
      returns (data: ReceiptData)
      ensures IsProcessedReceipt(data, userId, attachmentId, ocrText, captures, nowLocal, now)
    {
      var lines := SplitLines(ocrText);
      var storeName := ExtractStoreName(lines);
      var total := ExtractTotalAmount(captures.totalCapture, captures.amountCapture);
      var items := ExtractItems(captures.itemMatches);
      data := ReceiptData(userId, attachmentId, storeName, total, nowLocal, items, None, ParseMetadata(ocrText), now);
      data := data.(suggestedCategory := SuggestCategoryByStoreName(Some(data.storeName)));
      data := data.(totalAmount := SetScale2(data.totalAmount));
    }

    /** Steps 2 to 6 of `processReceipt`: read the stored image, parse the
        text and save the receipt; an OCR error is passed on. */
    method ReadAndSave(attachmentId: Id, ocr: Result<string>, captures: OcrCaptures, userId: Id,
                       nowLocal: LocalDateTime, now: Instant)
      returns (r: Result<Row<ReceiptData>>)
      requires Valid()
      modifies receipts
      ensures Valid()
      ensures r.Ok? <==> ocr.Ok?
      ensures r.Err? ==> r.message == ocr.message && receipts.rows == old(receipts.rows)
      ensures r.Ok? ==>
                r.value.id == FreshId(old(receipts.rows)) && receipts.rows == old(receipts.rows) + [r.value]
                && IsProcessedReceipt(r.value.val, userId, attachmentId, ocr.value, captures, nowLocal, now)
    {
      if ocr.Err? {
        return Err(ocr.message);
      }
      var data := ParseReceipt(ocr.value, captures, userId, attachmentId, nowLocal, now);
      var id := receipts.Insert(data);
      r := Ok(Row(id, data));
    }

    /** `processReceipt`: upload the image as a "temp" attachment, read it,
        parse it and save the result. `uuid` and `ioError` are what the upload
        draws and meets, `ocr` the OCR engine's text or error. Any failure is
        reported as "Receipt processing failed: " and its message; an image
        that was stored stays stored when the OCR fails. */
    method ProcessReceipt(file: FileUpload.UploadedFile, userId: Id, uuid: string, ioError: Option<string>,
                          ocr: Result<string>, captures: OcrCaptures, nowLocal: LocalDateTime, now: Instant)
      returns (r: Result<Row<ReceiptData>>)
      requires Valid() && uploads.Valid()
      modifies receipts, uploads, uploads.attachments
      ensures Valid() && uploads.Valid()
      ensures FileUpload.ValidateFile(file, uploads.maxFileSize).Err? ==>
                r == Err("Receipt processing failed: " + FileUpload.ValidateFile(file, uploads.maxFileSize).message)
      ensures FileUpload.ValidateFile(file, uploads.maxFileSize).Ok? && ioError.Some? ==>
                r == Err("Receipt processing failed: " + ("File upload failed: " + ioError.value))
      ensures FileUpload.ValidateFile(file, uploads.maxFileSize).Ok? && ioError.None? ==>
                |uploads.attachments.rows| == |old(uploads.attachments.rows)| + 1
                && old(uploads.attachments.rows) < uploads.attachments.rows
      ensures FileUpload.ValidateFile(file, uploads.maxFileSize).Err? || ioError.Some? ==>
                uploads.attachments.rows == old(uploads.attachments.rows) && uploads.files == old(uploads.files)
      ensures FileUpload.ValidateFile(file, uploads.maxFileSize).Ok? && ioError.None? && ocr.Err? ==>
                r == Err("Receipt processing failed: " + ocr.message)
      ensures r.Err? ==> receipts.rows == old(receipts.rows)
      ensures r.Ok? <==> FileUpload.ValidateFile(file, uploads.maxFileSize).Ok? && ioError.None? && ocr.Ok?
      ensures r.Ok? ==>
                r.value.id == FreshId(old(receipts.rows)) && receipts.rows == old(receipts.rows) + [r.value]
                && IsProcessedReceipt(r.value.val, userId, FreshId(old(uploads.attachments.rows)), ocr.value,
                                      captures, nowLocal, now)
    {
      var attachmentId := uploads.UploadFile(file, "temp", uuid, ioError, now);
      if attachmentId.Err? {
        return Err("Receipt processing failed: " + attachmentId.message);
      }
      var saved := ReadAndSave(attachmentId.value, ocr, captures, userId, nowLocal, now);
      if saved.Err? {
        return Err("Receipt processing failed: " + saved.message);
      }
      r := saved;
    }

    /** `createExpenseFromReceipt` */
    method CreateExpenseFromReceipt(req: CreateExpenseFromReceiptRequest, userId: Id, offsetMs: int, now: Instant)
      returns (r: Result<LedgerService.LedgerEntryResponse>)
      requires ledger.Valid()
      modifies ledger.entries
      ensures ledger.Valid()
      ensures (r, ledger.entries.rows) == LedgerService.CreateEntryEffect(ledger.users.rows, ledger.categories.rows,
                old(ledger.entries.rows), userId, ReceiptLedgerRequest(userId, req, offsetMs, now), now)
    {
      r := ledger.CreateEntry(userId, ReceiptLedgerRequest(userId, req, offsetMs, now), now);
    }
  }
}
