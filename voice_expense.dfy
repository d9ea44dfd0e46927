/** `VoiceExpenseService`: turning a spoken sentence into a draft expense
    (amount, currency, description, merchant, category slug), hints for a
    better sentence, the saved draft, and posting a confirmed draft to the
    ledger. The regular-expression matching itself (which amount pattern
    matched what, the text left once the filler phrases are removed, the "at
    <merchant>" capture) is an input; what the service does with the matches
    is modelled. */
module VoiceExpense {
  import opened Common
  import opened Tables
  import opened Keywords
  import opened LedgerEntryDomain
  import AccountDomain
  import Formatting
  import UserService
  import CategoryDomain
  import LedgerService
  import Repo = LedgerEntryRepository

  /** `Long.parseLong` of what `\d+` captured: a digit string whose value
      fits a `long`; anything else throws `NumberFormatException`. */
  function ParseLong(s: string): (r: Option<int>)
    ensures r.Some? <==> s != [] && Formatting.AllDigits(s) && Formatting.ParseDigits(s) <= LongMax
    ensures r.Some? ==> r.value == Formatting.ParseDigits(s)
  {
    if s != [] && Formatting.AllDigits(s) && Formatting.ParseDigits(s) <= LongMax
    then Some(Formatting.ParseDigits(s)) else None
  }

  // ---- amount -------------------------------------------------------------

  /** What `matcher.find()` gave for one of the five amount patterns, in
      pattern order: no match; a match of a decimal pattern, carried as the
      `Math.round(amount * 100)` it yields; or a match of the "X dollars and
      Y cents" pattern, carried as its two digit groups. */
  datatype PatternMatch = NoMatch | Decimal(rounded: int) | DollarsCents(dollars: string, cents: string)

  /** The amount the patterns give: the first match decides, except that a
      dollars-and-cents match whose digits overflow a `long` is skipped;
      `dollars * 100 + cents` wraps like `long` arithmetic; 0 when nothing
      matches. */
  function FirstAmount(matches: seq<PatternMatch>): int {
    if matches == [] then 0
    else
      match matches[0]
      case NoMatch => FirstAmount(matches[1..])
      case Decimal(rounded) => rounded
      case DollarsCents(d, c) =>
        if ParseLong(d).Some? && ParseLong(c).Some? then Wrap64(ParseLong(d).value * 100 + ParseLong(c).value)
        else FirstAmount(matches[1..])
  }

  /** `extractAmountMinor`: the loop over the patterns. */
  method ExtractAmountMinor(matches: seq<PatternMatch>) returns (amount: int)
    ensures amount == FirstAmount(matches)
  {
    var i := 0;
    while i < |matches|
      invariant 0 <= i <= |matches|
      invariant FirstAmount(matches) == FirstAmount(matches[i..])
    {
      assert matches[i..][1..] == matches[i + 1..];
      match matches[i] {
        case NoMatch =>
        case Decimal(rounded) =>
          return rounded;
        case DollarsCents(d, c) =>
          var dollars := ParseLong(d);
          var cents := ParseLong(c);
          if dollars.Some? && cents.Some? {
            return Wrap64(dollars.value * 100 + cents.value);
          }
      }
      i := i + 1;
    }
    return 0;
  }

  predicate AllNoMatch(matches: seq<PatternMatch>) {
    forall k :: 0 <= k < |matches| ==> matches[k].NoMatch?
  }

  /** A sentence that no pattern matches has amount 0. */
  lemma {:induction false} NoMatchIsZero(matches: seq<PatternMatch>)
    requires AllNoMatch(matches)
    ensures FirstAmount(matches) == 0
  {
    if matches != [] {
      assert AllNoMatch(matches[1..]) by {
        assert forall k :: 0 <= k < |matches[1..]| ==> matches[1..][k] == matches[k + 1];
      }
      NoMatchIsZero(matches[1..]);
    }
  }

  /** "X dollars and Y cents", when the earlier patterns do not match, gives
      X * 100 + Y minor units, for every X and Y written in decimal whose
      total fits a `long`. */
  lemma DollarsAndCents(before: seq<PatternMatch>, after: seq<PatternMatch>, x: nat, y: nat)
    requires AllNoMatch(before) && x * 100 + y <= LongMax
    ensures FirstAmount(before + [DollarsCents(Formatting.NatText(x), Formatting.NatText(y))] + after) == x * 100 + y
  {
    var m := DollarsCents(Formatting.NatText(x), Formatting.NatText(y));
    assert before + [m] + after == before + ([m] + after);
    SkipNoMatch(before, [m] + after);
    Formatting.ParseNatText(x);
    Formatting.ParseNatText(y);
  }

  /** Patterns that do not match are passed over. */
  lemma {:induction false} SkipNoMatch(before: seq<PatternMatch>, rest: seq<PatternMatch>)
    requires AllNoMatch(before)
    ensures FirstAmount(before + rest) == FirstAmount(rest)
  {
    if before != [] {
      assert (before + rest)[0] == before[0] && before[0].NoMatch?;
      assert (before + rest)[1..] == before[1..] + rest;
      assert AllNoMatch(before[1..]) by {
        assert forall k :: 0 <= k < |before[1..]| ==> before[1..][k] == before[k + 1];
      }
      SkipNoMatch(before[1..], rest);
    } else {
      assert before + rest == rest;
    }
  }


  /** When every decimal match is a `long`, so is the amount. */
  lemma {:induction false} AmountIsLong(matches: seq<PatternMatch>)
    requires forall k :: 0 <= k < |matches| && matches[k].Decimal? ==> IsLong(matches[k].rounded)
    ensures IsLong(FirstAmount(matches))
  {
    if matches != [] && !matches[0].Decimal? {
      assert forall k :: 0 <= k < |matches[1..]| ==> matches[1..][k] == matches[k + 1];
      AmountIsLong(matches[1..]);
    }
  }

  // ---- currency -----------------------------------------------------------

  const CurrencyRules := [
    Rule(["dollar", "usd", "$"], "USD"),
    Rule(["euro", "eur"], "EUR"),
    Rule(["pound", "gbp"], "GBP"),
    Rule(["lira", "try"], "TRY")]

  /** `extractCurrency`: the chain above, tested on the lower-cased text,
      with the caller's preferred currency when no keyword occurs. */
  function ExtractCurrency(spokenText: string, preferredCurrency: string): (c: string)
    ensures forall k :: FirstFiring(CurrencyRules, ToLower(spokenText), k) ==> c == CurrencyRules[k].outcome
    ensures NoneFires(CurrencyRules, ToLower(spokenText)) ==> c == preferredCurrency
  {
    Classify(CurrencyRules, ToLower(spokenText), preferredCurrency)
  }

  lemma CurrencyOutcome(k: int)
    requires 0 <= k < |CurrencyRules|
    ensures CurrencyRules[k].outcome in {"USD", "EUR", "GBP", "TRY"}
  {
  }

  /** The currency is one of the four the keywords name, or the preferred
      one, which is used whenever no keyword occurs. */
  lemma CurrencyRange(spokenText: string, preferredCurrency: string)
    ensures ExtractCurrency(spokenText, preferredCurrency) in {"USD", "EUR", "GBP", "TRY"}
            || (ExtractCurrency(spokenText, preferredCurrency) == preferredCurrency
                && NoneFires(CurrencyRules, ToLower(spokenText)))
    ensures NoneFires(CurrencyRules, ToLower(spokenText)) ==> ExtractCurrency(spokenText, preferredCurrency) == preferredCurrency
  {
    if !NoneFires(CurrencyRules, ToLower(spokenText)) {
      var k := SomeRuleFiresFirst(CurrencyRules, ToLower(spokenText));
      CurrencyOutcome(k);
    }
  }

  // ---- description --------------------------------------------------------

  /** `\s` of `java.util.regex`. */
  predicate IsRegexSpace(c: char) {
    c == ' ' || c == '\t' || c == '\n' || c == 11 as char || c == 12 as char || c == '\r'
  }

  /** Leading `\s` characters removed. */
  function DropSpaces(s: string): (r: string)
    ensures |r| <= |s| && r == s[|s| - |r|..]
    ensures r == [] || !IsRegexSpace(r[0])
  {
    if s != [] && IsRegexSpace(s[0]) then DropSpaces(s[1..]) else s
  }

  /** `replaceAll("\\s+", " ")`: every run of `\s` becomes one space. */
  function Collapse(s: string): (r: string)
    ensures r == [] <==> s == []
    ensures r != [] ==> (IsRegexSpace(r[0]) <==> IsRegexSpace(s[0])) && (!IsRegexSpace(s[0]) ==> r[0] == s[0])
    ensures forall i :: 0 <= i < |r| ==> r[i] == ' ' || (!IsRegexSpace(r[i]) && r[i] in s)
    ensures forall i :: 0 <= i < |r| - 1 ==> !(IsRegexSpace(r[i]) && IsRegexSpace(r[i + 1]))
    decreases |s|
  {
    if s == [] then []
    else if IsRegexSpace(s[0]) then [' '] + Collapse(DropSpaces(s[1..]))
    else [s[0]] + Collapse(s[1..])
  }

  /** `trim().replaceAll("\\s+", " ")` */
  function Normalize(s: string): string {
    Collapse(Trim(s))
  }

  predicate AllTrimmable(s: string) {
    forall i :: 0 <= i < |s| ==> IsTrimmable(s[i])
  }

  /** The normalised text is empty exactly when the text is all blanks and
      control characters. */
  lemma {:induction false} NormalizeEmpty(s: string)
    ensures Normalize(s) == [] <==> AllTrimmable(s)
  {
    TrimStartEmpty(s);
    TrimEndEmpty(TrimStart(s));
  }

  lemma {:induction false} TrimStartEmpty(s: string)
    ensures TrimStart(s) == [] <==> AllTrimmable(s)
  {
    if s != [] && IsTrimmable(s[0]) {
      TrimStartEmpty(s[1..]);
      assert AllTrimmable(s) <==> AllTrimmable(s[1..]) by {
        assert forall i :: 1 <= i < |s| ==> s[i] == s[1..][i - 1];
      }
    }
  }

  lemma {:induction false} TrimEndEmpty(s: string)
    requires s == [] || !IsTrimmable(s[0])
    ensures TrimEnd(s) == [] <==> s == []
  {
    if s != [] && IsTrimmable(s[|s| - 1]) {
      TrimEndEmpty(s[..|s| - 1]);
    }
  }

  const DescriptionRules := [
    Rule(["coffee"], "Coffee"),
    Rule(["lunch"], "Lunch"),
    Rule(["dinner"], "Dinner"),
    Rule(["breakfast"], "Breakfast"),
    Rule(["groceries", "grocery"], "Groceries"),
    Rule(["gas", "fuel"], "Gas"),
    Rule(["parking"], "Parking"),
    Rule(["taxi", "uber", "ride"], "Transportation")]

  const DescriptionLabels := {"Coffee", "Lunch", "Dinner", "Breakfast", "Groceries", "Gas", "Parking", "Transportation"}

  lemma DescriptionOutcome(k: int)
    requires 0 <= k < |DescriptionRules|
    ensures DescriptionRules[k].outcome in DescriptionLabels && DescriptionRules[k].outcome != []
  {
  }

  /** The fallback of `extractDescription`: the normalised text, or
      "Expense" when nothing is left. */
  function RemainderOrExpense(cleaned: string): (r: string)
    ensures r != []
  {
    var normalized := Normalize(cleaned);
    if normalized == [] then "Expense" else normalized
  }

  /** `extractDescription`, given `cleaned`, the lower-cased text once the
      filler phrases, amounts and the "at <store>" tail are removed. */
  function ExtractDescription(cleaned: string): (d: string)
    ensures forall k :: FirstFiring(DescriptionRules, cleaned, k) ==> d == DescriptionRules[k].outcome
    ensures NoneFires(DescriptionRules, cleaned) ==> d == RemainderOrExpense(cleaned)
  {
    Classify(DescriptionRules, cleaned, RemainderOrExpense(cleaned))
  }

  /** The description is never empty: it is a keyword label, or the
      whitespace-normalised remainder, or "Expense" exactly when no keyword
      occurs and only blanks are left. */
  lemma DescriptionShape(cleaned: string)
    ensures ExtractDescription(cleaned) != []
    ensures ExtractDescription(cleaned) in DescriptionLabels
            || (NoneFires(DescriptionRules, cleaned) && !AllTrimmable(cleaned)
                && ExtractDescription(cleaned) == Normalize(cleaned))
            || (NoneFires(DescriptionRules, cleaned) && AllTrimmable(cleaned)
                && ExtractDescription(cleaned) == "Expense")
  {
    var d := ExtractDescription(cleaned);
    if NoneFires(DescriptionRules, cleaned) {
      assert d == RemainderOrExpense(cleaned);
      NormalizeEmpty(cleaned);
    } else {
      var k := SomeRuleFiresFirst(DescriptionRules, cleaned);
      DescriptionOutcome(k);
    }
  }

  // ---- category -----------------------------------------------------------

  const CategoryRules := [
    Rule(["coffee", "starbucks", "cafe"], "food-dining"),
    Rule(["lunch", "dinner", "breakfast", "restaurant", "mcdonald"], "food-dining"),
    Rule(["grocery", "market", "walmart", "target"], "groceries"),
    Rule(["gas", "fuel", "shell", "exxon", "bp"], "transportation"),
    Rule(["taxi", "uber", "lyft", "bus", "train"], "transportation"),
    Rule(["parking"], "transportation")]

  /** `description + " " + (merchant or "")`, lower-cased. */
  function CategoryText(description: string, merchant: Option<string>): string {
    ToLower(description + " " + (if merchant.Some? then merchant.value else ""))
  }

  lemma CategoryOutcome(k: int)
    requires 0 <= k < |CategoryRules|
    ensures CategoryRules[k].outcome in {"food-dining", "groceries", "transportation"}
  {
  }

  /** `suggestCategory` */
  function SuggestCategory(description: string, merchant: Option<string>): (c: string)
    ensures forall k :: FirstFiring(CategoryRules, CategoryText(description, merchant), k) ==> c == CategoryRules[k].outcome
    ensures NoneFires(CategoryRules, CategoryText(description, merchant)) ==> c == "other"
  {
    Classify(CategoryRules, CategoryText(description, merchant), "other")
  }

  /** The suggestion is one of four slugs, and "other" exactly when no
      keyword occurs in the description or the merchant. */
  lemma SuggestedCategoryRange(description: string, merchant: Option<string>)
    ensures SuggestCategory(description, merchant) in {"food-dining", "groceries", "transportation", "other"}
    ensures SuggestCategory(description, merchant) == "other"
            <==> NoneFires(CategoryRules, CategoryText(description, merchant))
  {
    var text := CategoryText(description, merchant);
    if !NoneFires(CategoryRules, text) {
      var k := SomeRuleFiresFirst(CategoryRules, text);
      CategoryOutcome(k);
    }
  }

  // ---- parse result and hints --------------------------------------------

  /** `ExpenseParseResult` without its confidence score. */
  datatype ExpenseParseResult = ExpenseParseResult(
    amountMinor: int,
    currency: string,
    categoryId: string,
    description: string,
    occurredAt: Instant,
    merchant: Option<string>)

  /** What `parseVoiceExpense` yields: `cleaned` is what the filler-removing
      expressions leave of the lower-cased text, `merchant` the trimmed "at
      <merchant>" capture, `matches` the five amount patterns' matches. */
  function ParseVoiceExpense(spokenText: string, preferredCurrency: string, cleaned: string,
                             merchant: Option<string>, matches: seq<PatternMatch>, now: Instant)
    : (p: ExpenseParseResult)
    ensures p.amountMinor == FirstAmount(matches) && p.merchant == merchant && p.occurredAt == now
    ensures p.currency == ExtractCurrency(spokenText, preferredCurrency)
    ensures p.description == ExtractDescription(cleaned)
    ensures p.categoryId == SuggestCategory(p.description, merchant)
  {
    var description := ExtractDescription(cleaned);
    ExpenseParseResult(FirstAmount(matches), ExtractCurrency(spokenText, preferredCurrency),
      SuggestCategory(description, merchant), description, now, merchant)
  }

  /** `parseVoiceExpense`, the steps in the order the service takes them. */
  method ParseSpokenText(spokenText: string, preferredCurrency: string, cleaned: string,
                         merchant: Option<string>, matches: seq<PatternMatch>, now: Instant)
    returns (p: ExpenseParseResult)
    ensures p == ParseVoiceExpense(spokenText, preferredCurrency, cleaned, merchant, matches, now)
  {
    var amountMinor := ExtractAmountMinor(matches);
    var currency := ExtractCurrency(spokenText, preferredCurrency);
    var description := ExtractDescription(cleaned);
    var categoryId := SuggestCategory(description, merchant);
    p := ExpenseParseResult(amountMinor, currency, categoryId, description, now, merchant);
  }

  const AmountHint := "Try including a clear amount like '$25.50' or '25 dollars'"
  const DescriptionHint := "Include what you bought, like 'coffee' or 'lunch'"
  const MerchantHint := "Try including where you spent it, like 'at Starbucks'"

  /** The hints in the order `generateSuggestions` considers them. */
  const AllHints := [AmountHint, DescriptionHint, MerchantHint]

  /** Each hint's condition on the parse result. */
  predicate Needs(p: ExpenseParseResult, k: nat)
    requires k < 3
  {
    match k
    case 0 => p.amountMinor <= 0
    case 1 => p.description == "Expense"
    case _ => p.merchant.None?
  }

  /** `hints` holds exactly the hints whose conditions hold, each once, in
      the order amount, description, merchant. */
  predicate Suggests(hints: seq<string>, p: ExpenseParseResult) {
    |hints| <= 3
    && (forall i :: 0 <= i < |hints| ==> hints[i] in AllHints)
    && (forall k :: 0 <= k < 3 ==> (AllHints[k] in hints <==> Needs(p, k)))
    && (forall i, j :: 0 <= i < j < |hints| ==> Rank(hints[i]) < Rank(hints[j]))
  }

  /** The three hints are different texts. */
  lemma HintsDistinct()
    ensures AmountHint != DescriptionHint && AmountHint != MerchantHint && DescriptionHint != MerchantHint
    ensures Rank(AmountHint) == 0 && Rank(DescriptionHint) == 1 && Rank(MerchantHint) == 2
  {
    assert |AmountHint| != |DescriptionHint| && |AmountHint| != |MerchantHint| && |DescriptionHint| != |MerchantHint|;
  }

  /** A hint's position in `AllHints`. */
  function Rank(h: string): (k: nat)
    ensures k < 3
  {
    if h == AmountHint then 0 else if h == DescriptionHint then 1 else 2
  }

  /** `generateSuggestions` */
  method GenerateSuggestions(p: ExpenseParseResult) returns (hints: seq<string>)
    ensures Suggests(hints, p)
  {
    hints := [];
    if p.amountMinor <= 0 {
      hints := hints + [AmountHint];
    }
    if p.description == "Expense" {
      hints := hints + [DescriptionHint];
    }
    if p.merchant.None? {
      hints := hints + [MerchantHint];
    }
    NeededHintsSuggest(p);
  }

  /** The needed hints, taken in order, suggest for `p`. */
  lemma NeededHintsSuggest(p: ExpenseParseResult)
    ensures Suggests((if Needs(p, 0) then [AmountHint] else []) + (if Needs(p, 1) then [DescriptionHint] else [])
                     + (if Needs(p, 2) then [MerchantHint] else []), p)
  {
    HintsDistinct();
  }

  /** The hints are determined by the parse result: two lists that both
      suggest for `p` are equal. */
  lemma SuggestionsAreDetermined(h1: seq<string>, h2: seq<string>, p: ExpenseParseResult)
    requires Suggests(h1, p) && Suggests(h2, p)
    ensures h1 == h2
  {
    HintsInOrder(h1, p);
    HintsInOrder(h2, p);
  }

  /** A list that suggests for `p` is the needed hints taken in order. */
  lemma HintsInOrder(h: seq<string>, p: ExpenseParseResult)
    requires Suggests(h, p)
    ensures h == (if Needs(p, 0) then [AmountHint] else []) + (if Needs(p, 1) then [DescriptionHint] else [])
                 + (if Needs(p, 2) then [MerchantHint] else [])
  {
    assert forall i :: 0 <= i < |h| ==> h[i] == AllHints[Rank(h[i])];
    assert AllHints[0] == AmountHint && AllHints[1] == DescriptionHint && AllHints[2] == MerchantHint;
    if |h| == 3 {
      assert Rank(h[0]) < Rank(h[1]) < Rank(h[2]);
    } else if |h| == 2 {
      assert Rank(h[0]) < Rank(h[1]);
    } else if |h| == 1 {
      assert h[0] in h;
    }
  }

  // ---- drafts and posting -------------------------------------------------

  datatype VoiceExpenseRequest = VoiceExpenseRequest(spokenText: string, preferredCurrency: string)

  /** `VoiceExpenseData` without its confidence scores. */
  datatype VoiceExpenseData = VoiceExpenseData(
    userId: Id,
    originalText: string,
    parseResult: ExpenseParseResult,
    suggestions: seq<string>,
    createdAt: Instant)

  function CreatedAt(v: VoiceExpenseData): int { v.createdAt }

  /** `findByUserIdOrderByCreatedAtDesc` */
  function GetUserVoiceExpenseData(rows: seq<Row<VoiceExpenseData>>, userId: Id): (r: seq<Row<VoiceExpenseData>>)
    ensures Repo.NewestFirst(r, CreatedAt)
    ensures multiset(r) == multiset(Select(rows, (v: VoiceExpenseData) => v.userId == userId))
  {
    Repo.SortNewestFirst(Select(rows, (v: VoiceExpenseData) => v.userId == userId), CreatedAt)
  }

  /** `getVoiceExpenseData`: a draft is shown to its own user only. */
  function GetVoiceExpenseData(rows: seq<Row<VoiceExpenseData>>, id: Id, userId: Id): (r: Result<VoiceExpenseData>)
    ensures r.Ok? <==> HasId(rows, id) && Find(rows, id).value.userId == userId
    ensures r.Ok? ==> r.value == Find(rows, id).value
    ensures !HasId(rows, id) ==> r == Err("Voice expense data not found")
    ensures HasId(rows, id) && Find(rows, id).value.userId != userId ==> r == Err("Access denied")
  {
    match Find(rows, id)
    case None => Err("Voice expense data not found")
    case Some(data) => if data.userId != userId then Err("Access denied") else Ok(data)
  }

  /** `CreateExpenseFromVoiceRequest`, the draft as the user confirmed it. */
  datatype CreateExpenseFromVoiceRequest = CreateExpenseFromVoiceRequest(
    voiceExpenseDataId: Id,
    amountMinor: int,
    currency: string,
    categoryId: Id,
    description: Option<string>,
    merchant: Option<string>)

  /** The ledger request `createExpenseFromVoice` builds: an expense of the
      caller, with the confirmed amount, currency and category, the
      description as notes, and the current time. */
  function VoiceLedgerRequest(userId: Id, req: CreateExpenseFromVoiceRequest, now: Instant)
    : (l: LedgerService.CreateLedgerEntryRequest)
    ensures l.memberId == userId && l.txType == EXPENSE && l.occurredAt == now
    ensures l.amountMinor == req.amountMinor && l.currency == req.currency && l.categoryId == req.categoryId
    ensures l.notes == req.description && l.attachments.None?
  {
    LedgerService.CreateLedgerEntryRequest(userId, EXPENSE, req.amountMinor, req.currency, req.categoryId, now,
      req.description, None)
  }

  /** A confirmed draft is posted as the caller's expense, with the amount,
      currency and category the user confirmed and the description as notes,
      in the caller's family; it fails exactly when the ledger would refuse
      the request. */
  lemma VoiceExpenseIsPosted(users: seq<Row<AccountDomain.User>>, categories: seq<Row<CategoryDomain.Category>>,
                             entries: seq<Row<LedgerEntry>>, userId: Id, req: CreateExpenseFromVoiceRequest,
                             now: Instant)
    ensures var out := LedgerService.CreateEntryEffect(users, categories, entries, userId,
                                                       VoiceLedgerRequest(userId, req, now), now);
      out.0.Ok? ==>
        var e := out.1[|entries|].val;
        |out.1| == |entries| + 1 && out.1[..|entries|] == entries
        && e.txType == EXPENSE && e.memberId == userId && e.amount == MoneyAmount(req.amountMinor, req.currency)
        && e.categoryId == req.categoryId && e.notes == req.description && e.occurredAt == now
        && e.familyId == UserService.CurrentFamilyId(users, userId).value
  {
  }

  class VoiceExpenseService {
    const drafts: Table<VoiceExpenseData>
    const ledger: LedgerService.LedgerService

    ghost predicate Valid()
      reads this, drafts
    {
      drafts.Valid()
    }

    constructor (drafts: Table<VoiceExpenseData>, ledger: LedgerService.LedgerService)
      ensures this.drafts == drafts && this.ledger == ledger
    {
      this.drafts := drafts;
      this.ledger := ledger;
    }

    /** `processVoiceExpense`: the parse, the hints, and the saved draft. */
    method ProcessVoiceExpense(request: VoiceExpenseRequest, userId: Id, cleaned: string, merchant: Option<string>,
                               matches: seq<PatternMatch>, now: Instant)
      returns (saved: Row<VoiceExpenseData>)
      requires Valid()
      modifies drafts
      ensures Valid()
      ensures saved.id == FreshId(old(drafts.rows)) && drafts.rows == old(drafts.rows) + [saved]
      ensures saved.val.userId == userId && saved.val.originalText == request.spokenText && saved.val.createdAt == now
      ensures saved.val.parseResult
              == ParseVoiceExpense(request.spokenText, request.preferredCurrency, cleaned, merchant, matches, now)
      ensures Suggests(saved.val.suggestions, saved.val.parseResult)
    {
      var parse := ParseSpokenText(request.spokenText, request.preferredCurrency, cleaned, merchant, matches, now);
      var suggestions := GenerateSuggestions(parse);
      var data := VoiceExpenseData(userId, request.spokenText, parse, suggestions, now);
      var id := drafts.Insert(data);
      saved := Row(id, data);
    }

    /** `createExpenseFromVoice` */
    method CreateExpenseFromVoice(req: CreateExpenseFromVoiceRequest, userId: Id, now: Instant)
      returns (r: Result<LedgerService.LedgerEntryResponse>)
      requires ledger.Valid()
      modifies ledger.entries
      ensures ledger.Valid()
      ensures (r, ledger.entries.rows) == LedgerService.CreateEntryEffect(ledger.users.rows, ledger.categories.rows,
                old(ledger.entries.rows), userId, VoiceLedgerRequest(userId, req, now), now)
    {
      r := ledger.CreateEntry(userId, VoiceLedgerRequest(userId, req, now), now);
    }
  }
}
