/** Bills and the validator run before a bill is created. */
module Bills {
  import opened Wrappers
  import opened Validation
  import Regex

  /** A payable invoice belonging to a collection. Amounts are unsigned. */
  datatype Bill = Bill(
    id: string,
    collectionId: string,
    paid: bool,
    state: string,
    amount: nat,
    paidAmount: nat,
    dueAt: string,
    email: string,
    mobile: string,
    name: string,
    url: string,
    reference1Label: string,
    reference1: string,
    reference2Label: string,
    reference2: string,
    deliver: bool,
    redirectUrl: string,
    callbackUrl: string,
    description: string)

  /** The layout handed to the date rule, verbatim. */
  const DueAtLayout := "2018-04-19"

  /** The fields a bill's validator checks. */
  const BillFields: set<Field> :=
    {CollectionId, Email, Mobile, Name, Amount, CallbackUrl, Description, DueAt,
     RedirectUrl, Reference1Label, Reference1, Reference2Label, Reference2}

  /** The outcome of the rules listed for field `k` of a bill. */
  function BillRule(b: Bill, f: Formats, k: Field): Option<FieldError>
  {
    match k
    case CollectionId => CheckRequired(b.collectionId, f)
    case Email => CheckOptional(b.email, IsEmail, f)
    case Mobile => CheckOptional(b.mobile, Match(Regex.MobilePattern), f)
    case Name => CheckRequired(b.name, f)
    case Amount => FieldOf(RequireAmount(b.amount))
    case CallbackUrl => CheckRequiredThen(b.callbackUrl, IsUrl, f)
    case Description => CheckRequiredLength(b.description, 200, f)
    case DueAt => CheckOptional(b.dueAt, Date(DueAtLayout), f)
    case RedirectUrl => CheckOptional(b.redirectUrl, IsUrl, f)
    case Reference1Label => CheckMaxLength(b.reference1Label, 20, f)
    case Reference1 => CheckMaxLength(b.reference1, 120, f)
    case Reference2Label => CheckMaxLength(b.reference2Label, 20, f)
    case Reference2 => CheckMaxLength(b.reference2, 120, f)
    case _ => None
  }

  /** When field `k` of a bill is rejected, stated directly: collection id,
      name, amount, callback URL and description are required; every other
      rule accepts an empty value. */
  predicate BillFieldFails(b: Bill, f: Formats, k: Field)
  {
    match k
    case CollectionId => b.collectionId == ""
    case Name => b.name == ""
    case Amount => b.amount == 0
    case CallbackUrl => b.callbackUrl == "" || !f.isUrl(b.callbackUrl)
    case Description => b.description == "" || Utf8Length(b.description) > 200
    case Email => b.email != "" && !f.isEmail(b.email)
    case Mobile => b.mobile != "" && !Regex.ContainsMobile(b.mobile)
    case DueAt => b.dueAt != "" && !f.isDate(DueAtLayout, b.dueAt)
    case RedirectUrl => b.redirectUrl != "" && !f.isUrl(b.redirectUrl)
    case Reference1Label => Utf8Length(b.reference1Label) > 20
    case Reference1 => Utf8Length(b.reference1) > 120
    case Reference2Label => Utf8Length(b.reference2Label) > 20
    case Reference2 => Utf8Length(b.reference2) > 120
    case _ => false
  }

  /** The error reported for a failing field `k`: `Blank` for an empty
      required value, otherwise the violated format or length rule. */
  function BillViolation(b: Bill, k: Field): RuleError
  {
    match k
    case CollectionId => Blank
    case Name => Blank
    case Amount => Blank
    case CallbackUrl => if b.callbackUrl == "" then Blank else NotUrl
    case Description => if b.description == "" then Blank else BadLength(1, 200)
    case Email => NotEmail
    case Mobile => NoMatch
    case DueAt => NotDate
    case RedirectUrl => NotUrl
    case Reference1Label => BadLength(0, 20)
    case Reference1 => BadLength(0, 120)
    case Reference2Label => BadLength(0, 20)
    case Reference2 => BadLength(0, 120)
    case _ => Blank
  }

  /** Field `k`'s rules fail exactly when `BillFieldFails` says, with `BillViolation`'s error. */
  lemma BillRuleMeaning(b: Bill, f: Formats, k: Field)
    ensures BillRule(b, f, k).Some? <==> BillFieldFails(b, f, k)
    ensures BillRule(b, f, k).Some? ==> BillRule(b, f, k).value == Failed(BillViolation(b, k))
  {
    match k
    case Mobile => Regex.MobileMatchString(b.mobile);
    case _ =>
  }

  /** The outcome of every listed rule, before filtering. */
  function BillEntries(b: Bill, f: Formats): map<Field, Option<FieldError>> {
    map k | k in BillFields :: BillRule(b, f, k)
  }

  /** The bill's aggregated error has an entry for exactly the fields whose
      rules fail, each holding the error of the rule that failed. */
  function BillValidate(b: Bill, f: Formats): (r: FieldErrors)
    ensures forall k :: k in r <==> BillFieldFails(b, f, k)
    ensures forall k | k in r :: r[k] == Failed(BillViolation(b, k))
  {
    var entries := BillEntries(b, f);
    forall k
      ensures k in entries && entries[k].Some? <==> BillFieldFails(b, f, k)
      ensures k in entries && entries[k].Some? ==> entries[k].value == Failed(BillViolation(b, k))
    {
      BillRuleMeaning(b, f, k);
    }
    Filter(entries)
  }

  /** A bill passes exactly when every listed rule passes. */
  lemma BillValidIff(b: Bill, f: Formats)
    ensures BillValidate(b, f) == map[] <==> BillAllRulesPass(b, f)
  {
    if BillValidate(b, f) == map[] {
      BillPassImpliesRequired(b, f);
      BillPassImpliesFormats(b, f);
      BillPassImpliesLengths(b, f);
    } else {
      var k :| k in BillValidate(b, f);
      assert BillFieldFails(b, f, k);
    }
  }

  /** Every rule of a bill, spelled out field by field. */
  predicate BillAllRulesPass(b: Bill, f: Formats) {
    BillRequiredPresent(b, f) && BillFormatsHold(b, f) && BillLengthsHold(b)
  }

  /** The required fields are set; the callback URL is also well-formed. */
  predicate BillRequiredPresent(b: Bill, f: Formats) {
    && b.collectionId != "" && b.name != "" && b.amount != 0
    && b.callbackUrl != "" && f.isUrl(b.callbackUrl)
    && b.description != "" && Utf8Length(b.description) <= 200
  }

  /** The optional formatted fields are empty or well-formed. */
  predicate BillFormatsHold(b: Bill, f: Formats) {
    && (b.email == "" || f.isEmail(b.email))
    && (b.mobile == "" || Regex.ContainsMobile(b.mobile))
    && (b.dueAt == "" || f.isDate(DueAtLayout, b.dueAt))
    && (b.redirectUrl == "" || f.isUrl(b.redirectUrl))
  }

  /** The references and their labels are within their byte limits. */
  predicate BillLengthsHold(b: Bill) {
    && Utf8Length(b.reference1Label) <= 20 && Utf8Length(b.reference1) <= 120
    && Utf8Length(b.reference2Label) <= 20 && Utf8Length(b.reference2) <= 120
  }

  lemma BillPassImpliesRequired(b: Bill, f: Formats)
    requires BillValidate(b, f) == map[]
    ensures BillRequiredPresent(b, f)
  {
    var r := BillValidate(b, f);
    assert CollectionId !in r && Name !in r && Amount !in r;
    assert CallbackUrl !in r && Description !in r;
  }

  lemma BillPassImpliesFormats(b: Bill, f: Formats)
    requires BillValidate(b, f) == map[]
    ensures BillFormatsHold(b, f)
  {
    var r := BillValidate(b, f);
    assert Email !in r && Mobile !in r && DueAt !in r && RedirectUrl !in r;
  }

  lemma BillPassImpliesLengths(b: Bill, f: Formats)
    requires BillValidate(b, f) == map[]
    ensures BillLengthsHold(b)
  {
    var r := BillValidate(b, f);
    assert Reference1Label !in r && Reference1 !in r;
    assert Reference2Label !in r && Reference2 !in r;
  }

  /** Id, paid flag, state, paid amount, URL and deliver flag never change the result. */
  lemma BillIgnoresUnlistedFields(
    b: Bill, f: Formats,
    id: string, paid: bool, state: string, paidAmount: nat, url: string, deliver: bool)
    ensures BillValidate(b, f)
         == BillValidate(b.(id := id, paid := paid, state := state, paidAmount := paidAmount,
                            url := url, deliver := deliver), f)
  {
    var b' := b.(id := id, paid := paid, state := state, paidAmount := paidAmount,
                 url := url, deliver := deliver);
    forall k | k in BillFields
      ensures BillRule(b, f, k) == BillRule(b', f, k)
    {
    }
    assert BillEntries(b, f) == BillEntries(b', f);
  }

  /** A bill with every required field set, a well-formed callback URL and
      the sample mobile number "60123456789" passes. */
  lemma SampleBillPasses(f: Formats)
    requires f.isUrl("https://example.com/callback")
    ensures BillValidate(SampleBill, f) == map[]
  {
    var b := SampleBill;
    assert Regex.ContainsMobile(b.mobile) by {
      assert Regex.MobileAt(b.mobile, 0);
    }
    forall k
      ensures !BillFieldFails(b, f, k)
    {
    }
    var r := BillValidate(b, f);
    assert forall k :: k !in r;
  }

  const SampleBill := Bill(
    id := "", collectionId := "inbmmepb", paid := false, state := "", amount := 200,
    paidAmount := 0, dueAt := "", email := "", mobile := "60123456789", name := "Sara",
    url := "", reference1Label := "", reference1 := "", reference2Label := "", reference2 := "",
    deliver := false, redirectUrl := "", callbackUrl := "https://example.com/callback",
    description := "Sample bill")
}
